/**
 * The aggregation stage: the decoded updates are folded, one at a time, into
 * a keyed snapshot "symbol -> latest item", where each item remembers the
 * price its symbol had in the snapshot before. The stream of snapshots starts
 * with the empty one and then carries one snapshot per update, in order.
 */
module Repository {
  import opened Wrappers
  import opened Domain
  import opened WireCodec

  /**
   * A snapshot: the items by symbol, and the symbols in the order they were
   * first inserted (the iteration order of an insertion-ordered map; a key
   * that is replaced keeps its place).
   */
  datatype Snapshot = Snapshot(order: seq<string>, items: map<string, PriceItem>)
  {
    ghost predicate Valid()
    {
      && (forall i, j :: 0 <= i < j < |order| ==> order[i] != order[j])
      && (forall k :: k in items <==> k in order)
    }

    /** The items in iteration order: what `values` of the map yields. */
    function Values(): (vs: seq<PriceItem>)
      requires Valid()
      ensures |vs| == |order| == |items|
      ensures forall i :: 0 <= i < |order| ==> vs[i] == items[order[i]]
    {
      DistinctCardinality(order, items.Keys);
      seq(|order|, i requires 0 <= i < |order| => items[order[i]])
    }
  }

  /** A sequence without repeats has as many elements as the set it lists. */
  lemma {:induction false} DistinctCardinality(xs: seq<string>, keys: set<string>)
    requires forall i, j :: 0 <= i < j < |xs| ==> xs[i] != xs[j]
    requires forall k :: k in keys <==> k in xs
    ensures |keys| == |xs|
  {
    if xs != [] {
      var n := |xs| - 1;
      assert forall k :: k in keys - {xs[n]} <==> k in xs[..n] by {
        forall k ensures k in keys - {xs[n]} <==> k in xs[..n] {
          if k in xs[..n] {
            var i :| 0 <= i < n && xs[..n][i] == k;
            assert xs[i] == k;
          }
          if k in xs && k != xs[n] {
            var i :| 0 <= i < |xs| && xs[i] == k;
            assert xs[..n][i] == k;
          }
        }
      }
      DistinctCardinality(xs[..n], keys - {xs[n]});
    }
  }

  /** The snapshot the stream starts from. */
  function Empty(): (s: Snapshot)
    ensures s.Valid() && s.items == map[]
  {
    Snapshot([], map[])
  }

  /**
   * One fold step. The update's symbol maps to a new item with the update's
   * price whose previous price is the price the symbol had before (none on its
   * first update); every other entry is left exactly as it was, and the key set
   * grows by the update's symbol only.
   */
  function Fold(acc: Snapshot, u: PriceUpdate): (r: Snapshot)
    requires acc.Valid()
    ensures r.Valid()
    ensures r.items.Keys == acc.items.Keys + {u.symbol}
    ensures r.items[u.symbol].symbol == u.symbol && r.items[u.symbol].price == u.price
    ensures r.items[u.symbol].previousPrice
         == if u.symbol in acc.items then Some(acc.items[u.symbol].price) else None
    ensures forall k :: k in acc.items && k != u.symbol ==> r.items[k] == acc.items[k]
    ensures u.symbol in acc.items ==> r.order == acc.order
    ensures u.symbol !in acc.items ==> r.order == acc.order + [u.symbol]
  {
    var existing := if u.symbol in acc.items then Some(acc.items[u.symbol]) else None;
    var item := PriceItem(u.symbol, u.price, if existing.Some? then Some(existing.value.price) else None);
    var order := if u.symbol in acc.items then acc.order else acc.order + [u.symbol];
    Snapshot(order, acc.items[u.symbol := item])
  }

  /** The new item's direction compares the update's price with the one it replaces. */
  lemma FoldDirection(acc: Snapshot, u: PriceUpdate)
    requires acc.Valid()
    ensures u.symbol !in acc.items ==> Fold(acc, u).items[u.symbol].Direction() == Flat
    ensures u.symbol in acc.items ==>
      (Fold(acc, u).items[u.symbol].Direction() == Up <==> u.price > acc.items[u.symbol].price)
    ensures u.symbol in acc.items ==>
      (Fold(acc, u).items[u.symbol].Direction() == Down <==> u.price < acc.items[u.symbol].price)
  {
  }

  /**
   * The stream of snapshots for a run of updates: the empty snapshot first,
   * then one snapshot per update, each the fold of the one before it.
   */
  function Scan(us: seq<PriceUpdate>): (r: seq<Snapshot>)
    ensures |r| == |us| + 1 && r[0] == Empty() && r[|us|] == Latest(us)
    ensures forall i :: 0 <= i < |r| ==> r[i].Valid()
    ensures forall i :: 0 <= i < |us| ==> r[i + 1] == Fold(r[i], us[i])
  {
    if us == [] then [Empty()]
    else
      var n := |us| - 1;
      var prefix := Scan(us[..n]);
      var r := prefix + [Fold(prefix[n], us[n])];
      assert forall i :: 0 <= i < |us| ==> r[i + 1] == Fold(r[i], us[i]) by {
        forall i | 0 <= i < |us| ensures r[i + 1] == Fold(r[i], us[i]) {
          if i < n {
            assert us[..n][i] == us[i];
          }
        }
      }
      r
  }

  /** The snapshot after the whole run: every update folded in, in order. */
  function Latest(us: seq<PriceUpdate>): (s: Snapshot)
    ensures s.Valid()
  {
    if us == [] then Empty() else Fold(Latest(us[..|us| - 1]), us[|us| - 1])
  }

  /** Adding an update leaves every earlier snapshot of the stream as it was. */
  lemma ScanExtends(us: seq<PriceUpdate>, u: PriceUpdate)
    ensures Scan(us + [u]) == Scan(us) + [Fold(Latest(us), u)]
  {
    assert (us + [u])[..|us|] == us;
  }

  /** The symbols a run of updates mentions. */
  function SymbolsOf(us: seq<PriceUpdate>): (syms: set<string>)
    ensures forall i :: 0 <= i < |us| ==> us[i].symbol in syms
    ensures forall s :: s in syms ==> exists i :: 0 <= i < |us| && us[i].symbol == s
  {
    set i | 0 <= i < |us| :: us[i].symbol
  }

  /** The prices a run of updates carries for one symbol, in arrival order. */
  function PricesFor(us: seq<PriceUpdate>, s: string): seq<real>
  {
    if us == [] then []
    else
      var n := |us| - 1;
      PricesFor(us[..n], s) + (if us[n].symbol == s then [us[n].price] else [])
  }

  /**
   * What a snapshot says about one symbol `s`, given the prices `ps` seen for
   * it so far: the symbol is present exactly when a price was seen, and its
   * item then holds the last price seen and, as previous price, the one seen
   * just before that (none when only one was seen).
   */
  ghost predicate Tracks(snap: Snapshot, s: string, ps: seq<real>)
  {
    && (s in snap.items <==> ps != [])
    && (s in snap.items ==>
      && snap.items[s].symbol == s
      && snap.items[s].price == ps[|ps| - 1]
      && snap.items[s].previousPrice == if |ps| >= 2 then Some(ps[|ps| - 2]) else None)
  }

  /** One fold step keeps a symbol tracked, its prices growing by the update's price when it names the symbol. */
  lemma FoldItem(prev: Snapshot, u: PriceUpdate, s: string, before: seq<real>)
    requires prev.Valid()
    requires Tracks(prev, s, before)
    ensures Tracks(Fold(prev, u), s, before + (if u.symbol == s then [u.price] else []))
  {
    if u.symbol == s {
      var ps := before + [u.price];
      if s in prev.items {
        assert ps[|ps| - 2] == before[|before| - 1];
      } else {
        assert |ps| == 1;
      }
    } else {
      assert before + [] == before;
    }
  }

  /**
   * For one symbol: it is in the latest snapshot exactly when some update
   * carried it; its item then holds the last price seen for it, and as previous
   * price the one seen just before that (none when it was seen once).
   */
  lemma {:induction false} LatestItem(us: seq<PriceUpdate>, s: string)
    ensures s in Latest(us).items <==> PricesFor(us, s) != []
    ensures s in Latest(us).items ==>
      var ps := PricesFor(us, s);
      && Latest(us).items[s].symbol == s
      && Latest(us).items[s].price == ps[|ps| - 1]
      && Latest(us).items[s].previousPrice == if |ps| >= 2 then Some(ps[|ps| - 2]) else None
  {
    assert Tracks(Latest(us), s, PricesFor(us, s)) by {
      if us != [] {
        var n := |us| - 1;
        var prev, before := Latest(us[..n]), PricesFor(us[..n], s);
        LatestItem(us[..n], s);
        assert s in prev.items <==> before != [];
        assert s in prev.items ==> prev.items[s].symbol == s;
        assert s in prev.items ==> prev.items[s].price == before[|before| - 1];
        assert s in prev.items ==> prev.items[s].previousPrice == if |before| >= 2 then Some(before[|before| - 2]) else None;
        FoldItem(prev, us[n], s, before);
      }
    }
  }

  /**
   * The latest snapshot holds exactly the symbols seen, so its size is the
   * number of distinct symbols seen, never more.
   */
  lemma LatestKeys(us: seq<PriceUpdate>)
    ensures Latest(us).items.Keys == SymbolsOf(us)
    ensures |Latest(us).items| == |SymbolsOf(us)|
  {
    forall s ensures s in Latest(us).items <==> s in SymbolsOf(us) {
      LatestItem(us, s);
      PricesForSeen(us, s);
    }
  }

  /** A symbol has prices in a run exactly when some update of the run carries it. */
  lemma {:induction false} PricesForSeen(us: seq<PriceUpdate>, s: string)
    ensures PricesFor(us, s) != [] <==> s in SymbolsOf(us)
  {
    if us != [] {
      var n := |us| - 1;
      PricesForSeen(us[..n], s);
      if s in SymbolsOf(us) && us[n].symbol != s {
        var i :| 0 <= i < |us| && us[i].symbol == s;
        assert us[..n][i].symbol == s;
      }
    }
  }

  /** Folding a symbol at 100 and then at 110 gives an item at 110 whose previous price is 100. */
  lemma PreviousPriceTracked(s: string)
    ensures Latest([PriceUpdate(s, 100.0), PriceUpdate(s, 110.0)]).items[s] == PriceItem(s, 110.0, Some(100.0))
  {
    var us := [PriceUpdate(s, 100.0), PriceUpdate(s, 110.0)];
    assert Scan(us)[1] == Fold(Empty(), us[0]);
  }
}
