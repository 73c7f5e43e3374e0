/**
 * The text protocol of the price socket: one frame per update, written
 * "SYMBOL;PRICE". The sender formats a price as a dot-radix decimal; the
 * listener splits a received frame on every ';', keeps it only when there are
 * exactly two parts and the second one reads as a number, and silently drops
 * every other frame.
 */
module WireCodec {
  import opened Wrappers

  const Separator: char := ';'

  /** A decoded frame: the update handed to the aggregation stage. */
  datatype PriceUpdate = PriceUpdate(symbol: string, price: real)

  // ---------------------------------------------------------------------------
  // Splitting on the separator
  // ---------------------------------------------------------------------------

  function SeparatorCount(s: string): nat
  {
    if s == [] then 0 else (if s[0] == Separator then 1 else 0) + SeparatorCount(s[1..])
  }

  /** The parts put back together with one separator between neighbours. */
  function Join(parts: seq<string>): string
    requires |parts| >= 1
  {
    if |parts| == 1 then parts[0] else parts[0] + [Separator] + Join(parts[1..])
  }

  /**
   * Splitting on EVERY separator, keeping empty parts wherever they occur
   * (leading, trailing or between two separators), as a string split without
   * a limit does. There is one part more than there are separators, no part
   * holds a separator, and joining the parts gives the text back.
   */
  function Split(s: string): (parts: seq<string>)
    ensures |parts| == SeparatorCount(s) + 1
    ensures forall i :: 0 <= i < |parts| ==> Separator !in parts[i]
    ensures Join(parts) == s
  {
    if s == [] then [""]
    else
      var rest := Split(s[1..]);
      if s[0] == Separator then [""] + rest
      else [[s[0]] + rest[0]] + rest[1..]
  }

  /** A text without separators is a single part. */
  lemma {:induction false} SplitNoSeparator(s: string)
    requires Separator !in s
    ensures Split(s) == [s]
  {
    if s != [] {
      assert Separator !in s[1..];
      SplitNoSeparator(s[1..]);
    }
  }

  /** A separator-free prefix is glued to the first part of what follows it. */
  lemma {:induction false} SplitPrefix(a: string, rest: string)
    requires Separator !in a
    ensures Split(a + rest) == [a + Split(rest)[0]] + Split(rest)[1..]
  {
    if a != [] {
      assert (a + rest)[1..] == a[1..] + rest;
      assert Separator !in a[1..];
      SplitPrefix(a[1..], rest);
      assert [a[0]] + (a[1..] + Split(rest)[0]) == a + Split(rest)[0];
    } else {
      var p := Split(rest);
      assert a + rest == rest;
      assert a + p[0] == p[0];
      assert p == [p[0]] + p[1..];
    }
  }

  /** Splitting is the inverse of joining separator-free parts. */
  lemma {:induction false} SplitJoin(parts: seq<string>)
    requires |parts| >= 1
    requires forall i :: 0 <= i < |parts| ==> Separator !in parts[i]
    ensures Split(Join(parts)) == parts
  {
    if |parts| == 1 {
      SplitNoSeparator(parts[0]);
    } else {
      var tail := Join(parts[1..]);
      SplitJoin(parts[1..]);
      assert parts[0] + [Separator] + tail == parts[0] + ([Separator] + tail);
      SplitPrefix(parts[0], [Separator] + tail);
      assert ([Separator] + tail)[1..] == tail;
      assert Split([Separator] + tail) == [""] + parts[1..];
      assert parts[0] + "" == parts[0];
      assert [parts[0]] + parts[1..] == parts;
    }
  }

  // ---------------------------------------------------------------------------
  // Decimal numbers as text
  // ---------------------------------------------------------------------------

  type Digit = d: int | 0 <= d <= 9

  predicate IsDigit(c: char)
  {
    '0' <= c <= '9'
  }

  predicate AllDigits(s: string)
  {
    forall i :: 0 <= i < |s| ==> IsDigit(s[i])
  }

  function DigitChar(d: Digit): (c: char)
    ensures IsDigit(c)
  {
    (d + '0' as int) as char
  }

  function DigitsOf(s: string): (ds: seq<Digit>)
    requires AllDigits(s)
    ensures |ds| == |s|
  {
    seq(|s|, i requires 0 <= i < |s| => (s[i] as int - '0' as int) as Digit)
  }

  function CharsOf(ds: seq<Digit>): (s: string)
    ensures |s| == |ds| && AllDigits(s)
    ensures DigitsOf(s) == ds
  {
    seq(|ds|, i requires 0 <= i < |ds| => DigitChar(ds[i]))
  }

  /** The whole number a digit sequence denotes, most significant digit first. */
  function Number(ds: seq<Digit>): nat
  {
    if ds == [] then 0 else Number(ds[..|ds| - 1]) * 10 + ds[|ds| - 1]
  }

  /** The value of fraction digits read after a decimal point: 0.d1 d2 d3 ... */
  function Fraction(ds: seq<Digit>): real
  {
    if ds == [] then 0.0 else (ds[0] as real + Fraction(ds[1..])) / 10.0
  }

  /** The shortest digit sequence of a whole number ("0" for zero). */
  function NatDigits(n: nat): (ds: seq<Digit>)
    ensures |ds| >= 1
    ensures Number(ds) == n
  {
    if n < 10 then [n]
    else
      var ds := NatDigits(n / 10) + [n % 10];
      assert ds[..|ds| - 1] == NatDigits(n / 10);
      ds
  }

  /**
   * A price as the sender prints it: an optional minus sign, the whole part
   * and the digits after the point. A price with no fraction digits is printed
   * with a single "0" after the point ("100.0"), as a double is.
   */
  datatype Decimal = Decimal(negative: bool, whole: nat, fraction: seq<Digit>)

  /** The number a decimal stands for. */
  function Value(d: Decimal): real
  {
    var magnitude := d.whole as real + Fraction(d.fraction);
    if d.negative then -magnitude else magnitude
  }

  /** The digits after the point as printed: never empty. */
  function ShownFraction(d: Decimal): (ds: seq<Digit>)
    ensures ds != [] && Fraction(ds) == Fraction(d.fraction)
  {
    if d.fraction == [] then
      assert Fraction([0]) == (0 as real + Fraction([])) / 10.0;
      [0]
    else d.fraction
  }

  /** The printed text without its sign. */
  function Magnitude(d: Decimal): string
  {
    CharsOf(NatDigits(d.whole)) + "." + CharsOf(ShownFraction(d))
  }

  /**
   * The printed price: the magnitude, with a leading minus sign when negative.
   * The number reading gives back exactly the decimal's value, and the text
   * never holds the separator, so it always stays one part of a frame.
   */
  function Format(d: Decimal): (r: string)
    ensures ParseNumber(r) == Some(Value(d))
    ensures Separator !in r
  {
    var m := Magnitude(d);
    ParseMagnitude(d);
    ParseSigned(m);
    var r := if d.negative then "-" + m else m;
    NumberHasNoSeparator(r);
    r
  }

  /** Text starting with a digit reads as itself unsigned, and with a minus sign in front as its negation. */
  lemma ParseSigned(m: string)
    requires m != [] && IsDigit(m[0])
    ensures ParseNumber(m) == ParseUnsigned(m)
    ensures ParseUnsigned(m).Some? ==> ParseNumber("-" + m) == Some(-ParseUnsigned(m).value)
  {
    assert ("-" + m)[1..] == m;
  }

  /** Text the number reading accepts never holds the separator. */
  lemma NumberHasNoSeparator(s: string)
    requires ParseNumber(s).Some?
    ensures Separator !in s
  {
    assert forall i :: 0 <= i < |s| ==> IsNumberChar(s[i]);
  }

  /** The length of the run of digits at the start of a text. */
  function LeadingDigits(s: string): (n: nat)
    ensures n <= |s| && AllDigits(s[..n])
    ensures n < |s| ==> !IsDigit(s[n])
  {
    if s == [] || !IsDigit(s[0]) then 0 else 1 + LeadingDigits(s[1..])
  }

  predicate IsNumberChar(c: char)
  {
    IsDigit(c) || c == '.' || c == '+' || c == '-'
  }

  /**
   * Digits with an optional point: "12", "12.", "12.5" or ".5". At least one
   * digit is needed, so the empty text and a lone "." are refused.
   */
  function ParseUnsigned(s: string): (r: Option<real>)
    ensures r.Some? ==> s != [] && r.value >= 0.0
    ensures r.Some? ==> forall i :: 0 <= i < |s| ==> IsDigit(s[i]) || s[i] == '.'
  {
    var n := LeadingDigits(s);
    if n == |s| then
      if n == 0 then None else Some(Number(DigitsOf(s)) as real)
    else if s[n] != '.' || !AllDigits(s[n + 1..]) || (n == 0 && n + 1 == |s|) then None
    else
      FractionNonNegative(DigitsOf(s[n + 1..]));
      assert forall i :: n + 1 <= i < |s| ==> s[n + 1..][i - n - 1] == s[i];
      Some(Number(DigitsOf(s[..n])) as real + Fraction(DigitsOf(s[n + 1..])))
  }

  /**
   * The number reading of the price part: an optional sign followed by an
   * unsigned decimal. Whatever it refuses makes the frame be dropped.
   */
  function ParseNumber(s: string): (r: Option<real>)
    ensures r.Some? ==> s != [] && forall i :: 0 <= i < |s| ==> IsNumberChar(s[i])
  {
    if s != [] && (s[0] == '-' || s[0] == '+') then
      match ParseUnsigned(s[1..])
      case None => None
      case Some(v) =>
        assert forall i :: 1 <= i < |s| ==> s[1..][i - 1] == s[i];
        Some(if s[0] == '-' then -v else v)
    else
      ParseUnsigned(s)
  }

  lemma {:induction false} FractionNonNegative(ds: seq<Digit>)
    ensures 0.0 <= Fraction(ds)
  {
    if ds != [] {
      FractionNonNegative(ds[1..]);
    }
  }

  /** A run of digits followed by a non-digit is measured up to that non-digit. */
  lemma {:induction false} LeadingDigitsOfPrefix(w: string, rest: string)
    requires AllDigits(w)
    requires rest != [] && !IsDigit(rest[0])
    ensures LeadingDigits(w + rest) == |w|
  {
    if w != [] {
      assert (w + rest)[1..] == w[1..] + rest;
      LeadingDigitsOfPrefix(w[1..], rest);
    }
  }

  /** Digits, a point and digits read as the whole part plus the fraction. */
  lemma ParseUnsignedWithPoint(w: string, f: string)
    requires AllDigits(w) && w != []
    requires AllDigits(f)
    ensures ParseUnsigned(w + "." + f) == Some(Number(DigitsOf(w)) as real + Fraction(DigitsOf(f)))
  {
    var u := w + "." + f;
    assert u == w + ("." + f);
    LeadingDigitsOfPrefix(w, "." + f);
    assert u[..|w|] == w;
    assert u[|w| + 1..] == f;
  }

  lemma ParseMagnitude(d: Decimal)
    ensures ParseUnsigned(Magnitude(d)) == Some(d.whole as real + Fraction(d.fraction))
    ensures IsDigit(Magnitude(d)[0])
  {
    ParseUnsignedWithPoint(CharsOf(NatDigits(d.whole)), CharsOf(ShownFraction(d)));
  }

  // ---------------------------------------------------------------------------
  // Frames
  // ---------------------------------------------------------------------------

  /**
   * The frame the sender writes for one generated price. Decoding it gives
   * back the symbol and the price's value whenever the symbol is free of the
   * separator.
   */
  function Encode(symbol: string, price: Decimal): (frame: string)
    ensures Separator !in symbol ==> Decode(frame) == Some(PriceUpdate(symbol, Value(price)))
  {
    if Separator !in symbol then
      DecodeOneSeparator(symbol, Format(price));
      symbol + [Separator] + Format(price)
    else
      symbol + [Separator] + Format(price)
  }

  /** The listener's reading of one text frame; `None` means the frame is dropped. */
  function Decode(text: string): (r: Option<PriceUpdate>)
    ensures r.Some? ==> SeparatorCount(text) == 1
    ensures r.Some? ==> r.value.symbol + [Separator] + Split(text)[1] == text
  {
    var parts := Split(text);
    if |parts| == 2 then
      match ParseNumber(parts[1])
      case Some(p) =>
        assert Join(parts) == parts[0] + [Separator] + Join(parts[1..]);
        Some(PriceUpdate(parts[0], p))
      case None => None
    else None
  }

  /** A frame with no separator, or with two or more, is dropped. */
  lemma DecodeNeedsOneSeparator(text: string)
    requires SeparatorCount(text) != 1
    ensures Decode(text) == None
  {
  }

  /**
   * A frame with exactly one separator: the symbol is the text before it,
   * taken as it is (even when empty), and the frame is kept exactly when the
   * text after it reads as a number.
   */
  lemma DecodeOneSeparator(symbol: string, number: string)
    requires Separator !in symbol && Separator !in number
    ensures Decode(symbol + [Separator] + number) ==
      match ParseNumber(number)
      case Some(p) => Some(PriceUpdate(symbol, p))
      case None => None
  {
    SplitJoin([symbol, number]);
    assert Join([number]) == number;
  }

  /** An empty symbol is not refused: ";100" is the update ("", 100). */
  lemma DecodeEmptySymbol()
    ensures Decode(";100") == Some(PriceUpdate("", 100.0))
  {
    DecodeOneSeparator("", "100");
    assert "" + [Separator] + "100" == ";100";
    assert LeadingDigits("100") == 3;
    assert DigitsOf("100") == [1, 0, 0];
    assert [1, 0, 0][..2] == [1, 0] && [1, 0][..1] == [1] && [1][..0] == [];
    assert Number([1]) == 1;
    assert Number([1, 0]) == 10;
    assert Number([1, 0, 0]) == 100;
    assert ParseNumber("100") == Some(100.0);
  }

  /** An empty price part is dropped. */
  lemma DecodeEmptyPrice()
    ensures Decode("AAPL;") == None
  {
    DecodeOneSeparator("AAPL", "");
    assert "AAPL" + [Separator] + "" == "AAPL;";
  }

  /** A price part that is not a number is dropped, not reported. */
  lemma DecodeNotANumber()
    ensures Decode("AAPL;notanumber") == None
  {
    DecodeOneSeparator("AAPL", "notanumber");
    assert "AAPL" + [Separator] + "notanumber" == "AAPL;notanumber";
    assert LeadingDigits("notanumber") == 0;
  }

  /** Frames with no separator or with two separators are dropped. */
  lemma DecodeWrongPartCount()
    ensures Decode("AAPL") == None
    ensures Decode("AAPL;1;2") == None
  {
    assert SeparatorCount("AAPL") == 0;
    assert SeparatorCount("AAPL;1;2") == 2;
  }

  // ---------------------------------------------------------------------------
  // The listener over a run of frames
  // ---------------------------------------------------------------------------

  /** The updates the listener forwards for a run of received frames, in arrival order. */
  function Received(frames: seq<string>): (us: seq<PriceUpdate>)
    ensures |us| <= |frames|
  {
    if frames == [] then []
    else
      var kept := Received(frames[..|frames| - 1]);
      match Decode(frames[|frames| - 1])
      case Some(u) => kept + [u]
      case None => kept
  }

  /** A price the sender generated for one symbol, with the decimal it prints. */
  datatype Quote = Quote(symbol: string, price: Decimal)

  /** The frames the sender writes for a run of quotes. */
  function Frames(qs: seq<Quote>): (frames: seq<string>)
    ensures |frames| == |qs|
  {
    if qs == [] then [] else Frames(qs[..|qs| - 1]) + [Encode(qs[|qs| - 1].symbol, qs[|qs| - 1].price)]
  }

  /** The updates those quotes stand for. */
  function Updates(qs: seq<Quote>): (us: seq<PriceUpdate>)
    ensures |us| == |qs|
  {
    if qs == [] then [] else Updates(qs[..|qs| - 1]) + [PriceUpdate(qs[|qs| - 1].symbol, Value(qs[|qs| - 1].price))]
  }

  /**
   * Over an echoing endpoint the listener gets back exactly the updates the
   * sender wrote, in order, as long as no symbol holds the separator.
   */
  lemma {:induction false} EchoRoundTrip(qs: seq<Quote>)
    requires forall i :: 0 <= i < |qs| ==> Separator !in qs[i].symbol
    ensures Received(Frames(qs)) == Updates(qs)
  {
    if qs != [] {
      var n := |qs| - 1;
      var frames := Frames(qs);
      var u := PriceUpdate(qs[n].symbol, Value(qs[n].price));
      assert frames == Frames(qs[..n]) + [Encode(qs[n].symbol, qs[n].price)];
      assert frames[..n] == Frames(qs[..n]);
      assert Decode(frames[n]) == Some(u);
      assert Received(frames) == Received(frames[..n]) + [u];
      EchoRoundTrip(qs[..n]);
      assert Updates(qs) == Updates(qs[..n]) + [u];
    }
  }
}
