/** The state the screen observes: connectivity, streaming flag, the presented list and the last error. */
module UiState {
  import opened Wrappers
  import opened Domain

  datatype PriceUiState = PriceUiState(
    isConnected: bool,
    isStreaming: bool,
    prices: seq<PriceItem>,
    errorMessage: Option<string>)

  /** The record built with every field at its default value. */
  function Initial(): (s: PriceUiState)
    ensures !s.isConnected && !s.isStreaming
    ensures s.prices == [] && s.errorMessage == None
  {
    PriceUiState(false, false, [], None)
  }
}
