/** Swapchain format selection (rlxrChooseSwapchainFormat): pick the preferred format
    when the runtime lists it, otherwise -1 or the runtime's first format. */
module Swapchain {

  /** What the two xrEnumerateSwapchainFormats calls (count, then fill) yield: a failure
      of either one, or the runtime's format list in its order of preference. */
  datatype FormatEnumeration = EnumerationFailed | Enumerated(formats: seq<int>)

  /** The C code reads `formats[0]` unguarded when `fallback` is false, so that case
      needs at least one listed format. */
  predicate Selectable(fallback: bool, e: FormatEnumeration) {
    e.Enumerated? && !fallback ==> |e.formats| > 0
  }

  /** The format rlxrChooseSwapchainFormat returns. */
  function SelectedFormat(preferred: int, fallback: bool, e: FormatEnumeration): (r: int)
    requires Selectable(fallback, e)
    ensures e.EnumerationFailed? ==> r == -1
    ensures e.Enumerated? && preferred in e.formats ==> r == preferred
    ensures r != -1 ==> e.Enumerated? && r in e.formats
    ensures fallback ==> r == preferred || r == -1
    ensures e.Enumerated? && preferred !in e.formats && !fallback ==> r == e.formats[0]
  {
    match e
    case EnumerationFailed => -1
    case Enumerated(formats) =>
      if preferred in formats then preferred
      else if fallback then -1
      else formats[0]
  }

  /** The selection loop: start from the default (-1 or the first format) and take the
      preferred format whenever the list holds it. */
  method ChooseSwapchainFormat(preferred: int, fallback: bool, e: FormatEnumeration) returns (format: int)
    requires Selectable(fallback, e)
    ensures format == SelectedFormat(preferred, fallback, e)
  {
    if e.EnumerationFailed? {
      return -1;
    }
    var formats := e.formats;
    format := if fallback then -1 else formats[0];
    for i := 0 to |formats|
      invariant format == if preferred in formats[..i] then preferred
                          else if fallback then -1 else formats[0]
    {
      assert formats[..i + 1] == formats[..i] + [formats[i]];
      if formats[i] == preferred {
        format := preferred;
      }
    }
    assert formats[..|formats|] == formats;
  }
}
