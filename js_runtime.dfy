/**
 * The parts of the JavaScript runtime the configuration accessor relies on:
 * `Number()`, string truthiness, and `Boolean(JSON.parse(...))`.
 */
module JsRuntime {
  import opened Wrappers

  /**
   * What the model leaves to the host runtime, as total functions over strings.
   * `N` stands for the JavaScript number type, which is not modelled.
   *   number:     `Number(text)`; it never throws.
   *   parseValue: `Boolean(JSON.parse(text))` for a text whose first significant
   *               character can begin a JSON value; `None` when the parse throws.
   */
  datatype Host<N> = Host(number: string -> N, parseValue: string -> Option<bool>)

  /** The four whitespace characters of the JSON grammar (section 2 of RFC 8259). */
  predicate IsJsonWhitespace(c: char) {
    c == ' ' || c == '\t' || c == '\n' || c == '\r'
  }

  /** The characters a JSON value can begin with: object, array, string, number, true, false, null. */
  predicate CanStartJsonValue(c: char) {
    c == '{' || c == '[' || c == '"' || c == '-' || ('0' <= c <= '9') || c == 't' || c == 'f' || c == 'n'
  }

  /** The position of the first character of `text` that is not JSON whitespace, or `|text|` if none. */
  function FirstSignificant(text: string): (i: nat)
    ensures i <= |text|
    ensures forall j | 0 <= j < i :: IsJsonWhitespace(text[j])
    ensures i < |text| ==> !IsJsonWhitespace(text[i])
  {
    if text == [] || !IsJsonWhitespace(text[0]) then 0
    else 1 + FirstSignificant(text[1..])
  }

  /** Some character that can begin a JSON value is preceded in `text` by JSON whitespace only. */
  predicate StartsWithValue(text: string) {
    exists i | 0 <= i < |text| :: CanStartJsonValue(text[i]) && forall j | 0 <= j < i :: IsJsonWhitespace(text[j])
  }

  /**
   * `Boolean(JSON.parse(text))`, `None` standing for the thrown `SyntaxError`.
   * Only the first-character check of the JSON grammar is modelled: a text that is
   * all whitespace, or whose first significant character cannot begin a value, is
   * rejected; every other text is decided by the host.
   */
  function ParseBoolean<N>(text: string, host: Host<N>): (r: Option<bool>)
    ensures r == if StartsWithValue(text) then host.parseValue(text) else None
  {
    var i := FirstSignificant(text);
    if i == |text| || !CanStartJsonValue(text[i]) then None
    else host.parseValue(text)
  }

  /** A text that has no significant character, or whose first one cannot begin a JSON value, never parses. */
  lemma ParseBooleanRejects<N>(text: string, host: Host<N>)
    requires text == [] || (!IsJsonWhitespace(text[0]) && !CanStartJsonValue(text[0]))
    ensures ParseBoolean(text, host) == None
  {
  }

  /** JavaScript truthiness of a string: only the empty string is falsy. */
  predicate Truthy(s: string) {
    s != ""
  }
}
