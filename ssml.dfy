/**
  The speech-markup wrapper of `AskDeepseekIntentHandler.format_response`:
  every answer of the question handler is spoken by one fixed named voice.
 */
module Ssml {

  import opened Options

  const Open: string := "<speak><voice name=\"Joanna\">"
  const Close: string := "</voice></speak>"

  /** `format_response(text)`: `text` between the voice opening and closing tags. */
  function FormatResponse(text: string): (r: string)
    ensures |r| == |Open| + |text| + |Close|
    ensures r[..|Open|] == Open
    ensures r[|Open|..|Open| + |text|] == text
    ensures r[|Open| + |text|..] == Close
  {
    Open + text + Close
  }

  /** The inverse of FormatResponse: the text inside the voice tags, if `markup` has them. */
  function Unwrap(markup: string): (r: Option<string>)
    ensures r.Some? <==> |Open| + |Close| <= |markup| && markup[..|Open|] == Open && markup[|markup| - |Close|..] == Close
    ensures r.Some? ==> FormatResponse(r.value) == markup
  {
    if |Open| + |Close| <= |markup| && markup[..|Open|] == Open && markup[|markup| - |Close|..] == Close then
      var inner := markup[|Open|..|markup| - |Close|];
      assert markup == markup[..|Open|] + inner + markup[|markup| - |Close|..];
      Some(inner)
    else
      None
  }

  /** Removing the voice tags from a formatted response gives back the text. */
  lemma UnwrapFormat(text: string)
    ensures Unwrap(FormatResponse(text)) == Some(text)
  {
  }

  /** Two different texts are never spoken as the same markup. */
  lemma FormatInjective(a: string, b: string)
    requires FormatResponse(a) == FormatResponse(b)
    ensures a == b
  {
  }

}
