/** White space around text, as Foundation's character sets have it. */
module Whitespace {

  /** `CharacterSet.whitespacesAndNewlines`. */
  predicate White(c: char) {
    '\t' <= c <= '\r' || c == ' ' || c == '\U{85}' || c == '\U{A0}' || c == '\U{1680}' || '\U{2000}' <= c <= '\U{200A}'
    || c == '\U{2028}' || c == '\U{2029}' || c == '\U{202F}' || c == '\U{205F}' || c == '\U{3000}'
  }

  /** `trimmingCharacters(in: .whitespacesAndNewlines)`. */
  function Trim(text: string): string {
    if text != "" && White(text[0]) then Trim(text[1..])
    else if text != "" && White(text[|text| - 1]) then Trim(text[..|text| - 1])
    else text
  }

  lemma {:induction false} TrimsToNothing(text: string)
    ensures Trim(text) == "" <==> forall i :: 0 <= i < |text| ==> White(text[i])
  {
    if text != "" {
      if White(text[0]) {
        TrimsToNothing(text[1..]);
        assert forall i :: 0 < i < |text| ==> text[i] == text[1..][i - 1];
      } else if White(text[|text| - 1]) {
        TrimsToNothing(text[..|text| - 1]);
        assert text[..|text| - 1][0] == text[0];
      }
    }
  }
}
