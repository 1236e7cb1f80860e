/**
 The two character tests that decide which facts are kept and which can be embedded. They differ:
 a zero-width space is not white space, yet it is not visible either.
 */
module Text {

  /** Unicode White_Space. */
  predicate IsWhitespace(c: char) {
    || '\U{0009}' <= c <= '\U{000D}' || c == ' ' || c == '\U{0085}' || c == '\U{00A0}' || c == '\U{1680}'
    || '\U{2000}' <= c <= '\U{200A}' || c == '\U{2028}' || c == '\U{2029}' || c == '\U{202F}'
    || c == '\U{205F}' || c == '\U{3000}'
  }

  predicate IsControl(c: char) {
    c <= '\U{001F}' || '\U{007F}' <= c <= '\U{009F}'
  }

  predicate IsVisible(c: char) {
    !IsWhitespace(c) && !IsControl(c) && c != '\U{200B}'
  }

  /** Nothing is left after trimming. */
  predicate IsBlank(s: string) {
    forall i :: 0 <= i < |s| ==> IsWhitespace(s[i])
  }

  predicate IsEmbeddable(s: string) {
    exists i :: 0 <= i < |s| && IsVisible(s[i])
  }

  /** The texts that can be embedded, in order. */
  function Embeddable(texts: seq<string>): seq<string> {
    if texts == [] then []
    else (if IsEmbeddable(texts[0]) then [texts[0]] else []) + Embeddable(texts[1..])
  }

  predicate AllEmbeddable(texts: seq<string>) {
    forall i :: 0 <= i < |texts| ==> IsEmbeddable(texts[i])
  }

  lemma {:induction false} EmbeddableCounts(texts: seq<string>)
    ensures |Embeddable(texts)| <= |texts|
    ensures |Embeddable(texts)| == |texts| <==> AllEmbeddable(texts)
    ensures AllEmbeddable(texts) ==> Embeddable(texts) == texts
    decreases |texts|
  {
    if texts != [] {
      EmbeddableCounts(texts[1..]);
      if AllEmbeddable(texts) {
        assert AllEmbeddable(texts[1..]);
      }
      if AllEmbeddable(texts[1..]) && IsEmbeddable(texts[0]) {
        forall i | 0 <= i < |texts| ensures IsEmbeddable(texts[i]) {
          if i > 0 { assert texts[i] == texts[1..][i - 1]; }
        }
      }
    }
  }

  /**
   The two tests disagree exactly on texts with something besides white space of which nothing can be
   seen: control characters and zero-width spaces.
   */
  lemma KeptButNotSeen(s: string)
    ensures IsEmbeddable(s) ==> !IsBlank(s)
    ensures !IsBlank(s) && !IsEmbeddable(s) <==>
      && (forall i :: 0 <= i < |s| ==> IsWhitespace(s[i]) || IsControl(s[i]) || s[i] == '\U{200B}')
      && (exists i :: 0 <= i < |s| && !IsWhitespace(s[i]))
  {
  }
}
