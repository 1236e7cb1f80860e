/** Splitting text into search terms, in the two ways the program has. */
module Tokens {

  /** The words that are too common to search for, in order. */
  const STOPWORDS: seq<string> := [
    "a", "an", "and", "are", "as", "at", "be", "by", "did", "do", "does", "for", "from", "had",
    "has", "have", "how", "i", "in", "is", "it", "of", "on", "or", "that", "the", "their", "then",
    "there", "to", "was", "were", "what", "when", "where", "which", "who", "why", "with", "you",
    "your"
  ]

  predicate IsLowerAlnum(c: char) { 'a' <= c <= 'z' || '0' <= c <= '9' }

  predicate IsAsciiAlnum(c: char) { IsLowerAlnum(c) || 'A' <= c <= 'Z' }

  /** The pieces between separators, empty ones included. */
  function Split(keep: char -> bool, text: string): (r: seq<string>)
    ensures r != []
  {
    if text == [] then [""]
    else
      var rest := Split(keep, text[1..]);
      if keep(text[0]) then [[text[0]] + rest[0]] + rest[1..] else [""] + rest
  }

  function NonEmpty(pieces: seq<string>): (r: seq<string>)
    ensures forall p :: p in r ==> p != ""
  {
    if pieces == [] then [] else (if pieces[0] != "" then [pieces[0]] else []) + NonEmpty(pieces[1..])
  }

  function WithoutStopwords(words: seq<string>): (r: seq<string>)
    ensures forall w :: w in r ==> w in words && w !in STOPWORDS
  {
    if words == [] then []
    else (if words[0] !in STOPWORDS then [words[0]] else []) + WithoutStopwords(words[1..])
  }

  /** Splits at everything that is not alphanumeric; `lower` is the library's lower-casing. */
  function Tokenize(lower: string -> string, text: string): seq<string> {
    WithoutStopwords(NonEmpty(Split(IsAsciiAlnum, lower(text))))
  }

  // ---------- the pattern-matching twin ----------

  /** The length of the run of matching characters at the front. */
  function Run(text: string): (n: nat)
    ensures n <= |text|
    ensures n < |text| ==> !IsLowerAlnum(text[n])
    ensures forall i :: 0 <= i < n ==> IsLowerAlnum(text[i])
  {
    if text != [] && IsLowerAlnum(text[0]) then 1 + Run(text[1..]) else 0
  }

  /** All longest runs of lower-case letters and digits, found from left to right. */
  function FindAll(text: string): seq<string>
    decreases |text|
  {
    if text == [] then []
    else if Run(text) == 0 then FindAll(text[1..])
    else [text[..Run(text)]] + FindAll(text[Run(text)..])
  }

  function TokenizeByPattern(lower: string -> string, text: string): seq<string> {
    WithoutStopwords(FindAll(lower(text)))
  }

  predicate HasNoUpper(text: string) {
    forall i :: 0 <= i < |text| ==> !('A' <= text[i] <= 'Z')
  }

  /** What the splitter makes of one more character in front. */
  lemma SplitOneMore(text: string)
    requires text != []
    ensures var pieces, rest := Split(IsAsciiAlnum, text), Split(IsAsciiAlnum, text[1..]);
      if IsAsciiAlnum(text[0]) then |pieces| == |rest| && pieces[0] == [text[0]] + rest[0] && pieces[1..] == rest[1..]
      else pieces[0] == "" && pieces[1..] == rest
  {
  }

  /** What the splitter makes of the characters up to the end of the first run. */
  lemma {:induction false} SplitAtRun(text: string)
    requires HasNoUpper(text)
    ensures Split(IsAsciiAlnum, text)[0] == text[..Run(text)]
    ensures Run(text) == |text| ==> Split(IsAsciiAlnum, text) == [text]
    ensures Run(text) < |text| ==> Split(IsAsciiAlnum, text)[1..] == Split(IsAsciiAlnum, text[Run(text) + 1..])
    decreases |text|
  {
    if text == [] {
      assert Split(IsAsciiAlnum, text) == [""];
    } else {
      assert HasNoUpper(text[1..]);
      SplitAtRun(text[1..]);
      SplitOneMore(text);
      if IsLowerAlnum(text[0]) {
        var n := Run(text[1..]);
        hide Split;
        OneMoreInRun(text, n, Split(IsAsciiAlnum, text), Split(IsAsciiAlnum, text[1..]));
        if n < |text| - 1 { assert text[1..][n + 1..] == text[1 + n + 1..]; }
      } else {
        assert Run(text) == 0 && text[0 + 1..] == text[1..] && text[..0] == "";
      }
    }
  }

  lemma OneMoreInRun(text: string, n: nat, pieces: seq<string>, rest: seq<string>)
    requires n < |text| && |pieces| == |rest| > 0 && pieces[0] == [text[0]] + rest[0] && pieces[1..] == rest[1..]
    requires rest[0] == text[1..][..n] && (n == |text| - 1 ==> rest == [text[1..]])
    ensures pieces[0] == text[..1 + n] && (n == |text| - 1 ==> pieces == [text])
  {
    assert text == [text[0]] + text[1..];
  }

  /** Both ways find the same words in a text without capitals. */
  lemma {:induction false} SplitFindsRuns(text: string)
    requires HasNoUpper(text)
    ensures NonEmpty(Split(IsAsciiAlnum, text)) == FindAll(text)
    decreases |text|
  {
    if text != [] {
      var n := Run(text);
      SplitAtRun(text);
      var pieces := Split(IsAsciiAlnum, text);
      if n < |text| {
        assert HasNoUpper(text[n + 1..]);
        SplitFindsRuns(text[n + 1..]);
        assert FindAll(text[n..]) == FindAll(text[n + 1..]) by {
          assert text[n..][1..] == text[n + 1..];
        }
      } else {
        assert text[..n] == text && text[n..] == [];
      }
    }
  }

  lemma TokenizersAgree(lower: string -> string, text: string)
    requires HasNoUpper(lower(text))
    ensures Tokenize(lower, text) == TokenizeByPattern(lower, text)
  {
    SplitFindsRuns(lower(text));
  }

  // ---------- what is found ----------

  predicate IsWord(w: string) {
    w != "" && forall i :: 0 <= i < |w| ==> IsLowerAlnum(w[i])
  }

  /** The words, each followed by one separator. */
  function Written(words: seq<string>, separator: char): string {
    if words == [] then "" else words[0] + [separator] + Written(words[1..], separator)
  }

  lemma {:induction false} RunOfWord(w: string, separator: char, rest: string)
    requires !IsLowerAlnum(separator) && forall i :: 0 <= i < |w| ==> IsLowerAlnum(w[i])
    ensures Run(w + [separator] + rest) == |w|
    decreases |w|
  {
    var text := w + [separator] + rest;
    if w != "" {
      assert text[1..] == w[1..] + [separator] + rest;
      RunOfWord(w[1..], separator, rest);
    } else {
      assert text[0] == separator;
    }
  }

  lemma FirstWordIsFound(w: string, separator: char, rest: string)
    requires IsWord(w) && !IsLowerAlnum(separator)
    ensures FindAll(w + [separator] + rest) == [w] + FindAll(rest)
  {
    var text := w + [separator] + rest;
    RunOfWord(w, separator, rest);
    SeparatorIsPassed(separator, rest);
    assert text[..|w|] == w && text[|w|..] == [separator] + rest;
    hide IsLowerAlnum, Run;
  }

  lemma NoUpperInWord(w: string, separator: char, rest: string)
    requires IsWord(w) && !IsAsciiAlnum(separator) && HasNoUpper(rest)
    ensures HasNoUpper(w + [separator] + rest)
  {
    var text := w + [separator] + rest;
    forall i | 0 <= i < |text| ensures !('A' <= text[i] <= 'Z') {
      if i < |w| { assert text[i] == w[i]; } else if i > |w| { assert text[i] == rest[i - |w| - 1]; }
    }
  }

  /** Every word of a text is found, in order and as often as it occurs. */
  lemma {:induction false} WordsAreFound(words: seq<string>, separator: char)
    requires !IsAsciiAlnum(separator) && forall w :: w in words ==> IsWord(w)
    ensures FindAll(Written(words, separator)) == words
    ensures HasNoUpper(Written(words, separator))
    decreases |words|
  {
    if words != [] {
      assert !IsLowerAlnum(separator);
      hide IsWord, FindAll, HasNoUpper, IsAsciiAlnum;
      var w, rest := words[0], Written(words[1..], separator);
      WordsAreFound(words[1..], separator);
      FirstWordIsFound(w, separator, rest);
      NoUpperInWord(w, separator, rest);
    }
  }

  lemma SeparatorIsPassed(separator: char, rest: string)
    requires !IsLowerAlnum(separator)
    ensures FindAll([separator] + rest) == FindAll(rest)
  {
    var text := [separator] + rest;
    assert text[0] == separator && text[1..] == rest;
  }

  /** Both tokenizers find the words of a text but for the stop words, in order. */
  lemma TokensAreTheWords(lower: string -> string, words: seq<string>, separator: char)
    requires !IsAsciiAlnum(separator) && (forall w :: w in words ==> IsWord(w))
    requires lower(Written(words, separator)) == Written(words, separator)
    ensures Tokenize(lower, Written(words, separator)) == WithoutStopwords(words)
    ensures (forall w :: w in words ==> w !in STOPWORDS) ==> WithoutStopwords(words) == words
    ensures forall w :: w in words && w !in STOPWORDS ==> w in WithoutStopwords(words)
  {
    WordsAreFound(words, separator);
    TokenizersAgree(lower, Written(words, separator));
    OthersStay(words);
  }

  lemma {:induction false} OthersStay(words: seq<string>)
    ensures (forall w :: w in words ==> w !in STOPWORDS) ==> WithoutStopwords(words) == words
    ensures forall w :: w in words && w !in STOPWORDS ==> w in WithoutStopwords(words)
    decreases |words|
  {
    hide STOPWORDS;
    if words != [] { OthersStay(words[1..]); }
  }
}
