/** Splits a text into windows of at most `chunkSize` tokens. */
module Chunking {
  import opened Wrappers
  import opened Text

  /** The tokenizer; either direction may fail. */
  datatype Tokenizer = Tokenizer(encode: string -> Option<seq<int>>, decode: seq<int> -> Option<string>)

  /** Consecutive windows of `size`, the last of which may be shorter. */
  function Windows(ids: seq<int>, size: nat): (r: seq<seq<int>>)
    requires size > 0
    ensures forall w :: w in r ==> 1 <= |w| <= size
  {
    if ids == [] then []
    else if |ids| <= size then [ids]
    else [ids[..size]] + Windows(ids[size..], size)
  }

  function Joined(windows: seq<seq<int>>): seq<int> {
    if windows == [] then [] else windows[0] + Joined(windows[1..])
  }

  /** The windows are a partition of the tokens, in order. */
  lemma {:induction false} WindowsPartition(ids: seq<int>, size: nat)
    requires size > 0
    ensures Joined(Windows(ids, size)) == ids
    ensures |ids| > size ==> |Windows(ids, size)| >= 2
    decreases |ids|
  {
    if |ids| > size {
      WindowsPartition(ids[size..], size);
      assert Windows(ids, size)[1..] == Windows(ids[size..], size);
    }
  }

  /** All windows but the last are full. */
  lemma {:induction false} WindowsAreFull(ids: seq<int>, size: nat, i: nat)
    requires size > 0 && i + 1 < |Windows(ids, size)|
    ensures |Windows(ids, size)[i]| == size
    decreases i
  {
    if i > 0 {
      WindowsAreFull(ids[size..], size, i - 1);
      assert Windows(ids, size)[i] == Windows(ids[size..], size)[i - 1];
    }
  }

  /** What the windows decode to; a window that fails to decode or decodes to nothing is left out. */
  function Decoded(t: Tokenizer, windows: seq<seq<int>>): (r: seq<string>)
    ensures |r| <= |windows| && forall s :: s in r ==> s != ""
  {
    if windows == [] then []
    else
      var d := t.decode(windows[0]);
      (if d.Some? && d.value != "" then [d.value] else []) + Decoded(t, windows[1..])
  }

  lemma {:induction false} DecodedAppend(t: Tokenizer, windows: seq<seq<int>>, w: seq<int>)
    ensures Decoded(t, windows + [w]) == Decoded(t, windows) + Decoded(t, [w])
    decreases |windows|
  {
    if windows == [] {
      assert windows + [w] == [w];
    } else {
      assert (windows + [w])[1..] == windows[1..] + [w];
      DecodedAppend(t, windows[1..], w);
    }
  }

  lemma OneDecoded(t: Tokenizer, w: seq<int>)
    ensures Decoded(t, [w]) == if t.decode(w).Some? && t.decode(w).value != "" then [t.decode(w).value] else []
  {
    assert [w][1..] == [];
  }

  /** A text is split only if it has more tokens than a window and at least two windows decode to something. */
  function Chunks(t: Tokenizer, text: string, chunkSize: nat): (r: Option<seq<string>>)
    ensures r.Some? ==> |r.value| >= 2 && forall s :: s in r.value ==> s != ""
  {
    if chunkSize == 0 || IsBlank(text) || t.encode(text).None? || |t.encode(text).value| <= chunkSize then None
    else
      var decoded := Decoded(t, Windows(t.encode(text).value, chunkSize));
      if |decoded| <= 1 then None else Some(decoded)
  }

  method ChunkTextByTokens(t: Tokenizer, text: string, chunkSize: nat) returns (r: Option<seq<string>>)
    ensures r == Chunks(t, text, chunkSize)
  {
    if chunkSize == 0 || IsBlank(text) {
      return None;
    }
    var encoding := t.encode(text);
    if encoding.None? || |encoding.value| <= chunkSize {
      return None;
    }
    var windows := Windows(encoding.value, chunkSize);
    var chunks := [];
    hide Windows;
    for i := 0 to |windows|
      invariant chunks == Decoded(t, windows[..i])
    {
      DecodedAppend(t, windows[..i], windows[i]);
      assert windows[..i + 1] == windows[..i] + [windows[i]];
      OneDecoded(t, windows[i]);
      var d := t.decode(windows[i]);
      if d.Some? && d.value != "" {
        chunks := chunks + [d.value];
      }
    }
    assert windows[..|windows|] == windows;
    r := if |chunks| <= 1 then None else Some(chunks);
  }

  predicate AllDecode(t: Tokenizer, windows: seq<seq<int>>) {
    forall w :: w in windows ==> Decodes(t, w)
  }

  /** If every window decodes, nothing of a long text is lost. */
  lemma LongTextsAreSplit(t: Tokenizer, text: string, chunkSize: nat)
    requires chunkSize > 0 && !IsBlank(text) && t.encode(text).Some? && |t.encode(text).value| > chunkSize
    requires AllDecode(t, Windows(t.encode(text).value, chunkSize))
    ensures Chunks(t, text, chunkSize).Some?
    ensures var chunks, windows := Chunks(t, text, chunkSize).value, Windows(t.encode(text).value, chunkSize);
      |chunks| == |windows| && forall i :: 0 <= i < |windows| ==> t.decode(windows[i]) == Some(chunks[i])
  {
    WindowsPartition(t.encode(text).value, chunkSize);
    NoneIsLeftOut(t, Windows(t.encode(text).value, chunkSize));
  }

  lemma {:induction false} NoneIsLeftOut(t: Tokenizer, windows: seq<seq<int>>)
    requires AllDecode(t, windows)
    ensures var r := Decoded(t, windows);
      |r| == |windows| && forall i :: 0 <= i < |windows| ==> t.decode(windows[i]) == Some(r[i])
    decreases |windows|
  {
    if windows != [] {
      assert windows[0] in windows && forall w :: w in windows[1..] ==> w in windows;
      NoneIsLeftOut(t, windows[1..]);
      forall i | 0 < i < |windows| ensures t.decode(windows[i]) == Some(Decoded(t, windows)[i]) {
        assert windows[i] == windows[1..][i - 1];
      }
    }
  }

  /** A text is left whole exactly if it fits a window, cannot be split or leaves at most one piece that decodes. */
  lemma OtherTextsStayWhole(t: Tokenizer, text: string, chunkSize: nat)
    ensures Chunks(t, text, chunkSize).None? <==>
      || chunkSize == 0 || IsBlank(text) || t.encode(text).None?
      || |t.encode(text).value| <= chunkSize
      || CountDecoding(t, Windows(t.encode(text).value, chunkSize)) <= 1
  {
    if chunkSize > 0 && t.encode(text).Some? { DecodedCounts(t, Windows(t.encode(text).value, chunkSize)); }
  }

  predicate Decodes(t: Tokenizer, window: seq<int>) {
    t.decode(window).Some? && t.decode(window).value != ""
  }

  function DecodingPlaces(t: Tokenizer, windows: seq<seq<int>>): set<nat> {
    set i | 0 <= i < |windows| && Decodes(t, windows[i])
  }

  function CountDecoding(t: Tokenizer, windows: seq<seq<int>>): nat { |DecodingPlaces(t, windows)| }

  lemma {:induction false} DecodedCounts(t: Tokenizer, windows: seq<seq<int>>)
    ensures |Decoded(t, windows)| == CountDecoding(t, windows)
    decreases |windows|
  {
    if windows != [] {
      var last := |windows| - 1;
      DecodedCounts(t, windows[..last]);
      assert windows == windows[..last] + [windows[last]];
      DecodedAppend(t, windows[..last], windows[last]);
      OneDecoded(t, windows[last]);
      assert DecodingPlaces(t, windows)
          == DecodingPlaces(t, windows[..last]) + if Decodes(t, windows[last]) then {last} else {};
    }
  }
}
