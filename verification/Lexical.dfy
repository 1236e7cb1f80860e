/** The lexical scorer's loops, in the Rust core and in its Python twin, and the blend weights. */
module Lexical {
  import opened Vectors
  import opened Sequences
  import opened Tokens
  import opened Bm25

  /** The parts of a candidate the scorer reads. */
  datatype Document = Document(id: FactId, content: string)

  /** Library functions. */
  datatype Lib = Lib(lower: string -> string, ln: real -> real)

  // ---------- the pool as a whole ----------

  /** The words of each document; of two with one identifier the later counts. */
  function Docs(lib: Lib, pool: seq<Document>): map<FactId, seq<string>> {
    if pool == [] then map[]
    else
      var last := |pool| - 1;
      Docs(lib, pool[..last])[pool[last].id := Tokenize(lib.lower, pool[last].content)]
  }

  function TotalLength(lib: Lib, pool: seq<Document>): nat {
    if pool == [] then 0
    else
      var last := |pool| - 1;
      TotalLength(lib, pool[..last]) + |Tokenize(lib.lower, pool[last].content)|
  }

  function CorpusOf(lib: Lib, pool: seq<Document>): Corpus {
    Corpus(Docs(lib, pool), Once(Docs(lib, pool).Keys), |pool|, TotalLength(lib, pool))
  }

  function Ids(pool: seq<Document>): seq<FactId> { Map((d: Document) => d.id, pool) }

  function IdSet(pool: seq<Document>): set<FactId> {
    if pool == [] then {}
    else
      var last := |pool| - 1;
      IdSet(pool[..last]) + {pool[last].id}
  }

  lemma {:induction false} DocsHasIds(lib: Lib, pool: seq<Document>)
    ensures forall id :: id in Docs(lib, pool) <==> id in Ids(pool)
    ensures Docs(lib, pool).Keys == IdSet(pool) && |Docs(lib, pool)| <= |pool|
    decreases |pool|
  {
    hide Tokenize;
    if pool != [] {
      var last := |pool| - 1;
      DocsHasIds(lib, pool[..last]);
      assert Ids(pool) == Ids(pool[..last]) + [pool[last].id];
      assert Docs(lib, pool).Keys == Docs(lib, pool[..last]).Keys + {pool[last].id};
    }
  }

  lemma {:induction false} DocsFind(lib: Lib, pool: seq<Document>, i: nat)
    requires i < |pool| && Distinct(Ids(pool))
    ensures pool[i].id in Docs(lib, pool) && Docs(lib, pool)[pool[i].id] == Tokenize(lib.lower, pool[i].content)
    decreases |pool|
  {
    var last := |pool| - 1;
    assert Ids(pool) == Ids(pool[..last]) + [pool[last].id];
    if i < last {
      assert Ids(pool)[i] == pool[i].id && Ids(pool)[last] == pool[last].id;
      assert Distinct(Ids(pool[..last])) by {
        forall j, k | 0 <= j < k < last ensures Ids(pool[..last])[j] != Ids(pool[..last])[k] {
          assert Ids(pool)[j] != Ids(pool)[k];
        }
      }
      DocsFind(lib, pool[..last], i);
    }
  }

  function Words(lib: Lib): Document -> seq<string> {
    (d: Document) => Tokenize(lib.lower, d.content)
  }

  lemma {:induction false} TotalIsLength(lib: Lib, pool: seq<Document>)
    ensures TotalLength(lib, pool) == |FlatMap(Words(lib), pool)|
    decreases |pool|
  {
    if pool != [] {
      var last := |pool| - 1;
      TotalIsLength(lib, pool[..last]);
      assert pool == pool[..last] + [pool[last]];
      FlatMapAppend(Words(lib), pool[..last], pool[last]);
    }
  }

  /** With distinct identifiers the order of the pool is forgotten, and so it cannot affect any score. */
  lemma CorpusIgnoresOrder(lib: Lib, a: seq<Document>, b: seq<Document>)
    requires multiset(a) == multiset(b) && Distinct(Ids(a)) && Distinct(Ids(b))
    ensures CorpusOf(lib, a) == CorpusOf(lib, b)
  {
    SameLength(a, b);
    FlatMapPermutes(Words(lib), a, b);
    SameLength(FlatMap(Words(lib), a), FlatMap(Words(lib), b));
    TotalIsLength(lib, a);
    TotalIsLength(lib, b);
    SameDocs(lib, a, b);
    SameDocs(lib, b, a);
    assert Docs(lib, a) == Docs(lib, b);
  }

  lemma SameDocs(lib: Lib, a: seq<Document>, b: seq<Document>)
    requires multiset(a) == multiset(b) && Distinct(Ids(a)) && Distinct(Ids(b))
    ensures forall id :: id in Docs(lib, a) ==> id in Docs(lib, b) && Docs(lib, a)[id] == Docs(lib, b)[id]
  {
    DocsHasIds(lib, a);
    forall id | id in Docs(lib, a) ensures id in Docs(lib, b) && Docs(lib, a)[id] == Docs(lib, b)[id] {
      var i :| 0 <= i < |Ids(a)| && Ids(a)[i] == id;
      assert a[i] in multiset(b);
      var j :| 0 <= j < |b| && b[j] == a[i];
      DocsFind(lib, a, i);
      DocsFind(lib, b, j);
    }
  }

  lemma CorpusIsCorpus(lib: Lib, pool: seq<Document>)
    ensures IsCorpus(CorpusOf(lib, pool))
  {
    DocsHasIds(lib, pool);
    TotalOnce(Docs(lib, pool).Keys, Docs(lib, pool).Keys);
  }

  // ---------- counting ----------

  ghost predicate IsTf(tf: map<string, nat>, words: seq<string>) {
    && (forall w :: w in tf <==> w in words)
    && (forall w :: w in tf ==> tf[w] == Count(words, w))
  }

  method TermFrequencies(words: seq<string>) returns (tf: map<string, nat>)
    ensures IsTf(tf, words)
  {
    tf := map[];
    for i := 0 to |words|
      invariant IsTf(tf, words[..i])
    {
      assert words[..i + 1][..i] == words[..i] && words[..i + 1] == words[..i] + [words[i]];
      tf := tf[words[i] := (if words[i] in tf then tf[words[i]] else 0) + 1];
    }
    assert words[..|words|] == words;
  }

  ghost predicate IsIndex(tf: map<FactId, map<string, nat>>, docs: map<FactId, seq<string>>) {
    tf.Keys == docs.Keys && forall id :: id in docs ==> IsTf(tf[id], docs[id])
  }

  predicate AreLengths(len: map<FactId, nat>, docs: map<FactId, seq<string>>) {
    len.Keys == docs.Keys && forall id :: id in docs ==> len[id] == |docs[id]|
  }

  method IndexDocuments(lib: Lib, pool: seq<Document>)
    returns (docsTf: map<FactId, map<string, nat>>, docLen: map<FactId, nat>, totalLen: nat)
    ensures IsIndex(docsTf, Docs(lib, pool)) && AreLengths(docLen, Docs(lib, pool))
    ensures totalLen == TotalLength(lib, pool)
  {
    docsTf, docLen, totalLen := map[], map[], 0;
    for i := 0 to |pool|
      invariant IsIndex(docsTf, Docs(lib, pool[..i])) && AreLengths(docLen, Docs(lib, pool[..i]))
      invariant totalLen == TotalLength(lib, pool[..i])
    {
      assert pool[..i + 1][..i] == pool[..i];
      var words := Tokenize(lib.lower, pool[i].content);
      totalLen := totalLen + |words|;
      docLen := docLen[pool[i].id := |words|];
      var tf := TermFrequencies(words);
      docsTf := docsTf[pool[i].id := tf];
    }
    assert pool[..|pool|] == pool;
  }

  method DocumentFrequencies(terms: set<string>, docsTf: map<FactId, map<string, nat>>, ghost c: Corpus)
    returns (df: map<string, nat>)
    requires IsIndex(docsTf, c.docs) && c.copies == Once(c.docs.Keys)
    ensures df.Keys == terms && forall t :: t in terms ==> df[t] == DocFreq(c, t)
  {
    df := map[];
    var rest := terms;
    while rest != {}
      invariant rest <= terms && df.Keys == terms - rest
      invariant forall t :: t in df ==> df[t] == DocFreq(c, t)
      decreases rest
    {
      var t :| t in rest;
      assert (set id | id in docsTf && t in docsTf[id]) == Containing(c, t);
      TotalOnce(c.docs.Keys, Containing(c, t));
      df := df[t := |set id | id in docsTf && t in docsTf[id]|];
      rest := rest - {t};
    }
  }

  // ---------- scoring ----------

  /** What the first two passes have gathered about the pool. */
  datatype Gathered = Gathered(
    docsTf: map<FactId, map<string, nat>>, docLen: map<FactId, nat>, df: map<string, nat>, count: nat, totalLen: nat)

  ghost predicate IsGathered(g: Gathered, terms: set<string>, c: Corpus) {
    && IsIndex(g.docsTf, c.docs) && AreLengths(g.docLen, c.docs)
    && g.count == c.count && g.totalLen == c.totalLen
    && g.df.Keys == terms && forall t :: t in terms ==> g.df[t] == DocFreq(c, t)
  }

  /** One document against the query, the terms taken in whatever order the set yields them. */
  method RawScore(ln: real -> real, terms: set<string>, g: Gathered, id: FactId, ghost c: Corpus) returns (score: real)
    requires IsGathered(g, terms, c) && id in c.docs
    ensures score == Raw(ln, c, terms, id)
  {
    ghost var weight := (t: string) => if id in c.docs then Weight(ln, c, id, t) else 0.0;
    var tf := g.docsTf[id];
    var norm := LengthNorm(g.docLen[id], g.count, g.totalLen);
    score := 0.0;
    var rest := terms;
    while rest != {}
      invariant rest <= terms
      invariant score + SumOver(weight, rest) == SumOver(weight, terms)
      decreases rest
    {
      var t :| t in rest;
      SumOverPick(weight, rest, t);
      rest := rest - {t};
      var f := if t in tf then tf[t] else 0;
      if f == 0 {
        TimesZero(Idf(ln, c.count, DocFreq(c, t)));
        continue;
      }
      score := score + Times(Idf(ln, g.count, g.df[t]), Saturated(f, norm));
    }
  }

  method LexicalScores(lib: Lib, qTokens: seq<string>, pool: seq<Document>) returns (scores: map<FactId, real>)
    requires IsLog(lib.ln)
    ensures scores == Scores(lib.ln, CorpusOf(lib, pool), set t | t in qTokens)
  {
    ghost var c := CorpusOf(lib, pool);
    var terms := set t | t in qTokens;
    if qTokens == [] {
      DocsHasIds(lib, pool);
      NoTermsNoScore(lib.ln, c);
      assert terms == {};
      return map id | id in IdSet(pool) :: 0.0;
    }
    DocsHasIds(lib, pool);
    var docsTf, docLen, totalLen := IndexDocuments(lib, pool);
    var df := DocumentFrequencies(terms, docsTf, c);
    var raw, best := ScorePool(lib.ln, terms, Gathered(docsTf, docLen, df, |pool|, totalLen), pool, c);
    scores := Normalize(raw, best);
  }

  /** The scoring loop, which also keeps the best score. */
  method ScorePool(ln: real -> real, terms: set<string>, g: Gathered, pool: seq<Document>, ghost c: Corpus)
    returns (raw: map<FactId, real>, best: real)
    requires IsGathered(g, terms, c) && c.docs.Keys == IdSet(pool)
    ensures raw == RawScores(ln, c, terms) && best == Best(raw)
  {
    hide Raw, RawScores, IsGathered;
    raw, best := map[], 0.0;
    for i := 0 to |pool|
      invariant IsPartial(raw, best, RawScores(ln, c, terms), IdSet(pool[..i]))
    {
      var id := pool[i].id;
      IdIn(pool, i);
      assert pool[..i + 1][..i] == pool[..i];
      var score := RawScore(ln, terms, g, id, c);
      RawIsScored(ln, c, terms, id);
      PartialGrows(raw, best, RawScores(ln, c, terms), IdSet(pool[..i]), id, score);
      if score > best {
        best := score;
      }
      raw := raw[id := score];
    }
    assert pool[..|pool|] == pool;
    RawKeys(ln, c, terms);
    assert raw == RawScores(ln, c, terms);
    BestIsUnique(raw, best);
  }

  lemma RawKeys(ln: real -> real, c: Corpus, terms: set<string>)
    ensures RawScores(ln, c, terms).Keys == c.docs.Keys
  {
  }

  lemma RawIsScored(ln: real -> real, c: Corpus, terms: set<string>, id: FactId)
    requires id in c.docs
    ensures id in RawScores(ln, c, terms) && RawScores(ln, c, terms)[id] == Raw(ln, c, terms, id)
  {
    hide Raw;
  }

  /** The scores of some of the documents, and the best of those. */
  ghost predicate IsPartial(raw: map<FactId, real>, best: real, whole: map<FactId, real>, ids: set<FactId>) {
    raw.Keys == ids && IsBest(raw, best) && forall id :: id in raw ==> id in whole && raw[id] == whole[id]
  }

  lemma PartialGrows(raw: map<FactId, real>, best: real, whole: map<FactId, real>, ids: set<FactId>, id: FactId, score: real)
    requires IsPartial(raw, best, whole, ids) && id in whole && whole[id] == score
    ensures IsPartial(raw[id := score], if score > best then score else best, whole, ids + {id})
  {
    BestGrows(raw, best, id, score);
  }

  lemma {:induction false} IdIn(pool: seq<Document>, i: nat)
    requires i < |pool|
    ensures pool[i].id in IdSet(pool)
    decreases |pool|
  {
    if i < |pool| - 1 { IdIn(pool[..|pool| - 1], i); }
  }

  /** A score put in for the first time, or once more, keeps the maximum right. */
  lemma BestGrows(raw: map<FactId, real>, best: real, id: FactId, score: real)
    requires IsBest(raw, best) && (id in raw ==> raw[id] == score)
    ensures IsBest(raw[id := score], if score > best then score else best)
  {
    var more := raw[id := score];
    if score > best {
      assert more[id] == score;
    } else if best > 0.0 {
      var top :| top in raw && raw[top] == best;
      assert more[top] == best;
    }
  }

  lemma NoTermsNoScore(ln: real -> real, c: Corpus)
    requires IsLog(ln)
    ensures Scores(ln, c, {}) == map id | id in c.docs :: 0.0
  {
    var raw := RawScores(ln, c, {});
    assert forall id :: id in raw ==> raw[id] == 0.0;
    BestIsUnique(raw, 0.0);
  }

  // ---------- the Python twin ----------

  function TextOf(content: map<FactId, string>, id: FactId): string {
    if id in content then content[id] else ""
  }

  /** The pool as Python sees it: an identifier without content is an empty document. */
  function PoolOf(ids: seq<FactId>, content: map<FactId, string>): (r: seq<Document>)
    ensures |r| == |ids| && Ids(r) == ids
  {
    Map((id: FactId) => Document(id, TextOf(content, id)), ids)
  }

  /** Lower-casing leaves no ASCII capital, and it leaves no text and a blank as they are. */
  ghost predicate Lowers(lib: Lib) {
    (forall text :: HasNoUpper(lib.lower(text))) && lib.lower("") == "" && lib.lower(" ") == " "
  }

  method PythonIndex(lib: Lib, ids: seq<FactId>, content: map<FactId, string>)
    returns (docsTf: map<FactId, map<string, nat>>, docLen: map<FactId, nat>)
    requires Lowers(lib)
    ensures IsIndex(docsTf, Docs(lib, PoolOf(ids, content))) && AreLengths(docLen, Docs(lib, PoolOf(ids, content)))
  {
    ghost var pool := PoolOf(ids, content);
    docsTf, docLen := map[], map[];
    for i := 0 to |ids|
      invariant IsIndex(docsTf, Docs(lib, pool[..i])) && AreLengths(docLen, Docs(lib, pool[..i]))
    {
      assert pool[..i + 1][..i] == pool[..i];
      TokenizersAgree(lib.lower, TextOf(content, ids[i]));
      var words := TokenizeByPattern(lib.lower, TextOf(content, ids[i]));
      var tf := TermFrequencies(words);
      docsTf := docsTf[ids[i] := tf];
      docLen := docLen[ids[i] := |words|];
    }
    assert pool[..|ids|] == pool;
  }

  /** How often each identifier occurs. */
  function Copies(ids: seq<FactId>): map<FactId, nat> {
    if ids == [] then map[]
    else
      var before, id := Copies(ids[..|ids| - 1]), ids[|ids| - 1];
      before[id := (if id in before then before[id] else 0) + 1]
  }

  function Lengths(docs: map<FactId, seq<string>>): map<FactId, nat> {
    map id | id in docs :: |docs[id]|
  }

  /**
   The pool as the twin counts it: a repeated identifier counts each time among the candidates and
   among the documents with a term, but its words count once.
   */
  ghost function PythonCorpus(lib: Lib, ids: seq<FactId>, content: map<FactId, string>): Corpus {
    var docs := Docs(lib, PoolOf(ids, content));
    Corpus(docs, Copies(ids), |ids|, Total(Lengths(docs), docs.Keys))
  }

  /** One more copy of one identifier. */
  lemma OneMoreCopy(f: map<FactId, nat>, s: set<FactId>, id: FactId)
    ensures Total(f[id := (if id in f then f[id] else 0) + 1], s) == Total(f, s) + if id in s then 1 else 0
  {
    var g := f[id := (if id in f then f[id] else 0) + 1];
    if id in s {
      TotalPick(f, s, id);
      TotalPick(g, s, id);
      SameElsewhere(f, g, s - {id}, id);
    } else {
      SameElsewhere(f, g, s, id);
    }
  }

  lemma {:induction false} SameElsewhere(f: map<FactId, nat>, g: map<FactId, nat>, s: set<FactId>, id: FactId)
    requires id !in s && forall other :: other != id ==> (other in f <==> other in g) && (other in f ==> f[other] == g[other])
    ensures Total(f, s) == Total(g, s)
    decreases s
  {
    if s != {} {
      var other :| other in s;
      TotalPick(f, s, other);
      TotalPick(g, s, other);
      SameElsewhere(f, g, s - {other}, id);
    }
  }

  lemma {:induction false} CopiesAddUp(ids: seq<FactId>, s: set<FactId>)
    requires forall id :: id in ids ==> id in s
    ensures Total(Copies(ids), s) == |ids|
    decreases |ids|
  {
    if ids == [] {
      NothingTotals(s);
    } else {
      assert ids[|ids| - 1] in s;
      CopiesAddUp(ids[..|ids| - 1], s);
      OneMoreCopy(Copies(ids[..|ids| - 1]), s, ids[|ids| - 1]);
    }
  }

  lemma {:induction false} NothingTotals(s: set<FactId>)
    ensures Total(map[], s) == 0
    decreases s
  {
    if s != {} {
      var id :| id in s;
      TotalPick(map[], s, id);
      NothingTotals(s - {id});
    }
  }

  lemma PythonCorpusIsCorpus(lib: Lib, ids: seq<FactId>, content: map<FactId, string>)
    ensures IsCorpus(PythonCorpus(lib, ids, content))
    ensures forall id :: id in ids <==> id in PythonCorpus(lib, ids, content).docs
  {
    DocsHasIds(lib, PoolOf(ids, content));
    CopiesAddUp(ids, PythonCorpus(lib, ids, content).docs.Keys);
  }

  /** The values of a dictionary, added up. */
  method SumOfValues(values: map<FactId, nat>) returns (total: nat)
    ensures total == Total(values, values.Keys)
  {
    total := 0;
    var rest := values.Keys;
    while rest != {}
      invariant rest <= values.Keys
      invariant total + Total(values, rest) == Total(values, values.Keys)
      decreases rest
    {
      var id :| id in rest;
      TotalPick(values, rest, id);
      total := total + values[id];
      rest := rest - {id};
    }
  }

  /** How many of the identifiers' documents have the term. */
  function CountWith(ids: seq<FactId>, docsTf: map<FactId, map<string, nat>>, t: string): nat
    requires forall id :: id in ids ==> id in docsTf
  {
    if ids == [] then 0
    else
      var last := |ids| - 1;
      CountWith(ids[..last], docsTf, t) + if t in docsTf[ids[last]] then 1 else 0
  }

  lemma {:induction false} CountWithIsTotal(ids: seq<FactId>, docsTf: map<FactId, map<string, nat>>, t: string, s: set<FactId>)
    requires forall id :: id in ids ==> id in docsTf && (id in s <==> t in docsTf[id])
    ensures CountWith(ids, docsTf, t) == Total(Copies(ids), s)
    decreases |ids|
  {
    if ids == [] {
      NothingTotals(s);
    } else {
      assert ids[|ids| - 1] in ids;
      CountWithIsTotal(ids[..|ids| - 1], docsTf, t, s);
      OneMoreCopy(Copies(ids[..|ids| - 1]), s, ids[|ids| - 1]);
    }
  }

  method PythonFrequencies(terms: set<string>, ids: seq<FactId>, docsTf: map<FactId, map<string, nat>>, ghost c: Corpus)
    returns (df: map<string, nat>)
    requires IsIndex(docsTf, c.docs) && c.copies == Copies(ids) && forall id :: id in ids <==> id in c.docs
    ensures df.Keys == terms && forall t :: t in terms ==> df[t] == DocFreq(c, t)
  {
    forall t ensures CountWith(ids, docsTf, t) == DocFreq(c, t) {
      CountWithIsTotal(ids, docsTf, t, Containing(c, t));
    }
    df := map t | t in terms :: CountWith(ids, docsTf, t);
  }

  /** The largest value, or zero if there is none. */
  method MaxOfValues(ids: seq<FactId>, raw: map<FactId, real>) returns (m: real)
    requires (forall id :: id in ids <==> id in raw) && forall id :: id in raw ==> raw[id] >= 0.0
    ensures IsBest(raw, m)
  {
    if ids == [] {
      return 0.0;
    }
    m := raw[ids[0]];
    for i := 1 to |ids|
      invariant forall j :: 0 <= j < i ==> raw[ids[j]] <= m
      invariant exists j :: 0 <= j < i && raw[ids[j]] == m
    {
      if raw[ids[i]] > m {
        m := raw[ids[i]];
      }
    }
  }

  /** The twin's scores, for any list of identifiers. */
  method LexicalScoresForIds(lib: Lib, qTokens: seq<string>, ids: seq<FactId>, content: map<FactId, string>)
    returns (scores: map<FactId, real>)
    requires IsLog(lib.ln) && Lowers(lib)
    ensures scores == Scores(lib.ln, PythonCorpus(lib, ids, content), set t | t in qTokens)
  {
    ghost var c := PythonCorpus(lib, ids, content);
    var terms := set t | t in qTokens;
    PythonCorpusIsCorpus(lib, ids, content);
    if qTokens == [] {
      NoTermsNoScore(lib.ln, c);
      assert terms == {};
      return map id | id in ids :: 0.0;
    }
    var g := PythonGather(lib, terms, ids, content);
    scores := PythonScore(lib.ln, terms, g, ids, c);
  }

  method PythonGather(lib: Lib, terms: set<string>, ids: seq<FactId>, content: map<FactId, string>) returns (g: Gathered)
    requires Lowers(lib)
    ensures IsGathered(g, terms, PythonCorpus(lib, ids, content))
  {
    ghost var c := PythonCorpus(lib, ids, content);
    PythonCorpusIsCorpus(lib, ids, content);
    var docsTf, docLen := PythonIndex(lib, ids, content);
    assert docLen == Lengths(c.docs);
    var totalLen := SumOfValues(docLen);
    var df := PythonFrequencies(terms, ids, docsTf, c);
    g := Gathered(docsTf, docLen, df, |ids|, totalLen);
  }

  lemma {:induction false} CopiesOfDistinct(ids: seq<FactId>)
    requires Distinct(ids)
    ensures forall id :: id in Copies(ids) <==> id in ids
    ensures forall id :: id in ids ==> Copies(ids)[id] == 1
    decreases |ids|
  {
    if ids != [] {
      DistinctFront(ids);
      CopiesOfDistinct(ids[..|ids| - 1]);
    }
  }

  lemma DistinctFront(ids: seq<FactId>)
    requires Distinct(ids) && ids != []
    ensures Distinct(ids[..|ids| - 1]) && ids[|ids| - 1] !in ids[..|ids| - 1]
    ensures forall id :: id in ids <==> id in ids[..|ids| - 1] || id == ids[|ids| - 1]
  {
    var last := |ids| - 1;
    assert ids == ids[..last] + [ids[last]];
    forall j, k | 0 <= j < k < last ensures ids[..last][j] != ids[..last][k] { assert ids[j] != ids[k]; }
  }

  lemma {:induction false} LengthsOfDistinct(lib: Lib, pool: seq<Document>)
    requires Distinct(Ids(pool))
    ensures Total(Lengths(Docs(lib, pool)), Docs(lib, pool).Keys) == TotalLength(lib, pool)
    decreases |pool|
  {
    if pool != [] {
      var last := |pool| - 1;
      var front, docs, id := pool[..last], Docs(lib, pool), pool[last].id;
      assert Ids(pool)[..last] == Ids(front);
      DistinctFront(Ids(pool));
      LengthsOfDistinct(lib, front);
      DocsHasIds(lib, front);
      TotalPick(Lengths(docs), docs.Keys, id);
      assert docs.Keys - {id} == Docs(lib, front).Keys;
      TotalAgrees(Lengths(docs), Lengths(Docs(lib, front)), Docs(lib, front).Keys);
    }
  }

  /** For distinct identifiers the twin counts as the Rust core does. */
  lemma TwinsCountAlike(lib: Lib, ids: seq<FactId>, content: map<FactId, string>)
    requires Distinct(ids)
    ensures PythonCorpus(lib, ids, content) == CorpusOf(lib, PoolOf(ids, content))
  {
    var pool := PoolOf(ids, content);
    DocsHasIds(lib, pool);
    CopiesOfDistinct(ids);
    assert Copies(ids) == Once(Docs(lib, pool).Keys);
    LengthsOfDistinct(lib, pool);
  }

  method PythonScore(ln: real -> real, terms: set<string>, g: Gathered, ids: seq<FactId>, ghost c: Corpus)
    returns (scores: map<FactId, real>)
    requires IsLog(ln) && IsCorpus(c) && IsGathered(g, terms, c) && forall id :: id in ids <==> id in c.docs
    ensures scores == Scores(ln, c, terms)
  {
    var raw := PythonRaw(ln, terms, g, ids, c);
    RawIsNonNegative(ln, c, terms);
    scores := NormalizeAll(ids, raw);
  }

  lemma RawIsNonNegative(ln: real -> real, c: Corpus, terms: set<string>)
    requires IsLog(ln) && IsCorpus(c)
    ensures forall id :: id in RawScores(ln, c, terms) ==> RawScores(ln, c, terms)[id] >= 0.0
  {
    forall id | id in c.docs ensures Raw(ln, c, terms, id) >= 0.0 { RawSign(ln, c, terms, id); }
  }

  method NormalizeAll(ids: seq<FactId>, raw: map<FactId, real>) returns (scores: map<FactId, real>)
    requires (forall id :: id in ids <==> id in raw) && forall id :: id in raw ==> raw[id] >= 0.0
    ensures scores == Normalize(raw, Best(raw))
  {
    var best := MaxOfValues(ids, raw);
    BestIsUnique(raw, best);
    if best <= 0.0 {
      scores := map id | id in ids :: 0.0;
    } else {
      scores := map id | id in ids :: Over(raw[id], best);
    }
  }

  method PythonRaw(ln: real -> real, terms: set<string>, g: Gathered, ids: seq<FactId>, ghost c: Corpus)
    returns (raw: map<FactId, real>)
    requires IsGathered(g, terms, c) && forall id :: id in ids <==> id in c.docs
    ensures raw == RawScores(ln, c, terms)
  {
    raw := map[];
    ghost var whole := RawScores(ln, c, terms);
    for i := 0 to |ids|
      invariant forall id :: id in raw <==> id in ids[..i]
      invariant forall id :: id in raw ==> raw[id] == whole[id]
    {
      var score := RawScore(ln, terms, g, ids[i], c);
      assert ids[..i + 1] == ids[..i] + [ids[i]];
      raw := raw[ids[i] := score];
    }
    assert ids[..|ids|] == ids;
  }

  // ---------- the blend ----------

  /** Configured weights are forced between 0.05 and 0.40. */
  function Clamp(w: real): (r: real)
    ensures 0.05 <= r <= 0.40
  {
    if w < 0.05 then 0.05 else if w > 0.40 then 0.40 else w
  }

  /** The share of the cosine score and of the lexical score; `base` and `short` come from the environment. */
  function DenseLexicalWeights(base: real, short: real, tokenCount: nat): (w: (real, real))
    ensures w.0 + w.1 == 1.0 && 0.05 <= w.1 <= 0.40
  {
    var lex := if tokenCount <= 2 then Clamp(short) else Clamp(base);
    (1.0 - lex, lex)
  }

  function Blend(w: (real, real), cosine: real, lexical: real): real {
    Times(w.0, cosine) + Times(w.1, lexical)
  }

  /** A blended score stays where a cosine is. */
  lemma BlendIsBounded(base: real, short: real, tokenCount: nat, cosine: real, lexical: real)
    requires -1.0 <= cosine <= 1.0 && 0.0 <= lexical <= 1.0
    ensures -1.0 <= Blend(DenseLexicalWeights(base, short, tokenCount), cosine, lexical) <= 1.0
  {
    var w := DenseLexicalWeights(base, short, tokenCount);
    TimesOrder(w.0, cosine, 1.0);
    TimesOrder(w.0, -1.0, cosine);
    TimesOrder(w.1, lexical, 1.0);
    TimesOrder(w.1, 0.0, lexical);
    TimesNegates(w.0, 1.0);
    TimesZero(w.1);
  }

  /** It never falls when either part rises. */
  lemma BlendIsMonotone(base: real, short: real, tokenCount: nat, cosine: real, lexical: real, more: real, words: real)
    requires cosine <= more && lexical <= words
    ensures var w := DenseLexicalWeights(base, short, tokenCount); Blend(w, cosine, lexical) <= Blend(w, more, words)
  {
    var w := DenseLexicalWeights(base, short, tokenCount);
    TimesOrder(w.0, cosine, more);
    TimesOrder(w.1, lexical, words);
  }
}
