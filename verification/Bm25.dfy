/**
 What the lexical scorer computes: BM25 over a pool of documents, divided by the best score. The
 logarithm is a parameter of which only its sign above one is used.
 */
module Bm25 {
  import opened Vectors

  datatype FactId = IntId(n: int) | StringId(s: string)

  /**
   The words of each document, how often each counts when documents with a term are counted, the
   number of candidates and the number of words in all of them.
   */
  datatype Corpus = Corpus(docs: map<FactId, seq<string>>, copies: map<FactId, nat>, count: nat, totalLen: nat)

  const K1: real := 1.2
  const B: real := 0.75

  ghost predicate IsLog(ln: real -> real) {
    forall x :: x > 1.0 ==> ln(x) > 0.0
  }

  function Count(words: seq<string>, w: string): (n: nat)
    ensures n > 0 <==> w in words
  {
    if words == [] then 0
    else
      var last := |words| - 1;
      assert words == words[..last] + [words[last]];
      Count(words[..last], w) + if words[last] == w then 1 else 0
  }

  function Containing(c: Corpus, t: string): set<FactId> {
    set id | id in c.docs && t in c.docs[id]
  }

  /** The numbers of some identifiers, added up in any order. */
  ghost function Total(f: map<FactId, nat>, s: set<FactId>): nat
    decreases s
  {
    if s == {} then 0
    else
      var id :| id in s;
      (if id in f then f[id] else 0) + Total(f, s - {id})
  }

  lemma {:induction false} TotalPick(f: map<FactId, nat>, s: set<FactId>, id: FactId)
    requires id in s
    ensures Total(f, s) == (if id in f then f[id] else 0) + Total(f, s - {id})
    decreases s
  {
    var u :| u in s && Total(f, s) == (if u in f then f[u] else 0) + Total(f, s - {u});
    if u != id {
      TotalPick(f, s - {u}, id);
      TotalPick(f, s - {id}, u);
      assert s - {u} - {id} == s - {id} - {u};
    }
  }

  lemma {:induction false} TotalAgrees(f: map<FactId, nat>, g: map<FactId, nat>, s: set<FactId>)
    requires forall id :: id in s ==> id in f && id in g && f[id] == g[id]
    ensures Total(f, s) == Total(g, s)
    decreases s
  {
    if s != {} {
      var id :| id in s;
      TotalPick(f, s, id);
      TotalPick(g, s, id);
      TotalAgrees(f, g, s - {id});
    }
  }

  lemma {:induction false} TotalOfPart(f: map<FactId, nat>, a: set<FactId>, b: set<FactId>)
    requires a <= b
    ensures Total(f, a) <= Total(f, b)
    decreases a
  {
    if a != {} {
      var id :| id in a;
      TotalPick(f, a, id);
      TotalPick(f, b, id);
      TotalOfPart(f, a - {id}, b - {id});
    }
  }

  /** Every document counts once. */
  function Once(ids: set<FactId>): map<FactId, nat> {
    map id | id in ids :: 1
  }

  lemma {:induction false} TotalOnce(ids: set<FactId>, s: set<FactId>)
    requires s <= ids
    ensures Total(Once(ids), s) == |s|
    decreases s
  {
    if s != {} {
      var id :| id in s;
      TotalPick(Once(ids), s, id);
      TotalOnce(ids, s - {id});
    }
  }

  ghost function DocFreq(c: Corpus, t: string): nat {
    Total(c.copies, Containing(c, t))
  }

  /** No document counts more often than there are candidates for it. */
  ghost predicate IsCorpus(c: Corpus) { Total(c.copies, c.docs.Keys) <= c.count }

  lemma DocFreqIsBounded(c: Corpus, t: string)
    requires IsCorpus(c)
    ensures DocFreq(c, t) <= c.count
  {
    TotalOfPart(c.copies, Containing(c, t), c.docs.Keys);
  }

  function Idf(ln: real -> real, count: nat, docFreq: nat): real {
    ln(1.0 + Over(count as real - docFreq as real + 0.5, docFreq as real + 0.5))
  }

  lemma IdfIsPositive(ln: real -> real, count: nat, docFreq: nat)
    requires IsLog(ln) && docFreq <= count
    ensures Idf(ln, count, docFreq) > 0.0
  {
    OverSign(count as real - docFreq as real + 0.5, docFreq as real + 0.5);
  }

  /** Long documents count less. */
  function LengthNorm(len: nat, count: nat, totalLen: nat): (r: real)
    ensures r > 0.0
  {
    if totalLen > 0 && count > 0 then
      OverSign(totalLen as real, count as real);
      OverSign(len as real, Over(totalLen as real, count as real));
      TimesNonNegative(B, Over(len as real, Over(totalLen as real, count as real)));
      1.0 - B + Times(B, Over(len as real, Over(totalLen as real, count as real)))
    else 1.0
  }

  /** How often the term occurs, dampened. */
  function Saturated(f: nat, norm: real): (r: real)
    requires norm > 0.0
    ensures r >= 0.0 && (r > 0.0 <==> f > 0)
  {
    if f == 0 then 0.0
    else
      TimesPositive(K1, norm);
      TimesPositive(f as real, K1 + 1.0);
      OverSign(Times(f as real, K1 + 1.0), f as real + Times(K1, norm));
      Over(Times(f as real, K1 + 1.0), f as real + Times(K1, norm))
  }

  ghost function Weight(ln: real -> real, c: Corpus, id: FactId, t: string): real
    requires id in c.docs
  {
    var norm := LengthNorm(|c.docs[id]|, c.count, c.totalLen);
    Times(Idf(ln, c.count, DocFreq(c, t)), Saturated(Count(c.docs[id], t), norm))
  }

  /** Only terms that occur in the document weigh anything, and those do. */
  lemma WeightSign(ln: real -> real, c: Corpus, id: FactId, t: string)
    requires IsLog(ln) && IsCorpus(c) && id in c.docs
    ensures Weight(ln, c, id, t) >= 0.0
    ensures Weight(ln, c, id, t) > 0.0 <==> t in c.docs[id]
  {
    DocFreqIsBounded(c, t);
    IdfIsPositive(ln, c.count, DocFreq(c, t));
    var idf, s := Idf(ln, c.count, DocFreq(c, t)), Saturated(Count(c.docs[id], t), LengthNorm(|c.docs[id]|, c.count, c.totalLen));
    TimesZero(idf);
    if s > 0.0 { TimesPositive(idf, s); }
  }

  // ---------- sums over a set, in any order ----------

  ghost function SumOver(f: string -> real, s: set<string>): real
    decreases s
  {
    if s == {} then 0.0
    else
      var t :| t in s;
      f(t) + SumOver(f, s - {t})
  }

  /** The term taken first does not matter. */
  lemma {:induction false} SumOverPick(f: string -> real, s: set<string>, t: string)
    requires t in s
    ensures SumOver(f, s) == f(t) + SumOver(f, s - {t})
    decreases s
  {
    var u :| u in s && SumOver(f, s) == f(u) + SumOver(f, s - {u});
    if u != t {
      SumOverPick(f, s - {u}, t);
      SumOverPick(f, s - {t}, u);
      assert s - {u} - {t} == s - {t} - {u};
    }
  }

  lemma {:induction false} SumOverSign(f: string -> real, s: set<string>)
    requires forall t :: t in s ==> f(t) >= 0.0
    ensures SumOver(f, s) >= 0.0
    ensures SumOver(f, s) > 0.0 <==> exists t :: t in s && f(t) > 0.0
    decreases s
  {
    if s != {} {
      var u :| u in s && SumOver(f, s) == f(u) + SumOver(f, s - {u});
      SumOverSign(f, s - {u});
      if t :| t in s && f(t) > 0.0 {
        assert t == u || t in s - {u};
      }
    }
  }

  // ---------- scores ----------

  ghost function Raw(ln: real -> real, c: Corpus, terms: set<string>, id: FactId): real
    requires id in c.docs
  {
    SumOver(t => if id in c.docs then Weight(ln, c, id, t) else 0.0, terms)
  }

  ghost function RawScores(ln: real -> real, c: Corpus, terms: set<string>): map<FactId, real> {
    map id | id in c.docs :: Raw(ln, c, terms, id)
  }

  /** The largest of some numbers, but at least zero. */
  predicate IsBest(raw: map<FactId, real>, m: real) {
    && m >= 0.0 && (forall id :: id in raw ==> raw[id] <= m)
    && (m > 0.0 ==> exists id :: id in raw && raw[id] == m)
  }

  ghost function Best(raw: map<FactId, real>): (m: real)
    ensures IsBest(raw, m)
    decreases raw.Keys
  {
    if raw == map[] then 0.0
    else
      var id :| id in raw;
      var rest := Best(raw - {id});
      assert forall other :: other in raw ==> other == id || other in raw - {id};
      if raw[id] > rest then raw[id] else rest
  }

  lemma BestIsUnique(raw: map<FactId, real>, m: real)
    requires IsBest(raw, m)
    ensures m == Best(raw)
  {
  }

  function Normalize(raw: map<FactId, real>, best: real): map<FactId, real> {
    if best <= 0.0 then raw else map id | id in raw :: Over(raw[id], best)
  }

  /** The score of every document. */
  ghost function Scores(ln: real -> real, c: Corpus, terms: set<string>): map<FactId, real> {
    Normalize(RawScores(ln, c, terms), Best(RawScores(ln, c, terms)))
  }

  predicate Mentions(words: seq<string>, terms: set<string>) {
    exists w :: w in words && w in terms
  }

  lemma RawSign(ln: real -> real, c: Corpus, terms: set<string>, id: FactId)
    requires IsLog(ln) && IsCorpus(c) && id in c.docs
    ensures Raw(ln, c, terms, id) >= 0.0
    ensures Raw(ln, c, terms, id) > 0.0 <==> Mentions(c.docs[id], terms)
  {
    var f := (t: string) => if id in c.docs then Weight(ln, c, id, t) else 0.0;
    forall t ensures f(t) >= 0.0 && (f(t) > 0.0 <==> t in c.docs[id]) { WeightSign(ln, c, id, t); }
    SumOverSign(f, terms);
  }

  /** Scores lie between zero and one, and a document scores above zero exactly if it has a query term. */
  lemma ScoresAreNormalized(ln: real -> real, c: Corpus, terms: set<string>)
    requires IsLog(ln) && IsCorpus(c)
    ensures Scores(ln, c, terms).Keys == c.docs.Keys
    ensures forall id :: id in c.docs ==>
      && 0.0 <= Scores(ln, c, terms)[id] <= 1.0
      && (Scores(ln, c, terms)[id] > 0.0 <==> Mentions(c.docs[id], terms))
  {
    var raw := RawScores(ln, c, terms);
    var best := Best(raw);
    forall id | id in c.docs
      ensures 0.0 <= Scores(ln, c, terms)[id] <= 1.0
      ensures Scores(ln, c, terms)[id] > 0.0 <==> Mentions(c.docs[id], terms)
    {
      RawSign(ln, c, terms, id);
      if best > 0.0 {
        OverSign(raw[id], best);
        ShareIsAtMostOne(raw[id], best);
      }
    }
  }

  lemma ShareIsAtMostOne(x: real, best: real)
    requires best > 0.0 && x <= best
    ensures Over(x, best) <= 1.0
    ensures x == best ==> Over(x, best) == 1.0
  {
    var q := Over(x, best);
    if q > 1.0 {
      TimesPositive(q - 1.0, best);
      TimesDistributes(best, q - 1.0, 1.0);
    }
    if x == best { QuotientIsUnique(1.0, x, best); }
  }

  /** If any document has a query term then some document scores exactly one; otherwise all score zero. */
  lemma BestScoreIsOne(ln: real -> real, c: Corpus, terms: set<string>)
    requires IsLog(ln) && IsCorpus(c)
    ensures (exists id :: id in c.docs && Mentions(c.docs[id], terms)) <==>
            (exists id :: id in Scores(ln, c, terms) && Scores(ln, c, terms)[id] == 1.0)
    ensures !(exists id :: id in c.docs && Mentions(c.docs[id], terms)) ==>
            forall id :: id in c.docs ==> Scores(ln, c, terms)[id] == 0.0
  {
    var raw := RawScores(ln, c, terms);
    var best := Best(raw);
    ScoresAreNormalized(ln, c, terms);
    if id :| id in c.docs && Mentions(c.docs[id], terms) {
      RawSign(ln, c, terms, id);
      assert best > 0.0;
      var top :| top in raw && raw[top] == best;
      ShareIsAtMostOne(raw[top], best);
      assert Scores(ln, c, terms)[top] == 1.0;
    }
  }
}
