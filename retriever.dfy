/**
 * The retriever service: scores every document of a fixed five-entry dataset by the number of
 * distinct words it shares with the query, keeps the three best (ties in dataset order) that
 * score above zero, and falls back to the first three entries when none does.
 */
module Retriever {
  import opened Wrappers
  import opened Payloads
  import opened Text
  import opened Arith

  /** How many documents `heapq.nlargest` keeps. */
  const TopN: nat := 3

  const Dataset: seq<Document> := [
    map["id" := "d1", "text" := "Apples are red and sweet. They contain vitamin C."],
    map["id" := "d2", "text" := "Bananas are yellow and rich in potassium."],
    map["id" := "d3", "text" := "Cherries have antioxidants and are small and red."],
    map["id" := "d4", "text" := "Dates are sweet fruits often used in deserts."],
    map["id" := "d5", "text" := "Elderberries are used in syrups and contain vitamin C."]
  ]

  datatype RetrieveRequest = RetrieveRequest(requestId: string, query: string, traceId: Option<string>)
  datatype RetrieveResponse = RetrieveResponse(requestId: string, documents: seq<Document>, traceId: Option<string>)

  /** One `(score, doc)` pair of the scoring loop. */
  datatype Scored = Scored(score: nat, doc: Document)

  /** `set(s.lower().split())` */
  function WordSet(s: string): set<string> {
    set w | w in Words(Lower(s))
  }

  /** The members of a word set are words of the lower-cased text: non-empty and free of
    * whitespace; a text of whitespace alone has none. */
  lemma WordSetWords(s: string)
    ensures forall w :: w in WordSet(s) ==> w in Words(Lower(s)) && w != [] && NoSpace(w)
    ensures AllSpace(s) ==> WordSet(s) == {}
  {
    WordsAreWords(Lower(s));
    if AllSpace(s) {
      forall k | 0 <= k < |s| ensures Lower(s)[k] == s[k] {
        assert IsSpace(s[k]);
      }
      assert Lower(s) == s;
      WordsOfSpace(s);
    }
  }

  /** The number of distinct words the query and the text share. */
  function Overlap(queryWords: set<string>, text: string): nat {
    |queryWords * WordSet(text)|
  }

  predicate HasText(docs: seq<Document>) {
    forall k :: 0 <= k < |docs| ==> "text" in docs[k]
  }

  /** The pairs the scoring loop builds from `docs`, in dataset order. */
  function Scores(queryWords: set<string>, docs: seq<Document>): seq<Scored>
    requires HasText(docs)
  {
    seq(|docs|, k requires 0 <= k < |docs| => Scored(Overlap(queryWords, docs[k]["text"]), docs[k]))
  }

  /** The scoring loop of `retrieve`. */
  method ScoreAll(queryWords: set<string>, docs: seq<Document>) returns (scores: seq<Scored>)
    requires HasText(docs)
    ensures |scores| == |docs|
    ensures forall k :: 0 <= k < |docs| ==>
      scores[k].doc == docs[k] && scores[k].score == |queryWords * WordSet(docs[k]["text"])|
  {
    scores := [];
    for k := 0 to |docs|
      invariant |scores| == k
      invariant forall j :: 0 <= j < k ==>
        scores[j].doc == docs[j] && scores[j].score == |queryWords * WordSet(docs[j]["text"])|
    {
      var docWords := WordSet(docs[k]["text"]);
      var score := |queryWords * docWords|;
      scores := scores + [Scored(score, docs[k])];
    }
  }

  // ---------------------------------------------------------------------------
  // heapq.nlargest(n, scores, key=score) == sorted(scores, key=score, reverse=True)[:n]
  // ---------------------------------------------------------------------------

  predicate NonIncreasing(s: seq<Scored>) {
    forall i, j :: 0 <= i < j < |s| ==> s[i].score >= s[j].score
  }

  /** Puts `x` in front of the first entry that does not score more than it. */
  function Insert(x: Scored, s: seq<Scored>): seq<Scored> {
    if s == [] || s[0].score <= x.score then [x] + s else [s[0]] + Insert(x, s[1..])
  }

  lemma {:induction false} InsertPermutes(x: Scored, s: seq<Scored>)
    ensures |Insert(x, s)| == |s| + 1
    ensures multiset(Insert(x, s)) == multiset(s) + multiset{x}
  {
    if s != [] && s[0].score > x.score {
      InsertPermutes(x, s[1..]);
      assert s == [s[0]] + s[1..];
    }
  }

  lemma NonIncreasingCons(y: Scored, t: seq<Scored>)
    requires NonIncreasing(t)
    requires forall j :: 0 <= j < |t| ==> y.score >= t[j].score
    ensures NonIncreasing([y] + t)
  {
    var r := [y] + t;
    forall i, j | 0 <= i < j < |r| ensures r[i].score >= r[j].score {
      assert r[j] == t[j - 1];
      if i > 0 {
        assert r[i] == t[i - 1];
      }
    }
  }

  lemma {:induction false} InsertKeepsOrder(x: Scored, s: seq<Scored>)
    requires NonIncreasing(s)
    ensures |Insert(x, s)| == |s| + 1
    ensures multiset(Insert(x, s)) == multiset(s) + multiset{x}
    ensures NonIncreasing(Insert(x, s))
  {
    InsertPermutes(x, s);
    if s == [] || s[0].score <= x.score {
      NonIncreasingCons(x, s);
    } else {
      var tail := s[1..];
      InsertKeepsOrder(x, tail);
      var rest := Insert(x, tail);
      forall j | 0 <= j < |rest|
        ensures s[0].score >= rest[j].score
      {
        assert rest[j] in multiset(rest);
        if rest[j] != x {
          assert rest[j] in multiset(tail);
          var i :| 0 <= i < |tail| && tail[i] == rest[j];
          assert s[i + 1] == rest[j];
        }
      }
      NonIncreasingCons(s[0], rest);
    }
  }

  /** A stable sort by descending score. */
  function SortByScore(s: seq<Scored>): (r: seq<Scored>)
    ensures |r| == |s|
    ensures NonIncreasing(r)
    ensures multiset(r) == multiset(s)
  {
    if s == [] then []
    else
      var rest := SortByScore(s[1..]);
      InsertKeepsOrder(s[0], rest);
      assert s == [s[0]] + s[1..];
      Insert(s[0], rest)
  }

  /** The entries of `s` with score `v`, in order: equal scores are ties. */
  function WithScore(v: nat, s: seq<Scored>): seq<Scored> {
    if s == [] then [] else (if s[0].score == v then [s[0]] else []) + WithScore(v, s[1..])
  }

  lemma {:induction false} WithScoreConcat(v: nat, a: seq<Scored>, b: seq<Scored>)
    ensures WithScore(v, a + b) == WithScore(v, a) + WithScore(v, b)
  {
    if a != [] {
      assert (a + b)[1..] == a[1..] + b;
      WithScoreConcat(v, a[1..], b);
    } else {
      assert a + b == b;
    }
  }

  lemma WithScoreCons(v: nat, y: Scored, t: seq<Scored>)
    ensures WithScore(v, [y] + t) == (if y.score == v then [y] else []) + WithScore(v, t)
  {
    assert ([y] + t)[0] == y;
    assert ([y] + t)[1..] == t;
  }

  lemma {:induction false} InsertStable(v: nat, x: Scored, s: seq<Scored>)
    ensures WithScore(v, Insert(x, s)) == (if x.score == v then [x] else []) + WithScore(v, s)
  {
    if s == [] || s[0].score <= x.score {
      WithScoreCons(v, x, s);
    } else {
      InsertStable(v, x, s[1..]);
      WithScoreCons(v, s[0], Insert(x, s[1..]));
      WithScoreCons(v, s[0], s[1..]);
      assert [s[0]] + s[1..] == s;
    }
  }

  /** Sorting keeps tied entries in their original order. */
  lemma {:induction false} SortStable(v: nat, s: seq<Scored>)
    ensures WithScore(v, SortByScore(s)) == WithScore(v, s)
  {
    if s != [] {
      SortStable(v, s[1..]);
      InsertStable(v, s[0], SortByScore(s[1..]));
    }
  }

  /** `heapq.nlargest(n, s, key=score)` */
  function Largest(n: nat, s: seq<Scored>): seq<Scored> {
    SortByScore(s)[..Min(n, |s|)]
  }

  /** The entries of `s` that score above zero, in order. */
  function Positive(s: seq<Scored>): seq<Scored> {
    if s == [] then [] else (if s[0].score > 0 then [s[0]] else []) + Positive(s[1..])
  }

  lemma {:induction false} PositiveMembers(s: seq<Scored>)
    ensures |Positive(s)| <= |s|
    ensures forall x :: x in Positive(s) <==> x in s && x.score > 0
    ensures NonIncreasing(s) ==> NonIncreasing(Positive(s))
  {
    if s != [] {
      PositiveMembers(s[1..]);
      assert s == [s[0]] + s[1..];
      if NonIncreasing(s) {
        PositiveKeepsOrder(s);
      }
    }
  }

  /** One step of the order argument: the head, when kept, outscores everything kept after it. */
  lemma PositiveKeepsOrder(s: seq<Scored>)
    requires s != [] && NonIncreasing(s)
    requires |Positive(s[1..])| <= |s| - 1
    requires forall x :: x in Positive(s[1..]) <==> x in s[1..] && x.score > 0
    requires NonIncreasing(s[1..]) ==> NonIncreasing(Positive(s[1..]))
    ensures NonIncreasing(Positive(s))
  {
    var t := Positive(s[1..]);
    assert NonIncreasing(s[1..]);
    if s[0].score > 0 {
      forall j | 0 <= j < |t| ensures s[0].score >= t[j].score {
        assert t[j] in s[1..];
        var k :| 0 <= k < |s| - 1 && s[1..][k] == t[j];
        assert s[k + 1] == t[j];
      }
      NonIncreasingCons(s[0], t);
    }
  }

  /** The filter distributes over concatenation, so the kept entries keep their input order. */
  lemma {:induction false} PositiveConcat(a: seq<Scored>, b: seq<Scored>)
    ensures Positive(a + b) == Positive(a) + Positive(b)
    decreases |a|
  {
    if a == [] {
      assert a + b == b;
    } else {
      assert (a + b)[1..] == a[1..] + b;
      PositiveConcat(a[1..], b);
    }
  }

  /** Inserting an entry adds one to the count of positive entries exactly when it is positive. */
  lemma {:induction false} PositiveInsert(x: Scored, s: seq<Scored>)
    ensures |Positive(Insert(x, s))| == |Positive(s)| + (if x.score > 0 then 1 else 0)
    decreases |s|
  {
    if s == [] || s[0].score <= x.score {
      assert ([x] + s)[1..] == s;
    } else {
      PositiveInsert(x, s[1..]);
      assert ([s[0]] + Insert(x, s[1..]))[1..] == Insert(x, s[1..]);
    }
  }

  /** Sorting keeps the number of entries that score above zero. */
  lemma {:induction false} PositiveCountSorted(s: seq<Scored>)
    ensures |Positive(SortByScore(s))| == |Positive(s)|
    decreases |s|
  {
    if s != [] {
      PositiveCountSorted(s[1..]);
      PositiveInsert(s[0], SortByScore(s[1..]));
    }
  }

  lemma {:induction false} NoPositiveWhenAllZero(s: seq<Scored>)
    requires forall k :: 0 <= k < |s| ==> s[k].score == 0
    ensures Positive(s) == []
    decreases |s|
  {
    if s != [] {
      NoPositiveWhenAllZero(s[1..]);
    }
  }

  /** A non-increasing list whose head scores zero has nothing above zero. */
  lemma {:induction false} NothingPositiveAfterZero(s: seq<Scored>)
    requires NonIncreasing(s) && s != [] && s[0].score == 0
    ensures Positive(s) == []
    decreases |s|
  {
    if |s| > 1 {
      assert NonIncreasing(s[1..]);
      NothingPositiveAfterZero(s[1..]);
    }
  }

  /** In a non-increasing list the positive entries come first, so a prefix of length `m`
    * holds `min(m, p)` of the `p` positive entries. */
  lemma {:induction false} PositivePrefixCount(s: seq<Scored>, m: nat)
    requires NonIncreasing(s) && m <= |s|
    ensures |Positive(s[..m])| == Min(m, |Positive(s)|)
    decreases |s|
  {
    if m == 0 {
      assert s[..m] == [];
    } else if s[0].score == 0 {
      NothingPositiveAfterZero(s);
      NothingPositiveAfterZero(s[..m]);
    } else {
      assert s[..m][1..] == s[1..][..m - 1];
      assert NonIncreasing(s[1..]);
      PositivePrefixCount(s[1..], m - 1);
    }
  }

  lemma {:induction false} WithScorePositive(v: nat, s: seq<Scored>)
    ensures WithScore(v, Positive(s)) == if v > 0 then WithScore(v, s) else []
  {
    if s != [] {
      WithScorePositive(v, s[1..]);
      WithScoreConcat(v, if s[0].score > 0 then [s[0]] else [], Positive(s[1..]));
    }
  }

  function Docs(s: seq<Scored>): seq<Document> {
    seq(|s|, k requires 0 <= k < |s| => s[k].doc)
  }

  /** `[d for score, d in top if score > 0]`, before the documents are taken out. */
  function Chosen(scores: seq<Scored>): seq<Scored> {
    Positive(Largest(TopN, scores))
  }

  /** The documents `retrieve` returns for the scored dataset. */
  function Results(scores: seq<Scored>, dataset: seq<Document>): seq<Document> {
    var matched := Docs(Chosen(scores));
    if matched == [] then dataset[..Min(TopN, |dataset|)] else matched
  }

  /** Three entries are chosen, or all the positive ones when there are fewer. */
  lemma ChosenCount(scores: seq<Scored>)
    ensures |Chosen(scores)| == Min(TopN, |Positive(scores)|)
  {
    var sorted := SortByScore(scores);
    PositiveMembers(scores);
    PositivePrefixCount(sorted, Min(TopN, |scores|));
    PositiveCountSorted(scores);
  }

  /** The chosen entries: three, or every positive one when fewer score above zero; all
    * taken from `scores`, and best first. */
  lemma ChosenShape(scores: seq<Scored>)
    ensures |Chosen(scores)| == Min(TopN, |Positive(scores)|)
    ensures forall x :: x in Chosen(scores) ==> x.score > 0 && x in scores
    ensures NonIncreasing(Chosen(scores))
  {
    var sorted := SortByScore(scores);
    var top := sorted[..Min(TopN, |scores|)];
    PositiveMembers(top);
    ChosenCount(scores);
    forall x | x in Chosen(scores) ensures x in scores {
      assert x in top;
      assert x in multiset(sorted);
    }
  }

  /** Among entries with equal scores, the chosen ones come first in `scores` and keep its order. */
  lemma ChosenTiesInOrder(scores: seq<Scored>, v: nat)
    ensures WithScore(v, Chosen(scores)) <= WithScore(v, scores)
  {
    var sorted := SortByScore(scores);
    var k := Min(TopN, |scores|);
    WithScorePositive(v, sorted[..k]);
    assert sorted == sorted[..k] + sorted[k..];
    WithScoreConcat(v, sorted[..k], sorted[k..]);
    SortStable(v, scores);
  }

  /** No entry left out scores higher than an entry chosen. */
  lemma NothingBetterOmitted(scores: seq<Scored>)
    ensures forall x, y :: x in scores && x !in Chosen(scores) && y in Chosen(scores) ==> x.score <= y.score
  {
    forall x, y | x in scores && x !in Chosen(scores) && y in Chosen(scores)
      ensures x.score <= y.score
    {
      OmittedNoBetter(scores, x, y);
    }
  }

  lemma OmittedNoBetter(scores: seq<Scored>, x: Scored, y: Scored)
    requires x in scores && x !in Chosen(scores) && y in Chosen(scores)
    ensures x.score <= y.score
  {
    var sorted := SortByScore(scores);
    var k := Min(TopN, |scores|);
    var top := sorted[..k];
    PositiveMembers(top);
    assert x in multiset(sorted);
    var i :| 0 <= i < |sorted| && sorted[i] == x;
    var j :| 0 <= j < |top| && top[j] == y;
    if i < k {
      assert x in top;
    } else {
      assert sorted[j].score >= sorted[i].score;
    }
  }

  /** When some entry scores above zero, something is chosen. */
  lemma SomethingChosen(scores: seq<Scored>)
    requires exists x :: x in scores && x.score > 0
    ensures Chosen(scores) != []
  {
    var x :| x in scores && x.score > 0;
    var sorted := SortByScore(scores);
    var top := sorted[..Min(TopN, |scores|)];
    assert x in multiset(sorted);
    var i :| 0 <= i < |sorted| && sorted[i] == x;
    assert sorted[0].score >= x.score;
    assert sorted[0] in top;
    PositiveMembers(top);
    assert sorted[0] in Chosen(scores);
  }

  /** `scores` holds one entry per dataset document, in dataset order. */
  predicate Aligned(scores: seq<Scored>, dataset: seq<Document>) {
    |scores| == |dataset| && forall k :: 0 <= k < |scores| ==> scores[k].doc == dataset[k]
  }

  /** At most three documents, all from the dataset, and at least one when the dataset is
    * not empty. */
  lemma ResultsShape(scores: seq<Scored>, dataset: seq<Document>)
    requires Aligned(scores, dataset)
    ensures |Results(scores, dataset)| <= TopN
    ensures |dataset| > 0 ==> |Results(scores, dataset)| >= 1
    ensures forall d :: d in Results(scores, dataset) ==> d in dataset
  {
    ChosenShape(scores);
    var chosen := Chosen(scores);
    forall d | d in Docs(chosen) ensures d in dataset {
      var j :| 0 <= j < |chosen| && Docs(chosen)[j] == d;
      assert chosen[j] in scores;
      var i :| 0 <= i < |scores| && scores[i] == chosen[j];
      assert dataset[i] == d;
    }
  }

  /** When no document shares a word with the query, the first three dataset entries are
    * returned, in order. */
  lemma FallbackWhenNothingMatches(scores: seq<Scored>, dataset: seq<Document>)
    requires Aligned(scores, dataset)
    requires forall k :: 0 <= k < |scores| ==> scores[k].score == 0
    ensures Results(scores, dataset) == dataset[..Min(TopN, |dataset|)]
  {
    NoPositiveWhenAllZero(scores);
    ChosenCount(scores);
  }

  /** When some document shares a word with the query, exactly the chosen documents are
    * returned, every one of them scoring above zero. */
  lemma MatchesWhenSomethingScores(scores: seq<Scored>, dataset: seq<Document>)
    requires Aligned(scores, dataset)
    requires exists k :: 0 <= k < |scores| && scores[k].score > 0
    ensures Results(scores, dataset) == Docs(Chosen(scores))
    ensures forall x :: x in Chosen(scores) ==> x.score > 0
  {
    var k :| 0 <= k < |scores| && scores[k].score > 0;
    assert scores[k] in scores;
    SomethingChosen(scores);
    ChosenShape(scores);
  }

  /** POST /retrieve */
  method Retrieve(req: RetrieveRequest) returns (resp: RetrieveResponse)
    ensures resp.requestId == req.requestId && resp.traceId == req.traceId
    ensures resp.documents == Results(Scores(WordSet(req.query), Dataset), Dataset)
    ensures 1 <= |resp.documents| <= TopN
    ensures forall d :: d in resp.documents ==> d in Dataset
  {
    var queryWords := WordSet(req.query);
    var scores := ScoreAll(queryWords, Dataset);
    assert scores == Scores(queryWords, Dataset);
    var top := Largest(TopN, scores);
    var results := Docs(Positive(top));
    if results == [] {
      results := Dataset[..TopN];
    }
    ResultsShape(scores, Dataset);
    resp := RetrieveResponse(req.requestId, results, req.traceId);
  }
}
