/**
 * The processor service: summarises a list of documents by their first sentences
 * (cut to 300 characters) and labels the summary by a prioritised keyword check.
 */
module Processor {
  import opened Wrappers
  import opened Payloads
  import opened Text

  const MaxSummary: nat := 300
  const Ellipsis: string := "..."

  datatype ProcessPayload = ProcessPayload(requestId: string, documents: seq<Document>, traceId: Option<string>)
  datatype ProcessResponse = ProcessResponse(requestId: string, summary: string, labelText: string, traceId: Option<string>)

  /** `Rejected` is the raised HTTP error. */
  datatype Outcome = Processed(response: ProcessResponse) | Rejected(code: int, detail: string)

  /** `d.get("text", "")` */
  function TextOf(d: Document): string {
    if "text" in d then d["text"] else ""
  }

  /** What one document adds to the sentence list: nothing when the text before its first '.'
    * is empty, and otherwise that text stripped (which may itself be empty). */
  function Contribution(d: Document): seq<string> {
    var first := BeforeDot(TextOf(d));
    if first == "" then [] else [Strip(first)]
  }

  /** The sentence list built from `docs`, one contribution per document, in document order. */
  function Sentences(docs: seq<Document>): seq<string> {
    if docs == [] then [] else Sentences(docs[..|docs| - 1]) + Contribution(docs[|docs| - 1])
  }

  /** A document adds at most one sentence, none exactly when the text before its first '.' is
    * empty, and the sentence it adds holds no '.'; a lone document's sentences are its own. */
  lemma ContributionShape(d: Document)
    ensures |Contribution(d)| <= 1
    ensures Contribution(d) == [] <==> BeforeDot(TextOf(d)) == ""
    ensures forall x :: x in Contribution(d) ==> '.' !in x
    ensures Sentences([d]) == Contribution(d)
  {
    var first := BeforeDot(TextOf(d));
    BeforeDotIsFirstPiece(TextOf(d));
    var i, j := StripIsTrimmedSlice(first);
    forall k | 0 <= k < |Strip(first)|
      ensures Strip(first)[k] != '.'
    {
      assert Strip(first)[k] == first[i + k];
    }
    assert [d][..0] == [];
  }

  /** The sentences of a concatenation are the sentences of each part, in order. */
  lemma {:induction false} SentencesConcat(a: seq<Document>, b: seq<Document>)
    ensures Sentences(a + b) == Sentences(a) + Sentences(b)
    decreases |b|
  {
    if b == [] {
      assert a + b == a;
    } else {
      var b', last := b[..|b| - 1], b[|b| - 1];
      assert (a + b)[..|a + b| - 1] == a + b';
      assert (a + b)[|a + b| - 1] == last;
      assert Sentences(a + b) == Sentences(a + b') + Contribution(last);
      SentencesConcat(a, b');
      assert Sentences(b) == Sentences(b') + Contribution(last);
    }
  }

  /** Each document adds at most one sentence, and an empty pre-dot text adds none. */
  lemma {:induction false} SentencesBounded(docs: seq<Document>)
    ensures |Sentences(docs)| <= |docs|
    ensures (forall k :: 0 <= k < |docs| ==> BeforeDot(TextOf(docs[k])) == "") ==> Sentences(docs) == []
  {
    if docs != [] {
      SentencesBounded(docs[..|docs| - 1]);
    }
  }

  /** `s[:297] + "..."` when `s` is longer than 300 characters. */
  function Truncate(s: string): (r: string)
    ensures |r| <= MaxSummary
    ensures |s| <= MaxSummary ==> r == s
    ensures |s| > MaxSummary ==> |r| == MaxSummary && r[..MaxSummary - 3] == s[..MaxSummary - 3]
    ensures |s| > MaxSummary ==> r[MaxSummary - 3..] == Ellipsis
  {
    if |s| > MaxSummary then s[..MaxSummary - |Ellipsis|] + Ellipsis else s
  }

  function Summary(docs: seq<Document>): string {
    Truncate(Join(" ", Sentences(docs)))
  }

  /** The `"vitamin c"` test in the label check is subsumed by the `"vitamin"` test. */
  lemma VitaminCMentionsVitamin(s: string)
    ensures Contains(s, "vitamin c") ==> Contains(s, "vitamin")
  {
    if Contains(s, "vitamin c") {
      assert "vitamin" <= "vitamin c";
      ContainsTransitive(s, "vitamin c", "vitamin");
    }
  }

  /** The label by priority: vitamin, then sweet or sugar, then potassium, else general. */
  function Label(summary: string): (l: string)
    ensures l == "nutrition" <==> Contains(Lower(summary), "vitamin")
    ensures l == "taste" <==>
      !Contains(Lower(summary), "vitamin") &&
      (Contains(Lower(summary), "sweet") || Contains(Lower(summary), "sugar"))
    ensures l == "mineral" <==>
      !Contains(Lower(summary), "vitamin") &&
      !Contains(Lower(summary), "sweet") && !Contains(Lower(summary), "sugar") &&
      Contains(Lower(summary), "potassium")
    ensures l == "general" <==>
      !Contains(Lower(summary), "vitamin") &&
      !Contains(Lower(summary), "sweet") && !Contains(Lower(summary), "sugar") &&
      !Contains(Lower(summary), "potassium")
  {
    var lower := Lower(summary);
    VitaminCMentionsVitamin(lower);
    if Contains(lower, "vitamin") || Contains(lower, "vitamin c") then "nutrition"
    else if Contains(lower, "sweet") || Contains(lower, "sugar") then "taste"
    else if Contains(lower, "potassium") then "mineral"
    else "general"
  }

  /** POST /process */
  method Process(payload: ProcessPayload) returns (out: Outcome)
    ensures out.Rejected? <==> payload.documents == []
    ensures out.Rejected? ==> out == Rejected(400, "No documents to process")
    ensures out.Processed? ==>
      out.response.requestId == payload.requestId && out.response.traceId == payload.traceId
    ensures out.Processed? ==> out.response.summary == Summary(payload.documents)
    ensures out.Processed? ==> |out.response.summary| <= MaxSummary
    ensures out.Processed? ==> out.response.labelText == Label(out.response.summary)
  {
    var docs := payload.documents;
    if docs == [] {
      return Rejected(400, "No documents to process");
    }
    var sentences: seq<string> := [];
    for i := 0 to |docs|
      invariant sentences == Sentences(docs[..i])
    {
      var first := BeforeDot(TextOf(docs[i]));
      if first != "" {
        sentences := sentences + [Strip(first)];
      }
      assert docs[..i + 1][..i] == docs[..i];
    }
    assert docs[..|docs|] == docs;
    var summary := Join(" ", sentences);
    if |summary| > MaxSummary {
      summary := summary[..MaxSummary - 3] + Ellipsis;
    }
    var labelText := "general";
    var lower := Lower(summary);
    if Contains(lower, "vitamin") || Contains(lower, "vitamin c") {
      labelText := "nutrition";
    } else if Contains(lower, "sweet") || Contains(lower, "sugar") {
      labelText := "taste";
    } else if Contains(lower, "potassium") {
      labelText := "mineral";
    }
    return Processed(ProcessResponse(payload.requestId, summary, labelText, payload.traceId));
  }

  /** When the summary is not cut, every contributed sentence appears in it. */
  lemma SentencesInSummary(docs: seq<Document>, k: nat)
    requires k < |Sentences(docs)|
    requires |Join(" ", Sentences(docs))| <= MaxSummary
    ensures Contains(Summary(docs), Sentences(docs)[k])
  {
    JoinContainsParts(" ", Sentences(docs), k);
  }

  /** A document whose text is a clean first sentence, a '.', and more, contributes that sentence. */
  lemma SingleSentence(d: Document, first: string, rest: string)
    requires TextOf(d) == first + "." + rest
    requires '.' !in first && first != [] && !IsSpace(first[0]) && !IsSpace(first[|first| - 1])
    requires |first| <= MaxSummary
    ensures Summary([d]) == first
  {
    BeforeDotOfSentence(first, rest);
    StripUnpadded(first);
    assert [d][..0] == [];
    assert Sentences([d]) == [first];
  }

  /** "Apples are red and sweet" is labelled by its "sweet": it never mentions a vitamin. */
  lemma ApplesLabel()
    ensures Label("Apples are red and sweet") == "taste"
  {
    var front, back := "Apples are red and ", "sweet";
    assert front + back == "Apples are red and sweet";
    LowerConcat(front, back);
    assert Lower(back) == back;
    var lower := Lower(front + back);
    assert back <= lower[|front|..];
    ContainsFromIndex(lower, back, |front|);
    LowerMissing(front + back, 'v');
    MissingFirstChar(lower, "vitamin");
  }
}
