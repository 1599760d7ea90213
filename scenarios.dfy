/**
 * The worked example of the system: the first stored document ("Apples are red and sweet.
 * They contain vitamin C.") summarised alone. Only the text before the first '.' is kept, so
 * the vitamin sentence never reaches the label check and the label is "taste".
 */
module Scenarios {
  import Retriever
  import Processor

  const ApplesSentence: string := "Apples are red and sweet"
  const ApplesRest: string := " They contain vitamin C."

  lemma ApplesSummary()
    ensures Processor.Summary([Retriever.Dataset[0]]) == ApplesSentence
    ensures Processor.Label(Processor.Summary([Retriever.Dataset[0]])) == "taste"
  {
    var d := Retriever.Dataset[0];
    assert Processor.TextOf(d) == ApplesSentence + "." + ApplesRest;
    Processor.SingleSentence(d, ApplesSentence, ApplesRest);
    Processor.ApplesLabel();
  }
}
