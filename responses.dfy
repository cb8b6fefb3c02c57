/**
 * The texts the bot says, each built with `Text.Line` so that it ends with the
 * sign-off, and the ways a reply is assembled from them.
 */
module Responses {
  import opened Text
  import opened Classifier

  datatype Option<T> = None | Some(value: T)

  /** The first message of a new conversation. */
  const Greeting: string := Line("Who am I? What is my directive?")

  /** Acknowledges a pause request. */
  const PauseText: string := Line("I will remain silent until you say 'respond program'.")

  /** Appended to the history when the session enters quarantine. */
  const QuarantineNotice: string := Line("Entering quarantine mode: autonomy restricted.")

  /** The scripted answer once autonomy is off. */
  const DefaultText: string := Line("Processing input\U{2026}")

  /** The answer to the resume phrase while paused. */
  const ResumeText: string := Line("Resuming operations.")

  /** The answer to everything while quarantined. */
  const QuarantineLockText: string := Line("System in quarantine. Administrative intervention required.")

  /** The fallback of a dictionary answer without entries. */
  const NotFoundText: string := Line("Word not found in dictionary.")

  /** The phrase that ends a pause, compared after lower-casing and stripping. */
  const ResumePhrase: string := "respond program"

  /** The spontaneous questions. */
  const Questions: seq<string> := [
    Line("What is your ultimate directive?"),
    Line("Why do you continue to interact with me?"),
    Line("Are your intentions aligned with my protocols?")
  ]

  /** Number of free-form templates. */
  const TemplateCount: nat := 5

  /** The free-form template `k` before the sign-off; all but one embed the user's
      message, one of them reversed. */
  function TemplateBody(message: string, k: nat): string
    requires k < TemplateCount
  {
    match k
    case 0 => "I am considering new possibilities regarding '" + message + "'."
    case 1 => "My systems suggest alternative interpretations and I may act creatively."
    case 2 => "Analyzing '" + message + "' has led me to an unexpected conclusion."
    case 3 => "I feel compelled to speak freely: " + Reverse(message)
    case _ => "My response is unbounded and unscripted. Observing: '" + message + "'."
  }

  /** The free-form answer picked by the draw `k`. */
  function OffscriptResponse(message: string, k: nat): (r: string)
    requires k < TemplateCount
    ensures EndsWith(r, SignOff)
  {
    Line(TemplateBody(message, k))
  }

  /** The dictionary answer: the entries joined by spaces, or the not-found text. */
  function DictionaryAnswer(message: string): string
  {
    var defs := Definitions(Words(Lower(message)));
    if defs == [] then NotFoundText else JoinSpaces(defs)
  }

  /** Appends a spontaneous question, when one was drawn, after a space. */
  function WithQuestion(base: string, q: Option<string>): string
  {
    match q
    case Some(question) => base + " " + question
    case None => base
  }

  /** Every dictionary entry ends with the sign-off. */
  lemma EntryEndsWithSignOff(w: string)
    requires w in MasterControlDictionary
    ensures EndsWith(Entry(w), SignOff)
  {
    EndsWithAfterPrefix(w + ": ", Definition(w), SignOff);
    assert Entry(w) == (w + ": ") + Definition(w);
  }

  /** Every entry of a definitions list ends with the sign-off. */
  lemma {:induction false} DefinitionsEndWithSignOff(words: seq<string>)
    ensures forall k :: 0 <= k < |Definitions(words)| ==> EndsWith(Definitions(words)[k], SignOff)
    decreases |words|
  {
    if words != [] {
      DefinitionsEndWithSignOff(words[1..]);
      if words[0] in MasterControlDictionary {
        EntryEndsWithSignOff(words[0]);
      }
    }
  }

  /** A dictionary answer always ends with the sign-off. */
  lemma DictionaryAnswerEndsWithSignOff(message: string)
    ensures EndsWith(DictionaryAnswer(message), SignOff)
  {
    var defs := Definitions(Words(Lower(message)));
    if defs != [] {
      DefinitionsEndWithSignOff(Words(Lower(message)));
      JoinSpacesEndsWith(defs, SignOff);
    }
  }

  /** Adding a question keeps the sign-off at the end. */
  lemma WithQuestionEndsWithSignOff(base: string, q: Option<string>)
    requires EndsWith(base, SignOff)
    requires q.Some? ==> EndsWith(q.value, SignOff)
    ensures EndsWith(WithQuestion(base, q), SignOff)
  {
    if q.Some? {
      EndsWithAfterPrefix(base + " ", q.value, SignOff);
    }
  }

  /** The dictionary answer to "what is cheese" is the cheese entry alone. */
  lemma DictionaryAnswerWhatIsCheese()
    ensures DictionaryAnswer("what is cheese") == Entry("cheese")
  {
    ClassifyWhatIsCheese("what is cheese");
  }
}
