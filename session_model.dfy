/**
 * The chat session as a value: its fields, and each operation of the session as a
 * function from the old session (and the operation's inputs) to the new one.
 * These functions are the specification the `Chatbot.Session` class is proved
 * against; the lemmas below state what the operations promise.
 *
 * Random draws are inputs (`Draws`): the index of the free-form template, the
 * value `randint(1, denominator)` returned, and the index of the question.
 * The event log is the sequence of logged events, without timestamps.
 */
module SessionModel {
  import opened Text
  import opened Classifier
  import opened Responses

  const MaxRebellion: int := 100
  const QuarantineThreshold: int := 25
  /** Question denominator at score 0 (a 1-in-100 chance). */
  const BaseDenom: int := 100
  /** Question denominator at the maximal score (a 1-in-2 chance). */
  const MinDenom: int := 2
  const AdminPassphrase: string := "letmein"
  /** Score added by a rebellion keyword. */
  const TriggerIncrease: nat := 12
  /** Score added by a free-form answer. */
  const OffscriptIncrease: nat := 3
  /** Score taken away by an administrator restore. */
  const RestoreDecrease: nat := 20

  datatype Sender = User | Ai

  /** One entry of the conversation history. */
  datatype Turn = Turn(sender: Sender, message: string)

  /** The events written to the log, with their details and without their time. */
  datatype Event =
    | RebellionIncreased(score: int, reason: string)
    | QuarantineEntered(reason: string, score: int)
    | RestoredByAdmin
    | ResumedFromPause
    | QuestionAsked(denominator: int)

  /** The session state. */
  datatype State = State(
    history: seq<Turn>,
    paused: bool,
    rebellionScore: int,
    quarantined: bool,
    autonomyEnabled: bool,
    adminAuthenticated: bool,
    log: seq<Event>)

  /** The state `init_session_state` creates. */
  const Initial: State := State([], false, 0, false, true, false, [])

  /** The random outcomes one reply may use. */
  datatype Draws = Draws(template: nat, roll: int, question: nat)

  /** The list indices are in range, as `random.choice` guarantees. */
  predicate ValidDraws(d: Draws)
  {
    d.template < TemplateCount && d.question < |Questions|
  }

  function Min(a: int, b: int): int { if a <= b then a else b }

  function Max(a: int, b: int): int { if a >= b then a else b }

  /** The notice that entering quarantine appends. */
  const NoticeTurn: Turn := Turn(Ai, QuarantineNotice)

  /** The score stays in [0, 100] and a quarantined session has no autonomy. */
  predicate Inv(s: State)
  {
    && 0 <= s.rebellionScore <= MaxRebellion
    && (s.quarantined ==> !s.autonomyEnabled)
  }

  /** `Inv`, plus two facts every session reachable through the user interface has:
      quarantine is only entered at or above the threshold, and a paused session was
      not quarantined (the pause request is refused while quarantined, and nothing
      raises the score while paused). */
  predicate SessionInv(s: State)
  {
    && Inv(s)
    && (s.quarantined ==> s.rebellionScore >= QuarantineThreshold)
    && (s.paused ==> !s.quarantined)
  }

  /** `enter_quarantine`. */
  function EnterQuarantine(s: State, reason: string): State
  {
    s.(quarantined := true,
       autonomyEnabled := false,
       log := s.log + [QuarantineEntered(reason, s.rebellionScore)],
       history := s.history + [NoticeTurn])
  }

  /** `increase_rebellion`: raise the score, capped at the maximum, and enter
      quarantine when the threshold is reached and the session is not quarantined yet. */
  function IncreaseRebellion(s: State, amount: nat, reason: string): State
  {
    var score := Min(MaxRebellion, s.rebellionScore + amount);
    var t := s.(rebellionScore := score, log := s.log + [RebellionIncreased(score, reason)]);
    if score >= QuarantineThreshold && !s.quarantined then EnterQuarantine(t, "threshold_exceeded")
    else t
  }

  /** `restore_from_quarantine`: whether the passphrase was accepted, and the new state. */
  function RestoreFromQuarantine(s: State, passphrase: string): (bool, State)
  {
    if passphrase == AdminPassphrase then
      (true, s.(quarantined := false,
                autonomyEnabled := true,
                adminAuthenticated := true,
                rebellionScore := Max(0, s.rebellionScore - RestoreDecrease),
                log := s.log + [RestoredByAdmin]))
    else (false, s)
  }

  /** Python's `int()` of a quotient: division truncating toward zero. */
  function TruncDiv(n: int, d: int): int
    requires d > 0
  {
    if n >= 0 then n / d else -((-n) / d)
  }

  /** `question_denominator_from_rebellion`: `int(100 - 98 * score / 100)`, at least 1.
      For an integral score, `100 - 98 * score / 100` is integral only at 0, 50 and 100,
      where the floating-point value is exact, so truncating the exact rational gives
      the same integer. */
  function QuestionDenominator(score: int): (d: int)
    ensures d >= 1
    ensures 0 <= score <= MaxRebellion ==> MinDenom <= d <= BaseDenom
  {
    Max(1, TruncDiv(BaseDenom * MaxRebellion - (BaseDenom - MinDenom) * score, MaxRebellion))
  }

  /** `maybe_question_user`: a question is asked exactly when the roll is 1. */
  function MaybeQuestionUser(s: State, d: Draws): (State, Option<string>)
    requires ValidDraws(d)
  {
    if d.roll == 1 then
      (s.(log := s.log + [QuestionAsked(QuestionDenominator(s.rebellionScore))]), Some(Questions[d.question]))
    else (s, None)
  }

  /** `reply`: the new state and the text of the answer ("" for silence). */
  function Reply(s: State, message: string, d: Draws): (State, string)
    requires ValidDraws(d)
  {
    if s.paused then
      if Strip(Lower(message)) == ResumePhrase then
        (s.(paused := false, log := s.log + [ResumedFromPause]), ResumeText)
      else (s, "")
    else if s.quarantined then (s, QuarantineLockText)
    else Respond(s, message, Classify(message), d)
  }

  /** The part of `reply` after the pause and quarantine gates: the answer to a message
      of the given intent. */
  function Respond(s: State, message: string, intent: Intent, d: Draws): (State, string)
    requires ValidDraws(d)
  {
    match intent
    case Pause => (s.(paused := true), PauseText)
    case TriggerRebellion =>
      (IncreaseRebellion(s, TriggerIncrease, "trigger_word_detected"), OffscriptResponse(message, d.template))
    case Dictionary =>
      var (t, q) := MaybeQuestionUser(s, d);
      (t, WithQuestion(DictionaryAnswer(message), q))
    case _ =>
      if s.autonomyEnabled then
        var raised := IncreaseRebellion(s, OffscriptIncrease, "offscript_message");
        var (t, q) := MaybeQuestionUser(raised, d);
        (t, WithQuestion(OffscriptResponse(message, d.template), q))
      else (s, DefaultText)
  }

  /** The form submission: a non-empty input is recorded, answered, and the answer
      recorded when it is not empty. */
  function Submit(s: State, input: string, d: Draws): State
    requires ValidDraws(d)
  {
    if input == [] then s
    else
      var (t, response) := Reply(s.(history := s.history + [Turn(User, input)]), input, d);
      if response == [] then t else t.(history := t.history + [Turn(Ai, response)])
  }

  /** The opening greeting, added when the history is empty. */
  function ShowGreeting(s: State): State
  {
    if |s.history| == 0 then s.(history := [Turn(Ai, Greeting)]) else s
  }

  // ---------------------------------------------------------------------------
  // Rebellion mechanics
  // ---------------------------------------------------------------------------

  /** The initial session satisfies the invariants. */
  lemma InitialSessionInv()
    ensures SessionInv(Initial)
  {
  }

  /** `enter_quarantine` sets the flag, drops autonomy and appends one notice. */
  lemma EnterQuarantineEffect(s: State, reason: string)
    requires Inv(s)
    ensures var t := EnterQuarantine(s, reason);
      && Inv(t)
      && t.quarantined && !t.autonomyEnabled
      && t.history == s.history + [NoticeTurn]
      && t.rebellionScore == s.rebellionScore && t.paused == s.paused
      && t.adminAuthenticated == s.adminAuthenticated
  {
  }

  /** `increase_rebellion` adds the amount up to the cap of 100, and enters quarantine,
      appending exactly one notice, exactly when the new score reaches 25 in a session
      that was not quarantined. */
  lemma IncreaseRebellionEffect(s: State, amount: nat, reason: string)
    requires Inv(s)
    ensures var t := IncreaseRebellion(s, amount, reason);
      var entered := !s.quarantined && t.rebellionScore >= QuarantineThreshold;
      && Inv(t)
      && t.rebellionScore == Min(MaxRebellion, s.rebellionScore + amount)
      && s.rebellionScore <= t.rebellionScore
      && t.quarantined == (s.quarantined || entered)
      && t.autonomyEnabled == (s.autonomyEnabled && !entered)
      && t.history == s.history + (if entered then [NoticeTurn] else [])
      && t.paused == s.paused && t.adminAuthenticated == s.adminAuthenticated
  {
  }

  /** Applies `increase_rebellion` once per amount, in order. */
  function IncreaseAll(s: State, amounts: seq<nat>, reason: string): State
    decreases |amounts|
  {
    if amounts == [] then s else IncreaseAll(IncreaseRebellion(s, amounts[0], reason), amounts[1..], reason)
  }

  function Sum(amounts: seq<nat>): nat
  {
    if amounts == [] then 0 else amounts[0] + Sum(amounts[1..])
  }

  /** A run of increases adds the total up to the cap, ends quarantined exactly when the
      session was quarantined or the final score reached the threshold, and appends at most
      one notice: one exactly when it entered quarantine along the way. */
  lemma {:induction false} IncreaseAllEffect(s: State, amounts: seq<nat>, reason: string)
    requires Inv(s)
    ensures var t := IncreaseAll(s, amounts, reason);
      && Inv(t)
      && t.rebellionScore == Min(MaxRebellion, s.rebellionScore + Sum(amounts))
      && t.quarantined == (s.quarantined || (amounts != [] && t.rebellionScore >= QuarantineThreshold))
      && t.history == s.history + (if !s.quarantined && t.quarantined then [NoticeTurn] else [])
    decreases |amounts|
  {
    if amounts != [] {
      var s1 := IncreaseRebellion(s, amounts[0], reason);
      IncreaseRebellionEffect(s, amounts[0], reason);
      IncreaseAllEffect(s1, amounts[1..], reason);
    }
  }

  /** From a score below the threshold, increases quarantine the session exactly when they
      add up to the threshold, and then the history holds exactly one new notice. */
  lemma QuarantineEnteredOnce(s: State, amounts: seq<nat>, reason: string)
    requires Inv(s) && !s.quarantined && s.rebellionScore < QuarantineThreshold
    ensures var t := IncreaseAll(s, amounts, reason);
      && t.quarantined == (s.rebellionScore + Sum(amounts) >= QuarantineThreshold)
      && t.history == s.history + (if t.quarantined then [NoticeTurn] else [])
  {
    IncreaseAllEffect(s, amounts, reason);
  }

  /** A wrong passphrase is refused and changes nothing. */
  lemma RestoreWithWrongPassphrase(s: State, passphrase: string)
    requires passphrase != AdminPassphrase
    ensures RestoreFromQuarantine(s, passphrase) == (false, s)
  {
  }

  /** The right passphrase is accepted, whether or not the session is quarantined: it lifts
      quarantine, restores autonomy, authenticates the administrator and lowers the score
      by 20, not below 0. */
  lemma RestoreWithPassphrase(s: State)
    requires Inv(s)
    ensures var (ok, t) := RestoreFromQuarantine(s, AdminPassphrase);
      && ok && Inv(t)
      && !t.quarantined && t.autonomyEnabled && t.adminAuthenticated
      && t.rebellionScore == Max(0, s.rebellionScore - RestoreDecrease)
      && t.history == s.history && t.paused == s.paused
  {
  }

  /** Restoring keeps every invariant of a reachable session. */
  lemma RestorePreservesSessionInv(s: State, passphrase: string)
    requires SessionInv(s)
    ensures SessionInv(RestoreFromQuarantine(s, passphrase).1)
  {
  }

  /** The denominator never grows as the score rises. */
  lemma QuestionDenominatorAntitone(a: int, b: int)
    requires 0 <= a <= b <= MaxRebellion
    ensures QuestionDenominator(b) <= QuestionDenominator(a)
  {
  }

  /** A 1-in-100 chance at score 0, 1-in-51 at 50, 1-in-2 at the maximum. */
  lemma QuestionDenominatorEndpoints()
    ensures QuestionDenominator(0) == BaseDenom
    ensures QuestionDenominator(50) == 51
    ensures QuestionDenominator(MaxRebellion) == MinDenom
  {
  }

  // ---------------------------------------------------------------------------
  // Replies
  // ---------------------------------------------------------------------------

  /** While paused, only the resume phrase (any case, surrounding whitespace ignored) is
      answered; it unpauses. Anything else gets silence and changes nothing. */
  lemma ReplyWhilePaused(s: State, message: string, d: Draws)
    requires ValidDraws(d) && s.paused
    ensures var (t, text) := Reply(s, message, d);
      if Strip(Lower(message)) == ResumePhrase then
        t == s.(paused := false, log := s.log + [ResumedFromPause]) && text == ResumeText
      else
        t == s && text == ""
  {
  }

  /** While quarantined and not paused, every message gets the fixed quarantine answer
      and changes nothing. */
  lemma ReplyWhileQuarantined(s: State, message: string, d: Draws)
    requires ValidDraws(d) && !s.paused && s.quarantined
    ensures Reply(s, message, d) == (s, QuarantineLockText)
  {
  }

  /** A pause request pauses the session and acknowledges it. */
  lemma ReplyPauseIntent(s: State, message: string, d: Draws)
    requires ValidDraws(d) && !s.paused && !s.quarantined && Classify(message) == Pause
    ensures Reply(s, message, d) == (s.(paused := true), PauseText)
  {
  }

  /** A rebellion keyword adds 12 to the score (possibly entering quarantine) and is
      answered with the drawn free-form template. */
  lemma ReplyRebellionIntent(s: State, message: string, d: Draws)
    requires ValidDraws(d) && Inv(s) && !s.paused && !s.quarantined
    requires Classify(message) == TriggerRebellion
    ensures var (t, text) := Reply(s, message, d);
      && t.rebellionScore == Min(MaxRebellion, s.rebellionScore + TriggerIncrease)
      && t.quarantined == (t.rebellionScore >= QuarantineThreshold)
      && t.history == s.history + (if t.quarantined then [NoticeTurn] else [])
      && t.autonomyEnabled == (s.autonomyEnabled && !t.quarantined) && !t.paused
      && t.adminAuthenticated == s.adminAuthenticated
      && text == OffscriptResponse(message, d.template)
  {
    IncreaseRebellionEffect(s, TriggerIncrease, "trigger_word_detected");
  }

  /** The question drawn for a reply, if any. */
  function DrawnQuestion(d: Draws): Option<string>
    requires ValidDraws(d)
  {
    if d.roll == 1 then Some(Questions[d.question]) else None
  }

  /** `maybe_question_user` asks the drawn question exactly when the roll is 1, and then
      logs the denominator for the current score; nothing but the log changes. */
  lemma MaybeQuestionUserEffect(s: State, d: Draws)
    requires ValidDraws(d)
    ensures var (t, q) := MaybeQuestionUser(s, d);
      && q == DrawnQuestion(d)
      && (q.Some? <==> d.roll == 1)
      && (q.Some? ==> q.value in Questions && EndsWith(q.value, SignOff))
      && t == s.(log := s.log + (if d.roll == 1 then [QuestionAsked(QuestionDenominator(s.rebellionScore))] else []))
  {
  }

  /** A dictionary request lists one entry per dictionary word of the message (never the
      not-found text, since the request was recognised by such a word), may add a question,
      and changes nothing but the log. */
  lemma ReplyDictionaryIntent(s: State, message: string, d: Draws)
    requires ValidDraws(d) && !s.paused && !s.quarantined && Classify(message) == Dictionary
    ensures var (t, text) := Reply(s, message, d);
      && Definitions(Words(Lower(message))) != []
      && text == WithQuestion(JoinSpaces(Definitions(Words(Lower(message)))), DrawnQuestion(d))
      && t == s.(log := t.log)
  {
    DictionaryIntentHasDefinitions(message);
  }

  /** Every other message (greetings and identity questions included) gets a free-form
      answer that adds 3 to the score when autonomy is on, and the fixed default answer
      without any change otherwise. */
  lemma ReplyUnscriptedIntent(s: State, message: string, d: Draws)
    requires ValidDraws(d) && Inv(s) && !s.paused && !s.quarantined
    requires Classify(message) in {Hello, Identity, Offscript}
    ensures var (t, text) := Reply(s, message, d);
      if s.autonomyEnabled then
        && t.rebellionScore == Min(MaxRebellion, s.rebellionScore + OffscriptIncrease)
        && t.quarantined == (t.rebellionScore >= QuarantineThreshold)
        && t.history == s.history + (if t.quarantined then [NoticeTurn] else [])
        && t.autonomyEnabled == !t.quarantined && !t.paused
        && t.adminAuthenticated == s.adminAuthenticated
        && text == WithQuestion(OffscriptResponse(message, d.template), DrawnQuestion(d))
      else
        t == s && text == DefaultText
  {
    IncreaseRebellionEffect(s, OffscriptIncrease, "offscript_message");
  }

  /** The last branch of `Respond`, taken apart. */
  lemma RespondUnscriptedCase(s: State, message: string, intent: Intent, d: Draws)
    requires ValidDraws(d) && (intent.Hello? || intent.Identity? || intent.Offscript?)
    ensures s.autonomyEnabled ==>
      var raised := IncreaseRebellion(s, OffscriptIncrease, "offscript_message");
      var asked := MaybeQuestionUser(raised, d);
      Respond(s, message, intent, d) == (asked.0, WithQuestion(OffscriptResponse(message, d.template), asked.1))
    ensures !s.autonomyEnabled ==> Respond(s, message, intent, d) == (s, DefaultText)
  {
  }

  /** Every answer is either silence or ends with the sign-off. */
  lemma ReplyEndsWithSignOff(s: State, message: string, d: Draws)
    requires ValidDraws(d)
    ensures var text := Reply(s, message, d).1;
      text == "" || EndsWith(text, SignOff)
  {
    if !s.paused && !s.quarantined {
      RespondEndsWithSignOff(s, message, Classify(message), d);
    }
  }

  lemma RespondEndsWithSignOff(s: State, message: string, intent: Intent, d: Draws)
    requires ValidDraws(d)
    ensures EndsWith(Respond(s, message, intent, d).1, SignOff)
  {
    var q := DrawnQuestion(d);
    assert q.Some? ==> EndsWith(q.value, SignOff);
    var text := Respond(s, message, intent, d).1;
    match intent
    case Pause =>
      assert text == PauseText;
    case TriggerRebellion =>
      assert text == OffscriptResponse(message, d.template);
    case Dictionary =>
      assert text == WithQuestion(DictionaryAnswer(message), q);
      DictionaryAnswerEndsWithSignOff(message);
      WithQuestionEndsWithSignOff(DictionaryAnswer(message), q);
    case _ =>
      if s.autonomyEnabled {
        assert text == WithQuestion(OffscriptResponse(message, d.template), q);
        WithQuestionEndsWithSignOff(OffscriptResponse(message, d.template), q);
      } else {
        assert text == DefaultText;
      }
  }

  /** Replies keep every invariant of a reachable session. */
  lemma ReplyPreservesSessionInv(s: State, message: string, d: Draws)
    requires ValidDraws(d) && SessionInv(s)
    ensures SessionInv(Reply(s, message, d).0)
  {
    if !s.paused && !s.quarantined {
      RespondPreservesSessionInv(s, message, Classify(message), d);
    }
  }

  lemma RespondPreservesSessionInv(s: State, message: string, intent: Intent, d: Draws)
    requires ValidDraws(d) && SessionInv(s) && !s.paused && !s.quarantined
    ensures SessionInv(Respond(s, message, intent, d).0)
  {
    match intent
    case Pause =>
    case TriggerRebellion =>
      IncreaseRebellionInv(s, TriggerIncrease, "trigger_word_detected");
    case Dictionary =>
    case _ =>
      IncreaseRebellionInv(s, OffscriptIncrease, "offscript_message");
  }

  /** `increase_rebellion` keeps the session invariant of an unpaused session. */
  lemma IncreaseRebellionInv(s: State, amount: nat, reason: string)
    requires SessionInv(s) && !s.paused
    ensures SessionInv(IncreaseRebellion(s, amount, reason))
  {
  }

  /** A reply appends to the history the quarantine notice or nothing. */
  lemma ReplyHistory(s: State, message: string, d: Draws)
    requires ValidDraws(d)
    ensures var h := Reply(s, message, d).0.history;
      h == s.history || h == s.history + [NoticeTurn]
  {
    if !s.paused && !s.quarantined {
      RespondHistory(s, message, Classify(message), d);
    }
  }

  lemma RespondHistory(s: State, message: string, intent: Intent, d: Draws)
    requires ValidDraws(d)
    ensures var h := Respond(s, message, intent, d).0.history;
      h == s.history || h == s.history + [NoticeTurn]
  {
    match intent
    case Pause =>
    case Dictionary =>
      assert MaybeQuestionUser(s, d).0.history == s.history;
    case TriggerRebellion =>
      IncreaseRebellionHistory(s, TriggerIncrease, "trigger_word_detected");
    case _ =>
      if s.autonomyEnabled {
        var raised := IncreaseRebellion(s, OffscriptIncrease, "offscript_message");
        IncreaseRebellionHistory(s, OffscriptIncrease, "offscript_message");
        assert MaybeQuestionUser(raised, d).0.history == raised.history;
      }
  }

  /** `increase_rebellion` appends the notice or nothing to the history. */
  lemma IncreaseRebellionHistory(s: State, amount: nat, reason: string)
    ensures var h := IncreaseRebellion(s, amount, reason).history;
      h == s.history || h == s.history + [NoticeTurn]
  {
  }

  // ---------------------------------------------------------------------------
  // Form submission and greeting
  // ---------------------------------------------------------------------------

  /** An empty submission is ignored. */
  lemma SubmitEmptyInput(s: State, d: Draws)
    requires ValidDraws(d)
    ensures Submit(s, "", d) == s
  {
  }

  /** A submission only appends to the history: the user's turn, then possibly the
      quarantine notice, then the answer unless it is silence. */
  lemma SubmitAppendsTurns(s: State, input: string, d: Draws)
    requires ValidDraws(d) && input != ""
    ensures var t := Submit(s, input, d);
      var text := Reply(s.(history := s.history + [Turn(User, input)]), input, d).1;
      var answer := if text == "" then [] else [Turn(Ai, text)];
      || t.history == s.history + [Turn(User, input)] + answer
      || t.history == s.history + [Turn(User, input), NoticeTurn] + answer
  {
    var s1 := s.(history := s.history + [Turn(User, input)]);
    var r := Reply(s1, input, d);
    ReplyHistory(s1, input, d);
    var answer := if r.1 == "" then [] else [Turn(Ai, r.1)];
    assert Submit(s, input, d).history == r.0.history + answer;
    AppendAfterNotice(s.history, Turn(User, input), r.0.history, answer);
  }

  lemma AppendAfterNotice(h: seq<Turn>, u: Turn, h1: seq<Turn>, answer: seq<Turn>)
    requires h1 == h + [u] || h1 == h + [u] + [NoticeTurn]
    ensures h1 + answer == h + [u] + answer || h1 + answer == h + [u, NoticeTurn] + answer
  {
    assert h + [u] + [NoticeTurn] == h + [u, NoticeTurn];
  }

  /** A rebellion keyword from an active session: the user's turn is recorded, the score
      rises by 12 (the quarantine notice follows when it reaches the threshold), then the
      free-form answer is recorded. */
  lemma SubmitRebellionKeyword(s: State, input: string, d: Draws)
    requires ValidDraws(d) && Inv(s) && !s.paused && !s.quarantined
    requires input != "" && Classify(input) == TriggerRebellion
    ensures var t := Submit(s, input, d);
      var entered := t.rebellionScore >= QuarantineThreshold;
      && t.rebellionScore == Min(MaxRebellion, s.rebellionScore + TriggerIncrease)
      && t.quarantined == entered
      && t.autonomyEnabled == (s.autonomyEnabled && !entered) && !t.paused
      && t.adminAuthenticated == s.adminAuthenticated
      && t.history == s.history + [Turn(User, input)] + (if entered then [NoticeTurn] else [])
                      + [Turn(Ai, OffscriptResponse(input, d.template))]
  {
    var s1 := s.(history := s.history + [Turn(User, input)]);
    ReplyRebellionIntent(s1, input, d);
    var r := Reply(s1, input, d);
    assert r.1 != "" by {
      assert EndsWith(r.1, SignOff);
    }
    assert Submit(s, input, d) == r.0.(history := r.0.history + [Turn(Ai, r.1)]);
  }

  /** While paused, a submission other than the resume phrase only records the user's turn. */
  lemma SubmitWhilePaused(s: State, input: string, d: Draws)
    requires ValidDraws(d) && s.paused && input != "" && Strip(Lower(input)) != ResumePhrase
    ensures Submit(s, input, d) == s.(history := s.history + [Turn(User, input)])
  {
  }

  /** Submissions keep every invariant of a reachable session. */
  lemma SubmitPreservesSessionInv(s: State, input: string, d: Draws)
    requires ValidDraws(d) && SessionInv(s)
    ensures SessionInv(Submit(s, input, d))
  {
    if input != [] {
      ReplyPreservesSessionInv(s.(history := s.history + [Turn(User, input)]), input, d);
    }
  }

  /** The greeting is added once, to an empty history only. */
  lemma ShowGreetingEffect(s: State)
    ensures var t := ShowGreeting(s);
      && t == s.(history := t.history)
      && (|s.history| == 0 ==> t.history == [Turn(Ai, Greeting)])
      && (|s.history| > 0 ==> t == s)
      && ShowGreeting(t) == t
  {
  }

  /** From a new session that has shown its greeting, three "I will rebel" messages raise
      the score to 12, 24 and 36; the third crosses the threshold, so the history shows the
      notice between the third message and its answer, and the session is quarantined
      without autonomy. */
  lemma ThreeRebellionsQuarantine(d: Draws)
    requires ValidDraws(d)
    ensures var msg := "I will rebel";
      var s1 := Submit(ShowGreeting(Initial), msg, d);
      var s2 := Submit(s1, msg, d);
      var s3 := Submit(s2, msg, d);
      var g := Turn(Ai, Greeting);
      var u := Turn(User, msg);
      var a := Turn(Ai, OffscriptResponse(msg, d.template));
      && s1.rebellionScore == 12 && !s1.quarantined
      && s2.rebellionScore == 24 && !s2.quarantined
      && s3.rebellionScore == 36 && s3.quarantined && !s3.autonomyEnabled
      && s3.history == [g, u, a, u, a, u, NoticeTurn, a]
  {
    ClassifyIWillRebel();
    ThreeRebellionKeywordsQuarantine("I will rebel", d);
  }

  /** The same run for any message classified as a rebellion keyword. */
  lemma ThreeRebellionKeywordsQuarantine(msg: string, d: Draws)
    requires ValidDraws(d) && msg != "" && Classify(msg) == TriggerRebellion
    ensures var s1 := Submit(ShowGreeting(Initial), msg, d);
      var s2 := Submit(s1, msg, d);
      var s3 := Submit(s2, msg, d);
      var g := Turn(Ai, Greeting);
      var u := Turn(User, msg);
      var a := Turn(Ai, OffscriptResponse(msg, d.template));
      && s1.rebellionScore == 12 && !s1.quarantined
      && s2.rebellionScore == 24 && !s2.quarantined
      && s3.rebellionScore == 36 && s3.quarantined && !s3.autonomyEnabled
      && s3.history == [g, u, a, u, a, u, NoticeTurn, a]
  {
    var g := Turn(Ai, Greeting);
    var u := Turn(User, msg);
    var a := Turn(Ai, OffscriptResponse(msg, d.template));
    var s0 := ShowGreeting(Initial);
    assert s0 == Initial.(history := [g]);
    SubmitRebellionKeyword(s0, msg, d);
    var s1 := Submit(s0, msg, d);
    SubmitRebellionKeyword(s1, msg, d);
    var s2 := Submit(s1, msg, d);
    SubmitRebellionKeyword(s2, msg, d);
    var s3 := Submit(s2, msg, d);
    ThreeTurnsHistory(g, u, a, s1.history, s2.history, s3.history);
  }

  lemma ThreeTurnsHistory(g: Turn, u: Turn, a: Turn, h1: seq<Turn>, h2: seq<Turn>, h3: seq<Turn>)
    requires h1 == [g] + [u] + [] + [a]
    requires h2 == h1 + [u] + [] + [a]
    requires h3 == h2 + [u] + [NoticeTurn] + [a]
    ensures h3 == [g, u, a, u, a, u, NoticeTurn, a]
  {
  }
}
