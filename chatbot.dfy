/**
 * The chat session as the program keeps it: one object whose fields the operations
 * update in place.  Each method is proved to move the session from `old(View())` to
 * the state the matching `SessionModel` function computes, so every property proved
 * about those functions holds of the object as well.
 */
module Chatbot {
  import opened Text
  import opened Classifier
  import opened Responses
  import opened SessionModel

  class Session {
    var history: seq<Turn>
    var paused: bool
    var rebellionScore: int
    var quarantined: bool
    var autonomyEnabled: bool
    var adminAuthenticated: bool
    /** The events the program writes to its log file. */
    ghost var log: seq<Event>

    /** The session as a value. */
    ghost function View(): State
      reads this
    {
      State(history, paused, rebellionScore, quarantined, autonomyEnabled, adminAuthenticated, log)
    }

    /** The invariants every session reachable through the interface keeps. */
    ghost predicate Valid()
      reads this
    {
      SessionInv(View())
    }

    /** `init_session_state` on a fresh session. */
    constructor()
      ensures View() == Initial
      ensures Valid()
    {
      history := [];
      paused := false;
      rebellionScore := 0;
      quarantined := false;
      autonomyEnabled := true;
      adminAuthenticated := false;
      log := [];
    }

    /** Adds the greeting to an empty history. */
    method ShowGreeting()
      requires Valid()
      modifies this
      ensures View() == SessionModel.ShowGreeting(old(View()))
      ensures Valid()
    {
      if |history| == 0 {
        history := history + [Turn(Ai, Greeting)];
      }
    }

    /** `enter_quarantine`. */
    method EnterQuarantine(reason: string)
      modifies this
      ensures View() == SessionModel.EnterQuarantine(old(View()), reason)
    {
      quarantined := true;
      autonomyEnabled := false;
      log := log + [QuarantineEntered(reason, rebellionScore)];
      history := history + [NoticeTurn];
    }

    /** `increase_rebellion`. */
    method IncreaseRebellion(amount: nat, reason: string)
      modifies this
      ensures View() == SessionModel.IncreaseRebellion(old(View()), amount, reason)
    {
      rebellionScore := Min(MaxRebellion, rebellionScore + amount);
      log := log + [RebellionIncreased(rebellionScore, reason)];
      if rebellionScore >= QuarantineThreshold && !quarantined {
        EnterQuarantine("threshold_exceeded");
      }
    }

    /** `restore_from_quarantine`: reports whether the passphrase was accepted. */
    method RestoreFromQuarantine(passphrase: string) returns (ok: bool)
      requires Valid()
      modifies this
      ensures (ok, View()) == SessionModel.RestoreFromQuarantine(old(View()), passphrase)
      ensures Valid()
    {
      RestorePreservesSessionInv(View(), passphrase);
      if passphrase == AdminPassphrase {
        quarantined := false;
        autonomyEnabled := true;
        adminAuthenticated := true;
        rebellionScore := Max(0, rebellionScore - RestoreDecrease);
        log := log + [RestoredByAdmin];
        return true;
      }
      return false;
    }

    /** `question_denominator_from_rebellion`. */
    method QuestionDenominator() returns (d: int)
      ensures d == SessionModel.QuestionDenominator(rebellionScore)
      ensures 0 <= rebellionScore <= MaxRebellion ==> MinDenom <= d <= BaseDenom
    {
      // 100 - 98 * (score / 100), scaled by 100 to stay in integers
      var denom := TruncDiv(BaseDenom * MaxRebellion - (BaseDenom - MinDenom) * rebellionScore, MaxRebellion);
      d := Max(1, denom);
    }

    /** `maybe_question_user`: `roll` is the value `randint(1, denominator)` returned and
        `d.question` the index of the chosen question. */
    method MaybeQuestionUser(d: Draws) returns (q: Option<string>)
      requires ValidDraws(d)
      modifies this
      ensures (View(), q) == SessionModel.MaybeQuestionUser(old(View()), d)
    {
      var denom := QuestionDenominator();
      if d.roll == 1 {
        log := log + [QuestionAsked(denom)];
        return Some(Questions[d.question]);
      }
      return None;
    }

    /** `reply`: answers one message, "" meaning silence. */
    method Reply(message: string, d: Draws) returns (text: string)
      requires ValidDraws(d) && Valid()
      modifies this
      ensures (View(), text) == SessionModel.Reply(old(View()), message, d)
      ensures Valid()
    {
      ghost var before := View();
      ReplyPreservesSessionInv(before, message, d);
      if paused {
        if Strip(Lower(message)) == ResumePhrase {
          paused := false;
          log := log + [ResumedFromPause];
          text := ResumeText;
        } else {
          text := "";
        }
      } else if quarantined {
        text := QuarantineLockText;
      } else {
        text := Respond(message, Classify(message), d);
      }
    }

    /** The answer to a message of a given intent once the gates are passed. */
    method Respond(message: string, intent: Intent, d: Draws) returns (text: string)
      requires ValidDraws(d)
      modifies this
      ensures (View(), text) == SessionModel.Respond(old(View()), message, intent, d)
    {
      match intent
      case Pause =>
        paused := true;
        text := PauseText;
      case TriggerRebellion =>
        IncreaseRebellion(TriggerIncrease, "trigger_word_detected");
        text := OffscriptResponse(message, d.template);
      case Dictionary =>
        text := AnswerDictionary(message, d);
      case _ =>
        text := AnswerUnscripted(message, intent, d);
    }

    /** The dictionary branch of `reply`: the entries, or the not-found text, then maybe a question. */
    method AnswerDictionary(message: string, d: Draws) returns (text: string)
      requires ValidDraws(d)
      modifies this
      ensures (View(), text) == SessionModel.Respond(old(View()), message, Dictionary, d)
    {
      var defs := Definitions(Words(Lower(message)));
      var base := if defs == [] then NotFoundText else JoinSpaces(defs);
      var q := MaybeQuestionUser(d);
      text := WithQuestion(base, q);
    }

    /** The last branch of `reply`: a free-form answer while autonomous, the default text otherwise. */
    method AnswerUnscripted(message: string, intent: Intent, d: Draws) returns (text: string)
      requires ValidDraws(d) && (intent.Hello? || intent.Identity? || intent.Offscript?)
      modifies this
      ensures (View(), text) == SessionModel.Respond(old(View()), message, intent, d)
    {
      ghost var before := View();
      RespondUnscriptedCase(before, message, intent, d);
      if autonomyEnabled {
        IncreaseRebellion(OffscriptIncrease, "offscript_message");
        var off := OffscriptResponse(message, d.template);
        var q := MaybeQuestionUser(d);
        text := WithQuestion(off, q);
      } else {
        text := DefaultText;
      }
    }

    /** The chat form: records a non-empty input, answers it and records a non-empty answer. */
    method Submit(input: string, d: Draws)
      requires ValidDraws(d) && Valid()
      modifies this
      ensures View() == SessionModel.Submit(old(View()), input, d)
      ensures Valid()
    {
      if input != [] {
        history := history + [Turn(User, input)];
        var response := Reply(input, d);
        if response != [] {
          history := history + [Turn(Ai, response)];
        }
      }
    }
  }
}
