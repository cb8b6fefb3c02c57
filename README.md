# Master Control chatbot — session model

This project models the core of "Master Control", a scripted chatbot with a
Streamlit front end. A session holds these fields:

- a conversation history;
- a pause flag;
- a rebellion score in [0, 100];
- a quarantine flag;
- an autonomy flag;
- an administrator flag.

Each user message is classified by an ordered list of keyword rules. The answer
depends on the resulting intent:

- a pause request silences the bot until the user says "respond program";
- a message naming one of seven dictionary words is answered with their definitions;
- a rebellion keyword raises the score by 12 and gets a free-form answer;
- any other message, while autonomy is on, raises the score by 3 and gets a
  free-form answer.

When the score reaches 25, the session enters quarantine. Autonomy is then switched
off, a notice is appended to the history, and every message gets the same fixed
answer until an administrator restores the session with the passphrase. Dictionary
answers and the autonomous answer to other messages may end with a spontaneous
question; the answer to a rebellion keyword never does. The chance of a question
is 1 in `question_denominator_from_rebellion()`, which falls from 100 to 2 as the
score rises.

Layout:

- `text.dfy` (`Text`): the string primitives the program uses, restricted to ASCII.
  These are lower-casing, `strip`, substring search, the `\w+` tokeniser, reversal
  and joining with spaces.
- `classifier.dfy` (`Classifier`): `classify`, the dictionary, and the list of
  definitions a dictionary answer is made of.
- `responses.dfy` (`Responses`): the fixed texts, the free-form templates, the
  questions and the assembly of an answer.
- `session_model.dfy` (`SessionModel`): the session as a value. Each operation is
  a function from the old state to the new one. These functions are the
  specification, and the lemmas state what the operations promise.
- `chatbot.dfy` (`Chatbot`): the session as the program keeps it. It is the class
  `Session`, whose methods update its fields in place. Each method is proved to
  produce exactly the state the matching `SessionModel` function gives.

Random choices are inputs, a `Draws` value with three parts:

- the index of the free-form template;
- the value `randint(1, denominator)` returned;
- the index of the question.

The event log is a ghost sequence of `Event`s. It keeps each event's details and
drops its timestamp.

The dictionary maps each word to its definition without the trailing sign-off, and
`Classifier.Definition` adds " end of line" back. Every fixed text is built the same
way, with `Text.Line`. So each text equals the program's string, and "ends with the
sign-off" follows from `Line`'s contract.

The program defines canned `hello` and `identity` answers (streamlit.app.py:21-22),
and `classify` returns those intents. `reply` has no branch for them, so greetings
and identity questions take the free-form path (lines 152-159) like any other
message. They raise the score by 3 while autonomy is on, and get the default answer
otherwise. The canned texts are never used. `ReplyUnscriptedIntent` states this.

## Model

| member | source | states |
|---|---|---|
| Chatbot.Session.constructor | streamlit.app.py:31-43 | a new session is empty, unpaused, at score 0, not quarantined, autonomous, not authenticated, and satisfies the session invariant |
| Chatbot.Session.ShowGreeting | streamlit.app.py:175-176 | the greeting is appended exactly when the history is empty; the invariant is kept |
| Chatbot.Session.EnterQuarantine | streamlit.app.py:62-66 | the object ends in the state `SessionModel.EnterQuarantine` gives |
| Chatbot.Session.IncreaseRebellion | streamlit.app.py:56-60 | the object ends in the state `SessionModel.IncreaseRebellion` gives |
| Chatbot.Session.RestoreFromQuarantine | streamlit.app.py:68-76 | the verdict and new state are those of `SessionModel.RestoreFromQuarantine`; the invariant is kept |
| Chatbot.Session.QuestionDenominator | streamlit.app.py:78-81 | the method computes the denominator of `SessionModel.QuestionDenominator`, which lies between 2 and 100 for a score in [0, 100] |
| Chatbot.Session.MaybeQuestionUser | streamlit.app.py:83-93 | the method computes the denominator first, then returns and logs a question exactly when the roll is 1 |
| Chatbot.Session.Reply | streamlit.app.py:123-134 | the answer and new state are those of `SessionModel.Reply`; the invariant is kept |
| Chatbot.Session.Respond | streamlit.app.py:136-159 | the answer and new state past the gates are those of `SessionModel.Respond` |
| Chatbot.Session.AnswerDictionary | streamlit.app.py:145-150 | the dictionary branch leaves the object in the state, and returns the text, of `SessionModel.Respond` for a dictionary request |
| Chatbot.Session.AnswerUnscripted | streamlit.app.py:152-159 | the last branch leaves the object in the state, and returns the text, of `SessionModel.Respond` for every other intent |
| Chatbot.Session.Submit | streamlit.app.py:195-199 | the new state is that of `SessionModel.Submit`; the invariant is kept |
| SessionModel.QuestionDenominator | streamlit.app.py:78-81 | the denominator is at least 1, and between 2 and 100 for any score in [0, 100] |
| SessionModel.InitialSessionInv | streamlit.app.py:31-43 | the initial session satisfies the session invariant |
| SessionModel.EnterQuarantineEffect | streamlit.app.py:62-66 | entering quarantine sets the flag, turns autonomy off, appends exactly one notice and keeps the score |
| SessionModel.IncreaseRebellionEffect | streamlit.app.py:56-60 | the score becomes min(100, score + amount) and never falls; quarantine is entered, with exactly one notice and autonomy switched off, iff the new score is at least 25 and the session was not quarantined; the other fields are kept |
| SessionModel.IncreaseAllEffect | streamlit.app.py:56-60 | a run of increases adds its total up to the cap of 100 and appends at most one notice: one iff it entered quarantine |
| SessionModel.QuarantineEnteredOnce | streamlit.app.py:56-66 | below the threshold, a run of increases quarantines the session iff the amounts bring the score to 25, and then appends exactly one notice |
| SessionModel.IncreaseRebellionHistory | streamlit.app.py:56-66 | an increase appends the notice or nothing to the history |
| SessionModel.IncreaseRebellionInv | streamlit.app.py:56-66 | an increase keeps the session invariant of an unpaused session |
| SessionModel.RestoreWithWrongPassphrase | streamlit.app.py:68-76 | a wrong passphrase is refused and changes nothing |
| SessionModel.RestoreWithPassphrase | streamlit.app.py:68-76 | the passphrase is accepted, lifts quarantine, restores autonomy, authenticates, lowers the score by 20 to no less than 0, and keeps history and pause |
| SessionModel.RestorePreservesSessionInv | streamlit.app.py:68-76 | restoring keeps the session invariant |
| SessionModel.QuestionDenominatorAntitone | streamlit.app.py:78-81 | a higher score never gives a larger denominator |
| SessionModel.QuestionDenominatorEndpoints | streamlit.app.py:7-8 | the denominator is 100 at score 0, 51 at 50 and 2 at 100 |
| SessionModel.ReplyWhilePaused | streamlit.app.py:124-129 | while paused, only the resume phrase (in any case, with whitespace around it) is answered, and it unpauses; anything else gets silence and no change |
| SessionModel.ReplyWhileQuarantined | streamlit.app.py:131-132 | while quarantined and not paused, every message gets the fixed quarantine answer and no change |
| SessionModel.ReplyPauseIntent | streamlit.app.py:136-138 | a pause request pauses the session and is acknowledged |
| SessionModel.ReplyRebellionIntent | streamlit.app.py:140-143 | a rebellion keyword adds 12 up to the cap, enters quarantine with one notice iff the score reaches 25 (autonomy then drops), and gets the drawn template; the pause and administrator flags are kept |
| SessionModel.MaybeQuestionUserEffect | streamlit.app.py:83-93 | a question is asked exactly when the roll is 1; it is one of the three questions and ends with "end of line"; the log gains the denominator for the current score, and nothing else changes |
| SessionModel.ReplyDictionaryIntent | streamlit.app.py:145-150 | a dictionary request gets at least one entry and never the not-found text, possibly followed by a question; nothing but the log changes |
| SessionModel.ReplyUnscriptedIntent | streamlit.app.py:152-159 | greetings, identity questions and other messages get a free-form answer and add 3 up to the cap while autonomy is on, losing autonomy exactly when quarantine is entered and keeping the pause and administrator flags; otherwise they get the default answer with no change |
| SessionModel.ReplyEndsWithSignOff | streamlit.app.py:123-159 | every answer is silence or ends with "end of line" |
| SessionModel.RespondEndsWithSignOff | streamlit.app.py:134-159 | every answer past the gates ends with "end of line" |
| SessionModel.ReplyPreservesSessionInv | streamlit.app.py:123-159 | a reply keeps the score in [0, 100], quarantine without autonomy, quarantine only at score 25 or more, and pause only outside quarantine |
| SessionModel.RespondPreservesSessionInv | streamlit.app.py:134-159 | the same for the part of the reply past the gates |
| SessionModel.ReplyHistory | streamlit.app.py:123-159 | a reply appends to the history the quarantine notice or nothing |
| SessionModel.RespondHistory | streamlit.app.py:134-159 | the same for the part of the reply past the gates |
| SessionModel.SubmitEmptyInput | streamlit.app.py:195 | an empty input changes nothing |
| SessionModel.SubmitAppendsTurns | streamlit.app.py:195-199 | a submission only appends: the user's turn, possibly the quarantine notice, then the answer unless it is silence |
| SessionModel.SubmitRebellionKeyword | streamlit.app.py:195-199 | a rebellion keyword records the user's turn, raises the score by 12 up to the cap, adds the notice iff the score reaches 25, and records the free-form answer; the pause and administrator flags are kept |
| SessionModel.SubmitWhilePaused | streamlit.app.py:124-129 | while paused, a submission other than the resume phrase only records the user's turn |
| SessionModel.SubmitPreservesSessionInv | streamlit.app.py:195-199 | a submission keeps the session invariant |
| SessionModel.ShowGreetingEffect | streamlit.app.py:175-176 | the greeting is added to an empty history only, nothing else changes, and showing it twice is showing it once |
| SessionModel.ThreeRebellionsQuarantine | streamlit.app.py:140-143 | from a new session after its greeting, three "I will rebel" messages give scores 12, 24 and 36; the third quarantines the session, and the notice sits between the third message and its answer |
| SessionModel.ThreeRebellionKeywordsQuarantine | streamlit.app.py:140-143 | the same for any message classified as a rebellion keyword |
| Classifier.NameLowered | streamlit.app.py:102 | the identity keyword `NAME.lower()` tested here, for the name "Master Control" of line 1, is "master control" |
| Classifier.Definition | streamlit.app.py:10-18 | every definition in the dictionary ends with "end of line" |
| Classifier.DefinitionsEmpty | streamlit.app.py:147 | there is no more than one entry per word, and the list is empty iff no word is in the dictionary |
| Classifier.DefinitionsAppend | streamlit.app.py:147 | the entries of a concatenation are the entries of each part, in order |
| Classifier.DefinitionsOfOne | streamlit.app.py:147 | a single word contributes its entry iff it is a dictionary word |
| Classifier.ClassifyLowerCase | streamlit.app.py:98-99 | a message without capitals is classified as it stands |
| Classifier.ClassifyIgnoresCase | streamlit.app.py:98-99 | classification depends only on the lower-cased message |
| Classifier.DictionaryIntentHasDefinitions | streamlit.app.py:106-107 | a message classified as a dictionary request has at least one entry |
| Classifier.ClassifyHelloThere | streamlit.app.py:100-101 | "hello there" is a greeting |
| Classifier.ClassifyThisIsGreeting | streamlit.app.py:100-101 | "this" is a greeting, because "hi" is tested as a substring |
| Classifier.ClassifyGreetingBeforeRebellion | streamlit.app.py:100-109 | "I will rebel hi" contains "rebel" but is a greeting: the greeting rule comes first |
| Classifier.ClassifyNameBeforeDictionary | streamlit.app.py:102-107 | "master control" is an identity question although both of its words are dictionary words |
| Classifier.ClassifyIWillRebel | streamlit.app.py:98-110 | "I will rebel" triggers rebellion |
| Classifier.ClassifyWhatIsCheese | streamlit.app.py:106-107 | "what is cheese" is a dictionary request whose only entry is the cheese entry |
| Responses.OffscriptResponse | streamlit.app.py:112-121 | each of the five free-form templates ends with "end of line" |
| Responses.EntryEndsWithSignOff | streamlit.app.py:147 | every dictionary entry ends with "end of line" |
| Responses.DefinitionsEndWithSignOff | streamlit.app.py:147 | every entry of a definitions list ends with "end of line" |
| Responses.DictionaryAnswerEndsWithSignOff | streamlit.app.py:146-148 | a dictionary answer, joined entries or the not-found text, ends with "end of line" |
| Responses.WithQuestionEndsWithSignOff | streamlit.app.py:149-150 | appending a question keeps "end of line" at the end |
| Responses.DictionaryAnswerWhatIsCheese | streamlit.app.py:146-148 | the answer to "what is cheese" is the cheese entry alone |
| Text.Lower | streamlit.app.py:99 | lower-casing keeps the length and maps each character |
| Text.Strip | streamlit.app.py:125 | the result is a slice whose ends are not whitespace, and everything cut away is whitespace |
| Text.Words | streamlit.app.py:106 | every token is a non-empty run of word characters |
| Text.WordsOfJoin | streamlit.app.py:106 | tokenising words joined by spaces gives the words back |
| Text.WordsSplit | streamlit.app.py:106 | a separator splits the tokens into those on its left, then those on its right |
| Text.Reverse | streamlit.app.py:118 | reversal keeps the length and mirrors the positions |
| Text.AbsentPair | streamlit.app.py:100-109 | a keyword with an adjacent character pair that never occurs in the message does not occur in it |
| Text.JoinSpacesEndsWith | streamlit.app.py:148 | joining ends the way the last part ends |

## Left out

- The web page is not modelled: the title, the sidebar status display, the widgets and the history rendering (lines 164-171, 178-183, 190-192 and 201-205). The sidebar's restore button is modelled as a call to `RestoreFromQuarantine` with the entered passphrase.
- The form's `send` flag is treated as true whenever an input is submitted.
- Log-file I/O is not modelled. `log_event` reads and rewrites a JSON file and stamps each entry with `time.time()`. Here the log is a ghost sequence of events with their details and without time.
- Randomness is not modelled. `random.choice` and `random.randint` become parameters. The probability of a question (1 in the denominator) is not modelled: only the value the draw returned is, and a question is asked iff it is 1.
- The text functions cover only ASCII. `str.lower`, `str.isspace` and the `\w` class are modelled for ASCII characters; Unicode letters, digits and spaces beyond ASCII are treated as other characters.
- The rebellion score is modelled as an integer, but the program keeps it as a float. Every change adds 12 or 3, or subtracts 20 with a floor at 0, so the score is always a whole number from 0 to 100, where floats are exact.
- SessionModel.QuestionDenominator: the program truncates the float `100 - 98 * (score / 100)`. The model truncates the exact rational value instead. For a whole score this value is an integer only at 0, 50 and 100, where the float is exact, so both truncations agree.
- The canned `hello` and `identity` answers (lines 21-22) are not modelled, since no code path uses them. The one-element lists `pause`, `quarantine` and `default`, from which `random.choice` picks, are modelled as their single text.
- The `amount` and `reason` defaults of `increase_rebellion` and `enter_quarantine` are not modelled, since every call passes both arguments.
