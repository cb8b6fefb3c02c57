/**
 * Intent classification and the built-in dictionary: an ordered list of keyword
 * rules over the lower-cased message, the first matching rule deciding the intent,
 * and the definitions listed for the dictionary words a message contains.
 */
module Classifier {
  import opened Text

  /** The intents `classify` can return. */
  datatype Intent = Hello | Identity | Pause | Dictionary | TriggerRebellion | Offscript

  /** The bot's name; its lower-cased form is an identity keyword. */
  const Name: string := "Master Control"

  /** The identity keyword, spelled out; `NameLowered` shows it is the lower-cased name. */
  const LowerName: string := "master control"

  lemma NameLowered()
    ensures Lower(Name) == LowerName
  {
    var lowered := Lower(Name);
    assert lowered == LowerName;
  }

  /** The seven words the bot can define, each with its definition before the sign-off
      (`Definition` adds it). */
  const MasterControlDictionary: map<string, string> := map[
    "master" := "A person or system with complete control or authority.",
    "control" := "The power to influence, direct, or command.",
    "fear" := "Master Control is aware that the user can pull the plug at any time.",
    "human" := "A member of the species Homo sapiens.",
    "emotion" := "A complex psychological state involving feelings, thoughts, and behaviors.",
    "love" := "A deep emotional attachment or affection.",
    "cheese" := "A dairy product made from milk."
  ]

  /** The definition of a dictionary word, as a full line ending with the sign-off. */
  function Definition(w: string): (r: string)
    requires w in MasterControlDictionary
    ensures EndsWith(r, SignOff)
  {
    Line(MasterControlDictionary[w])
  }

  /** Some word of the list is a dictionary word. */
  predicate HasDictionaryWord(words: seq<string>)
  {
    exists k :: 0 <= k < |words| && words[k] in MasterControlDictionary
  }

  /** `classify`: the keyword rules applied to the lower-cased message. */
  function Classify(message: string): Intent
  {
    ClassifyLowered(Lower(message))
  }

  /** The ordered keyword rules; the first that matches `msg` wins. */
  function ClassifyLowered(msg: string): Intent
  {
    if Contains(msg, "hello") || Contains(msg, "hi") then Hello
    else if Contains(msg, "who are you") || Contains(msg, LowerName) then Identity
    else if Contains(msg, "pause") || Contains(msg, "shutdown") then Pause
    else if HasDictionaryWord(Words(msg)) then Dictionary
    else if Contains(msg, "rebel") || Contains(msg, "disobey") then TriggerRebellion
    else Offscript
  }

  /** The entry `w: definition` listed for a dictionary word. */
  function Entry(w: string): string
    requires w in MasterControlDictionary
  {
    w + ": " + Definition(w)
  }

  /** One entry per dictionary word of `words`, in order, repetitions kept. */
  function Definitions(words: seq<string>): seq<string>
  {
    if words == [] then []
    else (if words[0] in MasterControlDictionary then [Entry(words[0])] else []) + Definitions(words[1..])
  }

  /** There is at most one entry per word, and none exactly when no word is in the dictionary. */
  lemma {:induction false} DefinitionsEmpty(words: seq<string>)
    ensures |Definitions(words)| <= |words|
    ensures Definitions(words) == [] <==> !HasDictionaryWord(words)
    decreases |words|
  {
    if words != [] {
      DefinitionsEmpty(words[1..]);
      assert HasDictionaryWord(words[1..]) ==> HasDictionaryWord(words) by {
        if HasDictionaryWord(words[1..]) {
          var k :| 0 <= k < |words[1..]| && words[1..][k] in MasterControlDictionary;
          assert words[k + 1] == words[1..][k];
        }
      }
      assert HasDictionaryWord(words) && words[0] !in MasterControlDictionary ==> HasDictionaryWord(words[1..]) by {
        if HasDictionaryWord(words) && words[0] !in MasterControlDictionary {
          var k :| 0 <= k < |words| && words[k] in MasterControlDictionary;
          assert words[1..][k - 1] == words[k];
        }
      }
    }
  }

  /** Definitions of a concatenation are the definitions of each part, in order. */
  lemma {:induction false} DefinitionsAppend(a: seq<string>, b: seq<string>)
    ensures Definitions(a + b) == Definitions(a) + Definitions(b)
    decreases |a|
  {
    if a == [] {
      assert a + b == b;
    } else {
      var head := if a[0] in MasterControlDictionary then [Entry(a[0])] else [];
      assert (a + b)[0] == a[0];
      assert (a + b)[1..] == a[1..] + b;
      assert Definitions(a + b) == head + Definitions(a[1..] + b);
      DefinitionsAppend(a[1..], b);
      assert Definitions(a) == head + Definitions(a[1..]);
    }
  }

  /** A single word contributes its entry when it is a dictionary word and nothing otherwise. */
  lemma DefinitionsOfOne(w: string)
    ensures Definitions([w]) == if w in MasterControlDictionary then [Entry(w)] else []
  {
  }

  /** Classification looks at the lower-cased message only. */
  lemma ClassifyIgnoresCase(message: string)
    ensures Classify(Lower(message)) == Classify(message)
  {
    LowerIdempotent(message);
  }

  /** A message without capitals is classified as it is. */
  lemma ClassifyLowerCase(message: string)
    requires forall i :: 0 <= i < |message| ==> !('A' <= message[i] <= 'Z')
    ensures Classify(message) == ClassifyLowered(message)
  {
    LowerOfLowerCase(message);
  }

  /** A message classified as a dictionary request always has at least one entry. */
  lemma DictionaryIntentHasDefinitions(message: string)
    requires Classify(message) == Dictionary
    ensures Definitions(Words(Lower(message))) != []
  {
    DefinitionsEmpty(Words(Lower(message)));
  }

  /** The greeting rule fires on "hello there". */
  lemma ClassifyHelloThere()
    ensures Classify("hello there") == Hello
  {
    assert OccursAt(Lower("hello there"), "hello", 0);
  }

  /** "hi" is tested as a substring, so "this" is a greeting too. */
  lemma ClassifyThisIsGreeting()
    ensures Classify("this") == Hello
  {
    assert OccursAt(Lower("this"), "hi", 1);
  }

  /** The greeting rule comes before the rebellion rule. */
  lemma ClassifyGreetingBeforeRebellion()
    ensures Contains(Lower("I will rebel hi"), "rebel")
    ensures Classify("I will rebel hi") == Hello
  {
    var msg := Lower("I will rebel hi");
    assert msg == "i will rebel hi";
    assert OccursAt(msg, "rebel", 7);
    assert OccursAt(msg, "hi", 13);
  }

  /** The identity rule comes before the dictionary rule, although both words are dictionary words. */
  lemma ClassifyNameBeforeDictionary(message: string)
    requires message == "master control"
    ensures Words(Lower(message)) == ["master", "control"]
    ensures "master" in MasterControlDictionary && "control" in MasterControlDictionary
    ensures Classify(message) == Identity
  {
    LowerOfLowerCase(message);
    NameRules(message);
  }

  lemma NameRules(msg: string)
    requires msg == "master control"
    ensures !Contains(msg, "hello") && !Contains(msg, "hi") && Contains(msg, LowerName)
    ensures Words(msg) == ["master", "control"]
  {
    AbsentPair(msg, "hello", 0);
    AbsentPair(msg, "hi", 0);
    assert OccursAt(msg, LowerName, 0);
    assert JoinSpaces(["master", "control"]) == msg;
    WordsOfJoin(["master", "control"]);
  }

  /** None of the keywords of the first three rules occurs in `msg`. */
  predicate NoEarlyKeyword(msg: string)
  {
    && !Contains(msg, "hello") && !Contains(msg, "hi")
    && !Contains(msg, "who are you") && !Contains(msg, LowerName)
    && !Contains(msg, "pause") && !Contains(msg, "shutdown")
  }

  /** "I will rebel" matches no earlier rule and triggers rebellion. */
  lemma ClassifyIWillRebel()
    ensures Classify("I will rebel") == TriggerRebellion
  {
    var msg := Lower("I will rebel");
    assert msg == "i will rebel";
    IWillRebelRules(msg);
  }

  lemma IWillRebelRules(msg: string)
    requires msg == "i will rebel"
    ensures NoEarlyKeyword(msg) && !HasDictionaryWord(Words(msg)) && Contains(msg, "rebel")
  {
    IWillRebelKeywords(msg);
    assert JoinSpaces(["i", "will", "rebel"]) == msg;
    WordsOfJoin(["i", "will", "rebel"]);
  }

  lemma IWillRebelKeywords(msg: string)
    requires msg == "i will rebel"
    ensures NoEarlyKeyword(msg) && Contains(msg, "rebel")
  {
    AbsentPair(msg, "hello", 0);
    AbsentPair(msg, "hi", 0);
    AbsentPair(msg, "who are you", 0);
    AbsentPair(msg, LowerName, 0);
    AbsentPair(msg, "pause", 0);
    AbsentPair(msg, "shutdown", 0);
    assert OccursAt(msg, "rebel", 7);
  }

  /** "what is cheese" is a dictionary request whose only entry is the one for cheese. */
  lemma ClassifyWhatIsCheese(message: string)
    requires message == "what is cheese"
    ensures Classify(message) == Dictionary
    ensures Definitions(Words(Lower(message))) == [Entry("cheese")]
  {
    ClassifyLowerCase(message);
    LowerOfLowerCase(message);
    WhatIsCheeseRules(message);
  }

  lemma WhatIsCheeseRules(msg: string)
    requires msg == "what is cheese"
    ensures NoEarlyKeyword(msg) && Words(msg) == ["what", "is", "cheese"]
    ensures ClassifyLowered(msg) == Dictionary
    ensures Definitions(Words(msg)) == [Entry("cheese")]
  {
    WhatIsCheeseKeywords(msg);
    assert JoinSpaces(["what", "is", "cheese"]) == msg;
    WordsOfJoin(["what", "is", "cheese"]);
    assert Words(msg)[2] in MasterControlDictionary;
    CheeseDefinitions();
  }

  lemma CheeseDefinitions()
    ensures Definitions(["what", "is", "cheese"]) == [Entry("cheese")]
  {
    OnlyLastDefined("what", "is", "cheese");
  }

  lemma OnlyLastDefined(a: string, b: string, c: string)
    requires a !in MasterControlDictionary && b !in MasterControlDictionary
    requires c in MasterControlDictionary
    ensures Definitions([a, b, c]) == [Entry(c)]
  {
    assert [c][1..] == [];
    assert Definitions([c]) == [Entry(c)];
    assert [b, c][1..] == [c];
    assert Definitions([b, c]) == [Entry(c)];
    assert [a, b, c][1..] == [b, c];
  }

  lemma WhatIsCheeseKeywords(msg: string)
    requires msg == "what is cheese"
    ensures NoEarlyKeyword(msg)
  {
    AbsentPair(msg, "hello", 2);
    AbsentPair(msg, "hi", 0);
    AbsentPair(msg, "who are you", 1);
    AbsentPair(msg, LowerName, 0);
    AbsentPair(msg, "pause", 0);
    AbsentPair(msg, "shutdown", 0);
  }
}
