/** The table of canned replies that answers a few general questions
    without calling the generative-text service. */
module Shortcut {
  import opened ChatTypes
  import opened Text

  const Greeting := "Hey there! Ask me something about trade, economics or tarrifs."

  /** `general_questions`: lower-case phrase to canned reply. */
  const GeneralQuestions: map<string, string> := map[
    "who are you" := "I am an AI assistant designed to explain economic policies, particularly tariffs and their impacts.",
    "what can you do" := "I can provide information about U.S. tariffs, their potential effects on prices and imports, and related economic concepts. You can ask me specific questions about tariffs on different countries or products.",
    "tell me a joke" := "I'm still learning how to be funny in the realm of economics!",
    "hello" := Greeting,
    "hi" := Greeting,
    "how are you" := "I'm just a program, but I'm here to help you with your questions about tariffs and trade!"
  ]

  /** The six phrases of the table. */
  const Phrases: set<string> := {"who are you", "what can you do", "tell me a joke", "hello", "hi", "how are you"}

  /** The canned reply for an utterance: its lower-case form, untrimmed, must
      be a key of the table. */
  function CannedReply(table: map<string, string>, utterance: string): (r: Option<string>)
    ensures r.Some? <==> Lower(utterance) in table
    ensures r.Some? ==> r.value == table[Lower(utterance)]
  {
    var lowered := Lower(utterance);
    if lowered in table then Some(table[lowered]) else None
  }

  /** The shortcut hits exactly on the six phrases, ignoring case only. */
  lemma HitsExactlyOnPhrases(utterance: string)
    ensures CannedReply(GeneralQuestions, utterance).Some? <==> Lower(utterance) in Phrases
  {
    PhrasesAreKeys();
  }

  /** Nothing is trimmed: a leading space makes every utterance miss. */
  lemma LeadingSpaceMisses(utterance: string)
    ensures CannedReply(GeneralQuestions, " " + utterance) == None
  {
    assert Lower(" " + utterance)[0] == ' ';
    forall k | k in GeneralQuestions
      ensures |k| == 0 || k[0] != ' '
    {
    }
  }

  /** Nothing is trimmed: a trailing space makes every utterance miss. */
  lemma TrailingSpaceMisses(utterance: string)
    ensures CannedReply(GeneralQuestions, utterance + " ") == None
  {
    var lowered := Lower(utterance + " ");
    assert lowered[|lowered| - 1] == ' ';
    forall k | k in GeneralQuestions
      ensures |k| == 0 || k[|k| - 1] != ' '
    {
    }
  }

  lemma PhrasesAreKeys()
    ensures GeneralQuestions.Keys == Phrases
  {
  }

  /** No phrase is a proper prefix of another. */
  lemma PhrasesPrefixFree(phrase: string, k: string)
    requires phrase in Phrases && k in Phrases && |k| > |phrase|
    ensures k[..|phrase|] != phrase
  {
    if k[0] != phrase[0] {
      assert k[..|phrase|][0] != phrase[0];
    } else if k[1] != phrase[1] {
      assert k[..|phrase|][1] != phrase[1];
    } else {
      assert k[..|phrase|][2] != phrase[2];
    }
  }

  /** Matching is exact, not by prefix: a phrase followed by anything more
      misses, because no phrase of the table extends another. */
  lemma ExtendedPhraseMisses(phrase: string, rest: string)
    requires phrase in GeneralQuestions && rest != []
    ensures CannedReply(GeneralQuestions, phrase + rest) == None
  {
    PhrasesAreKeys();
    LowerConcat(phrase, rest);
    LowerOfLowercase(phrase);
    var lowered := Lower(phrase + rest);
    assert lowered[..|phrase|] == phrase;
    if lowered in Phrases {
      PhrasesPrefixFree(phrase, lowered);
      assert false;
    }
  }

  /** Case is ignored. */
  lemma UpperCaseGreetingHits()
    ensures CannedReply(GeneralQuestions, "Hello") == Some(Greeting)
    ensures CannedReply(GeneralQuestions, "HOW ARE YOU") == Some(GeneralQuestions["how are you"])
  {
    assert Lower("Hello") == "hello";
    assert Lower("HOW ARE YOU") == "how are you";
  }

  /** A question that merely contains a phrase misses, and so does a padded
      phrase. */
  lemma ContainingOrPaddedMisses()
    ensures CannedReply(GeneralQuestions, "hello there") == None
    ensures CannedReply(GeneralQuestions, "  hi  ") == None
  {
    assert "hello" + " there" == "hello there";
    ExtendedPhraseMisses("hello", " there");
    assert " " + " hi  " == "  hi  ";
    LeadingSpaceMisses(" hi  ");
  }
}
