/** The context assembler: the text sent to the generative-text service
    when the shortcut table has no reply. */
module PromptAssembly {
  import opened ChatTypes
  import opened Text

  /** The fixed text of the context block, as the pieces that surround the
      record's fields. Kept as a value passed around rather than spelled out
      in every definition, so that proofs about the prompt's structure never
      look inside the long literals. */
  datatype Wording = Wording(
    beforeCountry: string,
    beforeTariff: string,
    beforeImportValue: string,
    beforeCategories: string,
    beforeProducts: string,
    beforeImpact: string,
    beforeSuppliers: string,
    afterSuppliers: string)

  /** The page's context block, indentation and blank lines included: the
      role statement, the country's figures, the scope restriction and the
      history header. */
  const AppWording := Wording(
    "\n        You are an AI economic policy explainer. Your primary focus is on U.S. tariffs, their impact on import values, product prices, and related economic policies.\n        \n        Here is the current tariff information for ",
    ":\n        Tariff Imposed by US: ",
    "%\n        Estimated Annual Import Value: $",
    " Billion\n        Top Product Categories: ",
    "\n        Specific Products: ",
    "\n        Use Case Impact: ",
    "\n        Alternative Suppliers: ",
    "\n\n        You should only answer questions that are directly related to these topics. If a question is outside of this scope, politely decline to answer.\n\n\n        Here is the conversation history:\n        ")

  /** The context block filled in with one country's record. */
  function Context(w: Wording, rec: CountryRecord): string {
    w.beforeCountry + rec.country
    + w.beforeTariff + rec.tariffPercent
    + w.beforeImportValue + rec.importValue
    + w.beforeCategories + rec.topCategories
    + w.beforeProducts + rec.specificProducts
    + w.beforeImpact + rec.useCaseImpact
    + w.beforeSuppliers + rec.alternativeSuppliers
    + w.afterSuppliers
  }

  /** One history line, `role: content` and a newline. */
  function Line(t: Turn): string {
    RoleName(t.role) + ": " + t.content + "\n"
  }

  /** The history lines of `turns`, in order. */
  function HistoryText(turns: seq<Turn>): string
    decreases |turns|
  {
    if turns == [] then ""
    else HistoryText(turns[..|turns| - 1]) + Line(turns[|turns| - 1])
  }

  /** The words that make a question ask for resources. */
  const ResourceKeywords: seq<string> := ["resources", "links", "learn more"]

  /** The sentence appended to such a question's prompt. */
  const ResourceRequest := " Also, provide a few relevant resources or links where the user can learn more about this topic."

  const ResponseCue := "\n\nAssistant's response:"

  /** Whether the current question asks for links: some keyword occurs in its
      lower-case form (the `any(...)` over the keywords). */
  function AsksForResources(question: string): (r: bool)
    ensures var lowered := Lower(question);
      r <==> Occurs(lowered, "resources") || Occurs(lowered, "links") || Occurs(lowered, "learn more")
  {
    var lowered := Lower(question);
    ContainsIff(lowered, ResourceKeywords[0]);
    ContainsIff(lowered, ResourceKeywords[1]);
    ContainsIff(lowered, ResourceKeywords[2]);
    exists i | 0 <= i < |ResourceKeywords| :: Contains(lowered, ResourceKeywords[i])
  }

  /** The text after the history: the current-question marker, the question
      and the response cue. */
  function QuestionBlock(question: string): string {
    "\nUser's current question: " + question + ResponseCue
  }

  /** The prompt for a log whose last turn is the current question: every
      earlier turn is re-sent as history, and the link request is added when
      the question asks for resources. */
  function FinalPrompt(w: Wording, rec: CountryRecord, log: seq<Turn>): (r: string)
    requires |log| > 0
    ensures Context(w, rec) + HistoryText(log[..|log| - 1]) <= r
  {
    var question := log[|log| - 1].content;
    var start := Context(w, rec) + HistoryText(log[..|log| - 1]);
    var prompt := start + QuestionBlock(question);
    PrefixOfAppend(start, start, QuestionBlock(question));
    PrefixOfAppend(start, prompt, ResourceRequest);
    if AsksForResources(question) then prompt + ResourceRequest else prompt
  }

  /** Builds the prompt as the source does: a loop that appends one history
      line per earlier turn, then the question block, then the link request
      when it applies. */
  method BuildPrompt(w: Wording, rec: CountryRecord, messages: seq<Turn>) returns (prompt: string)
    requires |messages| > 0
    ensures prompt == FinalPrompt(w, rec, messages)
  {
    var context := Context(w, rec);
    var history := messages[..|messages| - 1];
    for i := 0 to |history|
      invariant context == Context(w, rec) + HistoryText(history[..i])
    {
      assert history[..i + 1][..i] == history[..i];
      AppendAssoc(Context(w, rec), HistoryText(history[..i]), Line(history[i]));
      context := context + Line(history[i]);
    }
    assert history[..|history|] == history;
    var current := messages[|messages| - 1].content;
    prompt := context + QuestionBlock(current);
    if AsksForResources(current) {
      prompt := prompt + ResourceRequest;
    }
  }

  /** The history text of a concatenation is the concatenation of the
      history texts. */
  lemma {:induction false} HistoryAppend(a: seq<Turn>, b: seq<Turn>)
    ensures HistoryText(a + b) == HistoryText(a) + HistoryText(b)
    decreases |b|
  {
    if b == [] {
      assert a + b == a;
    } else {
      var b' := b[..|b| - 1];
      assert (a + b)[..|a + b| - 1] == a + b';
      HistoryAppend(a, b');
      AppendAssoc(HistoryText(a), HistoryText(b'), Line(b[|b| - 1]));
    }
  }

  /** Turn `i` of the history is sent as its own line, right after the
      lines of the turns before it: the history is complete and in order. */
  lemma {:induction false} HistoryLineAt(turns: seq<Turn>, i: int)
    requires 0 <= i < |turns|
    ensures HistoryText(turns[..i]) + Line(turns[i]) <= HistoryText(turns)
  {
    assert turns == turns[..i] + [turns[i]] + turns[i + 1..];
    assert HistoryText([turns[i]]) == Line(turns[i]) by {
      assert [turns[i]][..0] == [];
    }
    HistoryAppend(turns[..i] + [turns[i]], turns[i + 1..]);
    HistoryAppend(turns[..i], [turns[i]]);
  }

  /** The prompt opens with the context block, then lists every turn but
      the last, each in its place; it closes with the last turn's content as
      the current question, followed by the link request or nothing. */
  lemma PromptShape(w: Wording, rec: CountryRecord, log: seq<Turn>, i: int)
    requires |log| > 0 && 0 <= i < |log| - 1
    ensures Context(w, rec) + HistoryText(log[..i]) + Line(log[i]) <= FinalPrompt(w, rec, log)
    ensures var question := log[|log| - 1].content;
      var tail := QuestionBlock(question) + (if AsksForResources(question) then ResourceRequest else "");
      EndsWith(FinalPrompt(w, rec, log), tail)
  {
    var question := log[|log| - 1].content;
    var history := log[..|log| - 1];
    assert history[..i] == log[..i];
    HistoryLineAt(history, i);
    var c := Context(w, rec);
    var h := HistoryText(history);
    var b := QuestionBlock(question);
    PrefixExtend(c, HistoryText(log[..i]) + Line(log[i]), h);
    AppendAssoc(c, HistoryText(log[..i]), Line(log[i]));
    PrefixOfAppend(c + HistoryText(log[..i]) + Line(log[i]), c + h, b);
    if AsksForResources(question) {
      PrefixOfAppend(c + HistoryText(log[..i]) + Line(log[i]), c + h + b, ResourceRequest);
      AppendAssoc(c + h, b, ResourceRequest);
      EndsWithAppend(c + h, b + ResourceRequest);
    } else {
      assert b + "" == b;
      EndsWithAppend(c + h, b);
    }
  }

  /** The link request is appended exactly when some keyword occurs in the
      lower-case question. */
  lemma {:induction false} ResourceRequestIff(w: Wording, rec: CountryRecord, log: seq<Turn>)
    requires |log| > 0
    ensures EndsWith(FinalPrompt(w, rec, log), ResourceRequest)
      <==> var lowered := Lower(log[|log| - 1].content);
           Occurs(lowered, "resources") || Occurs(lowered, "links") || Occurs(lowered, "learn more")
  {
    var question := log[|log| - 1].content;
    var prompt := Context(w, rec) + HistoryText(log[..|log| - 1]) + QuestionBlock(question);
    var lowered := Lower(question);
    ContainsIff(lowered, "resources");
    ContainsIff(lowered, "links");
    ContainsIff(lowered, "learn more");
    assert AsksForResources(question) <==>
      Contains(lowered, ResourceKeywords[0]) || Contains(lowered, ResourceKeywords[1])
      || Contains(lowered, ResourceKeywords[2]);
    if AsksForResources(question) {
      EndsWithAppend(prompt, ResourceRequest);
    } else {
      LastOfAppend(Context(w, rec) + HistoryText(log[..|log| - 1]), QuestionBlock(question));
      assert prompt[|prompt| - 1] == ':';
    }
  }

  /** Conversation memory by re-transmission: after a completed exchange
      `u`, `a`, the next question's prompt re-sends the old history and that
      exchange. */
  lemma {:induction false} NextPromptResendsExchange(log: seq<Turn>, u: Turn, a: Turn, next: Turn)
    ensures var log' := log + [u, a, next];
      HistoryText(log'[..|log'| - 1]) == HistoryText(log) + Line(u) + Line(a)
  {
    var log' := log + [u, a, next];
    assert log'[..|log'| - 1] == log + [u] + [a];
    HistoryAppend(log + [u], [a]);
    HistoryAppend(log, [u]);
    assert [u][..0] == [] && [a][..0] == [];
  }

  /** A lower-case question that names resources asks for them. */
  lemma ResourceExampleHit()
    ensures AsksForResources("show me some resources")
  {
    var s := "show me some resources";
    LowerOfLowercase(s);
    assert OccursAt(Lower(s), "resources", 13);
    ContainsIff(Lower(s), "resources");
    assert Contains(Lower(s), ResourceKeywords[0]);
  }

  /** The keyword test ignores case. */
  lemma ResourceExampleCase()
    ensures AsksForResources("Any LINKS?")
  {
    var t := "Any LINKS?";
    assert Lower(t) == "any links?";
    assert OccursAt(Lower(t), "links", 4);
    ContainsIff(Lower(t), "links");
    assert Contains(Lower(t), ResourceKeywords[1]);
  }

  /** A question with neither an `l` nor an `r` in any case cannot ask for
      resources: every keyword holds one of the two letters. */
  lemma {:induction false} NoResourcesWithoutLOrR(question: string)
    requires 'l' !in Lower(question) && 'r' !in Lower(question)
    ensures !AsksForResources(question)
  {
    MissingCharNotContained(Lower(question), "resources", 'r');
    MissingCharNotContained(Lower(question), "links", 'l');
    MissingCharNotContained(Lower(question), "learn more", 'l');
  }

  /** A question without any keyword does not ask for resources. */
  lemma ResourceExampleMiss()
    ensures !AsksForResources("what is this")
  {
    var n := "what is this";
    LowerOfLowercase(n);
    NoResourcesWithoutLOrR(n);
  }
}
