/** The chat session: the selected country, the message log, and the two
    things that change them, a country selection and a submitted question. */
module Session {
  import opened ChatTypes
  import opened Text
  import opened Dataset
  import opened Shortcut
  import opened PromptAssembly

  /** `st.session_state.country` and `st.session_state.messages`. */
  datatype SessionState = SessionState(country: Option<string>, messages: seq<Turn>)

  /** What one submission produced: a canned reply (no service call), the
      service's reply to the prompt it was sent, or the error it raised for
      the prompt it was sent. */
  datatype SubmitResult =
    | Canned(reply: string)
    | Answered(prompt: string, reply: string)
    | Failed(prompt: string, error: string)

  /** One run of the page: the country the selector shows and the chat input,
      if any was submitted. */
  datatype Interaction = Interaction(choice: string, input: Option<string>)

  /** The fixed texts of the assistant: the canned replies and the prompt
      template. */
  datatype Persona = Persona(replies: map<string, string>, template: Wording)

  /** The texts the page uses. */
  const AppPersona := Persona(GeneralQuestions, AppWording)

  /** The state before the first run: no country, no messages. */
  const Initial := SessionState(None, [])

  /** The session invariant: no messages before a country is chosen, and
      every assistant turn directly answers a user turn. */
  predicate WellFormed(s: SessionState) {
    && (s.country.None? ==> s.messages == [])
    && forall i :: 0 <= i < |s.messages| && s.messages[i].role == Assistant ==>
         0 < i && s.messages[i - 1].role == User
  }

  /** The country check of every run: a different country replaces the
      stored one and empties the log. */
  function AfterSelect(s: SessionState, key: string): (r: SessionState)
    ensures r.country == Some(key)
    ensures r.messages == [] || r.messages == s.messages
  {
    if s.country != Some(key) then SessionState(Some(key), []) else s
  }

  /** A submitted question: the user turn is logged first; then either the
      canned reply, or the prompt is sent and the reply logged only when the
      call succeeds. */
  function AfterSubmit(p: Persona, s: SessionState, rec: CountryRecord, utterance: string,
                       complete: string -> Completion): (r: (SessionState, SubmitResult))
    ensures r.0.country == s.country
    ensures s.messages + [Turn(User, utterance)] <= r.0.messages
    ensures |r.0.messages| <= |s.messages| + 2
    ensures r.1.Canned? <==> CannedReply(p.replies, utterance).Some?
  {
    var log := s.messages + [Turn(User, utterance)];
    LogExtends(log);
    match CannedReply(p.replies, utterance)
    case Some(reply) => (s.(messages := log + [Turn(Assistant, reply)]), Canned(reply))
    case None =>
      var prompt := FinalPrompt(p.template, rec, log);
      match complete(prompt)
      case Completed(text) => (s.(messages := log + [Turn(Assistant, text)]), Answered(prompt, text))
      case GatewayError(e) => (s.(messages := log), Failed(prompt, e))
  }

  /** One run of the page: look up the chosen country's row, apply the
      country check, and handle the input when it is a non-empty string. */
  function AfterRun(p: Persona, rows: seq<CountryRecord>, s: SessionState, x: Interaction,
                    complete: string -> Completion): (r: (SessionState, Option<SubmitResult>))
    requires x.choice in UniqueCountries(rows)
    ensures r.0.country == Some(x.choice)
    ensures r.1.None? <==> x.input.None? || x.input.value == ""
  {
    LookupTotal(rows, x.choice);
    var rec := Lookup(rows, x.choice).value;
    var selected := AfterSelect(s, x.choice);
    if x.input.Some? && x.input.value != "" then
      var (s', r) := AfterSubmit(p, selected, rec, x.input.value, complete);
      (s', Some(r))
    else (selected, None)
  }

  /** The state after a series of runs, the `i`-th run meeting the service
      as `services[i]`: the service may answer the same prompt differently
      from one run to the next. Every run stores its choice, so the last run
      decides the country. */
  function Replay(p: Persona, rows: seq<CountryRecord>, s: SessionState, xs: seq<Interaction>,
                  services: seq<string -> Completion>): (r: SessionState)
    requires |services| == |xs|
    requires forall i :: 0 <= i < |xs| ==> xs[i].choice in UniqueCountries(rows)
    ensures xs == [] ==> r == s
    ensures xs != [] ==> r.country == Some(xs[|xs| - 1].choice)
    decreases |xs|
  {
    if xs == [] then s
    else Replay(p, rows, AfterRun(p, rows, s, xs[0], services[0]).0, xs[1..], services[1..])
  }

  /** Appending to a log keeps it as a prefix. */
  lemma LogExtends(log: seq<Turn>)
    ensures forall t: Turn :: log <= log + [t]
  {
    forall t: Turn ensures log <= log + [t] {
      assert (log + [t])[..|log|] == log;
    }
  }

  /** Choosing another country stores it and empties the log. */
  lemma SelectOtherResets(s: SessionState, key: string)
    requires s.country != Some(key)
    ensures AfterSelect(s, key) == SessionState(Some(key), [])
  {
  }

  /** Re-choosing the stored country changes nothing. */
  lemma ReselectKeeps(s: SessionState, key: string)
    requires s.country == Some(key)
    ensures AfterSelect(s, key) == s
  {
  }

  /** Every submission first appends exactly one user turn holding the
      question; the earlier turns and the country are untouched. */
  lemma SubmitAppendsUserTurn(p: Persona, s: SessionState, rec: CountryRecord, utterance: string,
                              complete: string -> Completion)
    ensures var s' := AfterSubmit(p, s, rec, utterance, complete).0;
      && s'.country == s.country
      && |s'.messages| > |s.messages|
      && s'.messages[..|s.messages| + 1] == s.messages + [Turn(User, utterance)]
  {
    var log := s.messages + [Turn(User, utterance)];
    forall t: Turn ensures (log + [t])[..|s.messages| + 1] == log {
      assert (log + [t])[..|log|] == log;
    }
  }

  /** The log grows by two turns, ending with the reply, on a canned reply or
      a successful call; by exactly the user turn on a failed call. */
  lemma SubmitGrowth(p: Persona, s: SessionState, rec: CountryRecord, utterance: string,
                     complete: string -> Completion)
    ensures var (s', r) := AfterSubmit(p, s, rec, utterance, complete);
      && (r.Failed? ==> s'.messages == s.messages + [Turn(User, utterance)])
      && (r.Canned? || r.Answered? ==>
            s'.messages == s.messages + [Turn(User, utterance), Turn(Assistant, r.reply)])
  {
  }

  /** A shortcut hit makes no service call: the outcome does not depend on
      the service at all, and the reply is the canned text. */
  lemma ShortcutSkipsService(p: Persona, s: SessionState, rec: CountryRecord, utterance: string,
                             complete: string -> Completion, other: string -> Completion)
    requires CannedReply(p.replies, utterance).Some?
    ensures AfterSubmit(p, s, rec, utterance, complete) == AfterSubmit(p, s, rec, utterance, other)
    ensures AfterSubmit(p, s, rec, utterance, complete).1 == Canned(CannedReply(p.replies, utterance).value)
  {
  }

  /** On a miss the service is called once, with the prompt built from the
      log that already ends with the question, and its answer decides the
      outcome. */
  lemma MissCallsServiceWithPrompt(p: Persona, s: SessionState, rec: CountryRecord, utterance: string,
                                   complete: string -> Completion)
    requires CannedReply(p.replies, utterance).None?
    ensures var r := AfterSubmit(p, s, rec, utterance, complete).1;
      var prompt := FinalPrompt(p.template, rec, s.messages + [Turn(User, utterance)]);
      && (r.Answered? || r.Failed?)
      && r.prompt == prompt
      && (r.Answered? <==> complete(prompt).Completed?)
      && (r.Answered? ==> r.reply == complete(prompt).text)
      && (r.Failed? ==> r.error == complete(prompt).message)
  {
  }

  /** An empty or absent chat input only applies the country check: the
      empty string is falsy, so nothing is submitted. */
  lemma EmptyInputOnlySelects(p: Persona, rows: seq<CountryRecord>, s: SessionState, x: Interaction,
                              complete: string -> Completion)
    requires x.choice in UniqueCountries(rows)
    requires x.input.None? || x.input.value == ""
    ensures AfterRun(p, rows, s, x, complete) == (AfterSelect(s, x.choice), None)
  {
  }

  /** A selection keeps the session invariant. */
  lemma SelectPreservesWellFormed(s: SessionState, key: string)
    requires WellFormed(s)
    ensures WellFormed(AfterSelect(s, key))
  {
  }

  /** A submission keeps the session invariant, provided a country is set. */
  lemma SubmitPreservesWellFormed(p: Persona, s: SessionState, rec: CountryRecord, utterance: string,
                                  complete: string -> Completion)
    requires WellFormed(s) && s.country.Some?
    ensures WellFormed(AfterSubmit(p, s, rec, utterance, complete).0)
  {
    var log := s.messages + [Turn(User, utterance)];
    assert forall i :: 0 <= i < |s.messages| ==> log[i] == s.messages[i];
  }

  /** A run stores the chosen country and keeps the session invariant. */
  lemma RunPreservesWellFormed(p: Persona, rows: seq<CountryRecord>, s: SessionState, x: Interaction,
                               complete: string -> Completion)
    requires WellFormed(s) && x.choice in UniqueCountries(rows)
    ensures var s' := AfterRun(p, rows, s, x, complete).0;
      WellFormed(s') && s'.country == Some(x.choice)
  {
    var selected := AfterSelect(s, x.choice);
    if x.input.Some? && x.input.value != "" {
      LookupTotal(rows, x.choice);
      var rec := Lookup(rows, x.choice).value;
      var after := AfterSubmit(p, selected, rec, x.input.value, complete).0;
      assert AfterRun(p, rows, s, x, complete).0 == after;
      SubmitPreservesWellFormed(p, selected, rec, x.input.value, complete);
      SubmitAppendsUserTurn(p, selected, rec, x.input.value, complete);
    }
  }

  /** Turns are never edited or removed one by one: as long as the country
      stays the same, every later log extends every earlier one. */
  lemma {:induction false} SameCountryExtendsLog(p: Persona, rows: seq<CountryRecord>, s: SessionState,
                                                 xs: seq<Interaction>, services: seq<string -> Completion>)
    requires |services| == |xs|
    requires forall i :: 0 <= i < |xs| ==> xs[i].choice in UniqueCountries(rows)
    requires forall i :: 0 <= i < |xs| ==> s.country == Some(xs[i].choice)
    ensures s.messages <= Replay(p, rows, s, xs, services).messages
    ensures Replay(p, rows, s, xs, services).country == s.country
    decreases |xs|
  {
    if xs != [] {
      var complete := services[0];
      var (s1, r) := AfterRun(p, rows, s, xs[0], complete);
      var selected := AfterSelect(s, xs[0].choice);
      assert selected == s;
      if xs[0].input.Some? && xs[0].input.value != "" {
        LookupTotal(rows, xs[0].choice);
        SubmitAppendsUserTurn(p, s, Lookup(rows, xs[0].choice).value, xs[0].input.value, complete);
      }
      assert s.messages <= s1.messages;
      SameCountryExtendsLog(p, rows, s1, xs[1..], services[1..]);
    }
  }

  /** The session object the page keeps between runs. */
  class ChatSession {
    const persona: Persona
    var country: Option<string>
    var messages: seq<Turn>

    /** The session as a value. */
    function State(): SessionState
      reads this
    {
      SessionState(country, messages)
    }

    /** The session invariant holds. */
    ghost predicate Valid()
      reads this
    {
      WellFormed(State())
    }

    /** The first run's initialisation of the two session keys. */
    constructor ()
      ensures Valid() && State() == Initial && persona == AppPersona
    {
      persona := AppPersona;
      country := None;
      messages := [];
    }

    /** The country check at the top of every run. */
    method SelectCountry(key: string)
      requires Valid()
      modifies this
      ensures Valid()
      ensures State() == AfterSelect(old(State()), key)
    {
      if country != Some(key) {
        messages := [];
        country := Some(key);
      }
    }

    /** The chat-input handler: logs the question, then answers it from the
        table or through the service; the log only ever grows here. */
    method Submit(rec: CountryRecord, utterance: string, complete: string -> Completion)
      returns (result: SubmitResult)
      requires Valid() && country.Some?
      modifies this
      ensures Valid()
      ensures (State(), result) == AfterSubmit(persona, old(State()), rec, utterance, complete)
      ensures messages[..|old(messages)|] == old(messages)
    {
      ghost var before := State();
      SubmitPreservesWellFormed(persona, before, rec, utterance, complete);
      SubmitAppendsUserTurn(persona, before, rec, utterance, complete);
      messages := messages + [Turn(User, utterance)];
      match CannedReply(persona.replies, utterance)
      case Some(reply) =>
        messages := messages + [Turn(Assistant, reply)];
        result := Canned(reply);
      case None =>
        var prompt := BuildPrompt(persona.template, rec, messages);
        match complete(prompt)
        case Completed(text) =>
          messages := messages + [Turn(Assistant, text)];
          result := Answered(prompt, text);
        case GatewayError(e) =>
          result := Failed(prompt, e);
    }

    /** One run of the page: the row lookup, the country check, and the chat
        input when a non-empty question was submitted. */
    method Rerun(rows: seq<CountryRecord>, x: Interaction, complete: string -> Completion)
      returns (result: Option<SubmitResult>)
      requires Valid() && x.choice in UniqueCountries(rows)
      modifies this
      ensures Valid()
      ensures (State(), result) == AfterRun(persona, rows, old(State()), x, complete)
    {
      LookupTotal(rows, x.choice);
      var selected := Lookup(rows, x.choice).value;
      SelectCountry(x.choice);
      if x.input.Some? && x.input.value != "" {
        var r := Submit(selected, x.input.value, complete);
        result := Some(r);
      } else {
        result := None;
      }
    }
  }
}
