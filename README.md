# Tariff explainer chat session

A Dafny model of the chat session of the tariff explainer page (`app.py`). The page keeps two session values. One is the selected country, which is `None` at first. The other is the list of `{role, content}` messages. On every run the page does four things:

1. It resolves the country chosen in the selector to the first dataset row with that country.
2. It empties the message list when the chosen country differs from the stored one.
3. If a non-empty question was typed, it logs the question.
4. It answers the question in one of two ways:
   - from a table of six canned replies, looked up by the question's lower-case form;
   - by sending a prompt to a generative-text service. The prompt holds the country's figures, the earlier turns as history, the question and, when the question mentions resources, a request for links. The reply is logged only when the call succeeds.

Modules:

- `ChatTypes` (`chat_types.dfy`): dataset rows, turns, roles and the service's two outcomes.
- `Text` (`text.dfy`):
  - ASCII lower-casing;
  - the substring test behind Python's `in` on strings, proved equal to "occurs at some position";
  - small facts about concatenation.
- `Dataset` (`dataset.dfy`): the selector's options (the distinct countries) and the first-match row lookup.
- `Shortcut` (`shortcut.dfy`): the canned-reply table and its exact-match lookup.
- `PromptAssembly` (`prompt.dfy`): the prompt text as a specification function. It also has `BuildPrompt`, the loop that builds the text as the page does, proved equal to that function.
- `Session` (`session.dfy`): the session as a value, with its transition functions and their lemmas. It also has the `ChatSession` class, whose methods change the two session values in place and are proved to match those transitions.

The service is a parameter `complete: string -> Completion`, so every outcome of a call is covered. A series of runs (`Replay`) takes one such function per run, so the same prompt may succeed in one run and fail in another. The canned replies and the fixed wording of the prompt form a `Persona` value. The class holds it as a constant set to the page's texts, and the transition functions take it as an argument.

Two behaviours follow the code of `app.py` rather than what one might expect from a description of the page:

- The question is not trimmed before the canned-reply lookup. It is only lower-cased, so `" hi"` or `"hi "` miss the table.
- When the service call fails, the question stays in the log. The log grows by exactly one turn and no reply is added.

## Model

| member | source | states |
|---|---|---|
| ChatTypes.RoleName | app.py:107 | the role key is `"user"` exactly for user turns and `"assistant"` exactly for assistant turns |
| Text.Lower | app.py:123 | lower-casing keeps the length, maps each character independently and leaves no upper-case letter |
| Text.LowerIdempotent | app.py:123 | lower-casing a lower-cased string changes nothing |
| Text.Contains | app.py:154 | a hit needs a text at least as long as the word, and a word at the start of the text is always found; its full meaning is stated by Text.ContainsIff |
| Text.ContainsIff | app.py:154 | the left-to-right substring scan is true exactly when the word occurs at some position of the text |
| Text.MissingCharNotContained | app.py:154 | a word holding a character the text lacks is never found in it |
| Dataset.UniqueCountries | app.py:31 | the options are exactly the countries present in the rows, each listed once |
| Dataset.Lookup | app.py:34 | the result is the first row whose country equals the key, and there is none exactly when no row matches |
| Dataset.LookupTotal | app.py:31-34 | every option offered by the selector resolves to a row of that country |
| Dataset.LookupUnique | app.py:34 | when countries are unique, the row found is the one row of that country |
| Shortcut.CannedReply | app.py:123-125 | a reply exists exactly when the lower-cased, untrimmed question is a key of the table, and it is that key's reply |
| Shortcut.PhrasesAreKeys | app.py:114-121 | the table's keys are exactly the six phrases |
| Shortcut.PhrasesPrefixFree | app.py:114-121 | no phrase of the table is a proper prefix of another |
| Shortcut.HitsExactlyOnPhrases | app.py:123-124 | the table answers exactly when the whole lower-cased question is one of the six phrases |
| Shortcut.LeadingSpaceMisses | app.py:123-124 | a question starting with a space never hits, because nothing is trimmed |
| Shortcut.TrailingSpaceMisses | app.py:123-124 | a question ending with a space never hits, because nothing is trimmed |
| Shortcut.ExtendedPhraseMisses | app.py:123-124 | a phrase followed by any further text misses: matching is exact, not by prefix |
| Shortcut.UpperCaseGreetingHits | app.py:118-125 | case is ignored: "Hello" gets the greeting and "HOW ARE YOU" its reply |
| Shortcut.ContainingOrPaddedMisses | app.py:118-124 | "hello there" and "  hi  " both miss |
| PromptAssembly.AsksForResources | app.py:154 | true exactly when "resources", "links" or "learn more" occurs at some position of the lower-cased question |
| PromptAssembly.FinalPrompt | app.py:131-157 | the prompt starts with the context block filled in with the record, followed by every turn but the last; its ending is stated by PromptAssembly.PromptShape and PromptAssembly.ResourceRequestIff |
| PromptAssembly.BuildPrompt | app.py:131-157 | the loop-built prompt equals the specified prompt for the log |
| PromptAssembly.HistoryAppend | app.py:147-148 | the history text of two turn lists concatenated is the concatenation of their texts |
| PromptAssembly.HistoryLineAt | app.py:147-148 | each turn's `role: content` line follows the lines of all turns before it |
| PromptAssembly.PromptShape | app.py:131-152 | the prompt opens with the context block and lists every turn but the last, each in its place; it ends with the current-question marker, the last turn's content, the response cue and then the link request or nothing |
| PromptAssembly.ResourceRequestIff | app.py:154-157 | the prompt ends with the link request if and only if "resources", "links" or "learn more" occurs in the lower-cased question |
| PromptAssembly.NextPromptResendsExchange | app.py:147-148 | after an exchange, the next prompt's history is the old history followed by the question and reply of that exchange |
| PromptAssembly.ResourceExampleHit | app.py:154 | "show me some resources" asks for resources |
| PromptAssembly.ResourceExampleCase | app.py:154 | "Any LINKS?" asks for resources: the test ignores case |
| PromptAssembly.NoResourcesWithoutLOrR | app.py:154 | a question with no `l` and no `r` in any case never asks for resources |
| PromptAssembly.ResourceExampleMiss | app.py:154 | "what is this" does not ask for resources |
| Session.AfterSelect | app.py:37-39 | the chosen country is stored, and the log is either emptied or kept whole |
| Session.AfterSubmit | app.py:106-178 | the country is kept, the old log followed by the question is a prefix of the new log, the log grows by at most two turns, and the result is canned exactly when the table answers |
| Session.AfterRun | app.py:31-39 | a run stores the chosen country, and it submits exactly when the input is present and non-empty |
| Session.Replay | app.py:31-39 | no runs change nothing, and after one or more runs the stored country is the last run's choice |
| Session.SelectOtherResets | app.py:37-39 | choosing another country stores it and empties the log |
| Session.ReselectKeeps | app.py:37-39 | choosing the stored country again changes nothing |
| Session.SubmitAppendsUserTurn | app.py:106-107 | a submission first appends exactly one user turn with the question; earlier turns and the country are untouched |
| Session.SubmitGrowth | app.py:159-178 | after a canned reply or a successful call the log grows by the question and the reply; after a failed call it grows by the question only |
| Session.ShortcutSkipsService | app.py:123-126 | on a table hit the outcome does not depend on the service, and the reply is the canned text |
| Session.MissCallsServiceWithPrompt | app.py:159-163 | on a miss the service gets the prompt built from the log ending with the question; it answers exactly on success, and its text or error is what is reported |
| Session.EmptyInputOnlySelects | app.py:106 | an absent or empty input only applies the country check |
| Session.SelectPreservesWellFormed | app.py:37-39 | the country check keeps the invariant: no turns without a country, and every reply right after a question |
| Session.SubmitPreservesWellFormed | app.py:106-178 | a submission with a country set keeps that invariant |
| Session.RunPreservesWellFormed | app.py:31-39 | a run keeps the invariant and stores the chosen country |
| Session.SameCountryExtendsLog | app.py:37-39 | while the chosen country stays the same, every later log extends the earlier one and the country does not change |
| Session.ChatSession.constructor | app.py:21-26 | the session starts with no country and no messages, holding the page's texts |
| Session.ChatSession.SelectCountry | app.py:37-39 | the in-place country check is the country transition and keeps the invariant |
| Session.ChatSession.Submit | app.py:106-178 | the in-place submission is the submit transition, keeps the invariant and leaves earlier turns untouched |
| Session.ChatSession.Rerun | app.py:31-39 | an in-place run (lookup, country check, then the submission of a non-empty input) is the run transition |

## Left out

- Page rendering is not modelled: page setup, metrics, markdown, chat bubbles, the spinner and the scroll script. It is output with no effect on the session.
- The CSV read is not modelled. The dataset is a given sequence of rows.
- The price simulation and its chart are floating-point display code and are not modelled.
- The service client and the model name are not modelled. The call is the parameter `complete`, and the `Failed` result carries the error text the page shows.
- The "Explore Further" links shown after a successful reply are static output and are not modelled.
- The commented-out code at the end of the file, including the question classifier, is not live behaviour and is not modelled.
- Text.Lower: changes only the ASCII letters `A`–`Z`, while Python's `str.lower()` covers all of Unicode.
- The numeric formatting of record fields is not modelled. A `CountryRecord` holds every field as the text the prompt interpolates.
- How the page reruns between interactions is not modelled. One run is one `Interaction`, and a series of runs is `Replay`.
- Session.AfterRun: requires the chosen country to be one of the dataset's countries, which rules out an empty dataset. With no rows the selector yields `None`, the row filter is empty and `.iloc[0]` raises `IndexError`, so the page stops before any session logic runs; that crash is not modelled.
- Session.ChatSession.Rerun: has the same precondition as Session.AfterRun and leaves out the same empty-dataset crash.
- Session.SubmitPreservesWellFormed: requires a stored country. The page only submits after the country check, which always sets one.
