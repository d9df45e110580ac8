# FocusTubes decision core in Dafny

A model of the two decision engines inside the FocusTubes browser extension, with proofs of
their properties.

* **Relevance classification.** The stored task and role become a keyword profile. A video
  title is scored by how many keywords it contains. The score is compared with a threshold
  that depends on the strictness. When an API key is configured, a remote language model is
  asked first. Its decisions, and its failures, are kept in a decision cache keyed by
  `task|title`. The model never returns "no answer": when the remote model abstains, the keyword
  verdict is used.
* **Focus/break timer.** A timer record is started from the popup. Every read advances it
  lazily: before its end time it is returned unchanged; from the end time on, it flips phase
  exactly once and gets a new end time. A countdown is rendered as `m:ss`.
* **One cycle and the popup's updates.** `runFocusFilter` becomes a pure function. Its inputs
  are the loaded state, the API key, the titles on the page, the page, the clock, the cache and
  the network's answers. It returns what the cycle does: the write-back, the timer indicator,
  the per-video marks, the modal and the new cache. The popup's timer button and settings form
  become functions from the loaded state to the state that is saved.

Modules: `Wrappers` (Option), `Text` (the string built-ins the code relies on), `Timer` (starting
a timer, which only the popup does; the lazy phase transition and the countdown display, which
both source files define identically and which are modelled once), `State`
(the persisted configuration), `Relevance`, `Classifier`, `Session` (the cycle) and `Popup`.

Conventions:

* The wall clock is the parameter `now`, in milliseconds. Every clock read within one cycle
  or one popup action is taken at that same instant (see "Left out").
* A network request is represented by its `Outcome`: `Answer(text)`, `Malformed` or `Failed`.
  Within one cycle, `network` maps each title to the outcome a request for it would have, so
  two requests for the same title get the same outcome (see "Left out").
* `parseInt` results are `Option<int>`, with `None` standing for NaN.
* A stored field that the code only tests for truthiness is modelled by its falsy value when it
  is absent.
* A title of `""` stands for both "no title element" and "empty title". The code skips both
  with `!title`.

In the extension, all cache lookups of one cycle happen before any reply of that cycle is
stored. A `forEach` over async calls runs each call up to its first `await`, and every lookup
comes before that point. The model threads the cache through the titles in page order instead.
`ClassifyTitles` and `RunFocusFilter` prove that every verdict equals the verdict against the
cache as the cycle found it. Under the one-outcome-per-title assumption above, both orders agree.

A title containing every keyword is not always relevant. Under `"high"` the threshold is 2, so
a profile with a single keyword never passes, even when the title contains that keyword.
`AllKeywordsPresent` proves the rule with that case excluded, and `SingleKeywordUnderHigh`
exhibits the case.

## Model

| member | source | states |
|---|---|---|
| Text.Lower | contentScript.js:14-16 | lower-casing keeps the length, folds every character and leaves no upper-case letter |
| Text.ContainsIffOccurs | contentScript.js:58 | the substring test holds exactly when the keyword occurs at some position of the text |
| Text.Words | contentScript.js:20-21 | splitting on whitespace gives non-empty words free of whitespace |
| Text.WordsSplitAtSpace | contentScript.js:20-21 | a whitespace character separates: the words of `a`, a whitespace character and `b` are the words of `a` followed by those of `b`; with `WordsUnwords` this makes the words exactly the maximal non-whitespace runs, in order |
| Text.StartsWith | contentScript.js:472 | `startsWith`: the prefix is no longer than the string and equals its first characters |
| Text.Contains | contentScript.js:58 | the empty keyword is contained in every text, and a contained keyword is no longer than the text |
| Text.Decimal | contentScript.js:102 | the rendering of a number is non-empty, digits only, without a leading zero, and one digit exactly below 10 |
| Text.WordsUnwords | contentScript.js:20-21 | splitting words joined by single spaces gives the same words back |
| Text.Trim | popup.js:159 | trimming yields a slice of the input with only whitespace cut from either end; it neither starts nor ends with whitespace, and it is empty exactly when the input is all whitespace |
| Text.DecimalRoundTrip | contentScript.js:102 | reading back the decimal rendering of the minutes gives the number |
| Timer.StartTimer | popup.js:32-40 | a started timer is in the focus phase, ends focusDuration minutes after now, and stores both durations; it is already expired exactly when the focus length is not positive |
| Timer.StartThenAdvance | popup.js:32-61 | with a positive focus length, reading a new timer at its start instant leaves it unchanged |
| Timer.Advance | contentScript.js:77-96 | before the end time the record is returned unchanged; from the end time on there is exactly one phase flip, the new end time is now plus the new phase's length, the durations are kept, and the result differs from the input exactly when the input had expired |
| Timer.CurrentTimerState | popup.js:42-61 | the popup's copy: no record stays no record; a live record is returned as is; an expired one flips phase and ends one full duration of the new phase after now; the durations are always kept |
| Timer.AdvanceSettles | contentScript.js:80-95 | with positive durations the advanced record is fresh at now, and a second read at the same instant changes nothing |
| Timer.AdvanceCycles | popup.js:46-57 | two expiries in a row bring the timer back to its phase, ending one full phase after the second read |
| Timer.RemainingSeconds | contentScript.js:99 | the remaining whole seconds are zero once the end time is reached, and otherwise the floor of the remaining milliseconds over 1000 |
| Timer.TwoDigits | popup.js:67 | padded seconds are exactly two digits and read back as the number |
| Timer.FormatTimeRemaining | contentScript.js:98-103 | the display parses as minutes and two-digit seconds below 60 that add up to the remaining whole seconds, it is "0:00" once the end time has passed, and the minutes have no leading zero |
| Timer.StartShowsFullLength | popup.js:32-68 | a timer just started for f minutes shows "f:00" |
| Relevance.RoleExtras | contentScript.js:26-41 | each known role adds its bonus terms, all longer than two characters; any other role adds none |
| Relevance.TaskTerms | contentScript.js:20-23 | the task terms are exactly the lower-cased whitespace words of the task longer than two characters |
| Relevance.LongLowered | contentScript.js:22-23 | the kept words are exactly the lower-cased input words longer than two characters |
| Relevance.DedupAfter | contentScript.js:43 | the result has no duplicates and holds exactly the input's elements not already seen |
| Relevance.Keywords | contentScript.js:20-43 | the keywords are duplicate-free, are exactly the task terms plus the role's extras, and are each longer than two characters |
| Relevance.Dedup | contentScript.js:43 | deduplication yields a list without duplicates holding exactly the input's elements |
| Relevance.BuildKeywordProfile | contentScript.js:18-50 | there is no profile exactly when the state is absent or its task is empty; otherwise the keywords are duplicate-free, are exactly the task terms plus the role extras, are each longer than two characters, and the strictness defaults to "medium" |
| Relevance.Score | contentScript.js:52-63 | the score is zero for an empty text or an empty keyword list and never exceeds the number of keywords |
| Relevance.RelevanceScore | contentScript.js:52-63 | the counting loop computes the score, which for a duplicate-free list is the number of distinct keywords found in the lower-cased text |
| Relevance.Hit | contentScript.js:57-58 | a keyword scores 1 exactly when it is non-empty and the text includes it |
| Relevance.CountMatches | contentScript.js:55-61 | the recursive count of keywords the text includes, empty keywords skipped; never more than the number of keywords; `RelevanceScore` proves the loop computes it and `CountIsMatchedSetSize` gives its meaning |
| Relevance.CountIsMatchedSetSize | contentScript.js:55-61 | over a duplicate-free list the count equals the size of the set of matched keywords |
| Relevance.Threshold | contentScript.js:65-75 | every threshold lies between 0.5 and 2 |
| Relevance.ThresholdTable | contentScript.js:65-75 | high gives 2, medium 1 and low 0.5, and every other strictness behaves like medium |
| Relevance.KeywordRelevant | contentScript.js:248-252 | a keyword-relevant title is non-empty, meets a non-empty keyword list and matches at least one keyword; under high, exactly two or more matches are needed |
| Relevance.NoKeywordsNeverRelevant | contentScript.js:248 | an empty keyword list is never relevant under any strictness |
| Relevance.LowAgreesWithMedium | contentScript.js:65-75 | on integer scores low and medium decide alike: one match is needed |
| Relevance.HighIsStrictest | contentScript.js:65-75 | a title relevant under high is relevant under every strictness |
| Relevance.AllKeywordsPresent | contentScript.js:251-252 | a text containing every keyword of a non-empty list is relevant, except with a single keyword under high |
| Relevance.SingleKeywordUnderHigh | contentScript.js:67-68 | a one-keyword profile under high rejects a title containing that keyword |
| Relevance.OneKeywordSuffices | contentScript.js:251-252 | below high, one keyword found in the text makes it relevant |
| Relevance.NoKeywordNeverRelevant | contentScript.js:250-252 | a text containing no keyword is never relevant |
| Relevance.RoleExtrasAreKeywords | contentScript.js:30-43 | every bonus term of the role ends up among the keywords |
| Relevance.ProgrammerTutorialScenario | contentScript.js:30-31 | for any task, a programmer at medium strictness finds "Rust Ownership Tutorial for Beginners" relevant |
| Classifier.CacheKey | contentScript.js:175 | the key is the task, a bar, then the title, so both can be read back from it |
| Classifier.CacheKeyInjective | contentScript.js:175 | for one task, different titles never share a cache key |
| Classifier.CacheKeyCollides | contentScript.js:175 | a bar inside the task or the title lets two different pairs share a key |
| Classifier.Interpret | contentScript.js:216-232 | a failed or malformed response becomes an abstention; an answer becomes a decision by the on-topic rule, and an empty answer is a decision against the title |
| Classifier.OnTopicIgnoresCase | contentScript.js:224-226 | the rule decides on the lower-cased answer, so letter case never matters |
| Classifier.OnTopic | contentScript.js:224-226 | the rule on the lower-cased answer; its meaning is stated by `OnTopicByMarkers` (an "on-topic" present and a letter of "off-topic" missing decides for the title), `OffTopicByMarker` ("off-topic" present decides against it) and `OnTopicIgnoresCase` (letter case never matters); its own contract only bounds the length of an accepted answer |
| Classifier.OnTopicByMarkers | contentScript.js:226 | a lower-case answer containing "on-topic" and missing some letter of "off-topic" is on topic |
| Classifier.OffTopicByMarker | contentScript.js:226 | a lower-case answer containing "off-topic" is off topic, whatever else it says |
| Classifier.OnTopicCapitalised | contentScript.js:224-226 | a capitalised answer whose lower-cased form holds "on-topic" and misses a letter of "off-topic" is on topic |
| Classifier.OnTopicExample | contentScript.js:224-226 | the answer "This is on-topic." is a decision for the title, after lower-casing |
| Classifier.BothMarkersExample | contentScript.js:226 | an answer holding both markers is a decision against the title |
| Classifier.NoMarkerIsOffTopic | contentScript.js:218-226 | an empty answer or one with neither marker is a real negative decision, not an abstention |
| Classifier.DecideWithLLM | contentScript.js:174-234 | a cache hit, abstention included, is returned as stored with the cache untouched; a miss interprets the outcome; either way the result is stored under task|title before returning, with every other entry kept |
| Classifier.CacheHitIgnoresNetwork | contentScript.js:176-178 | on a cache hit the network's outcome plays no part, so no request is needed |
| Classifier.AskingAgainRepeats | contentScript.js:227-232 | asking again returns the first answer with any outcome, so an abstention is never retried |
| Classifier.ModeFor | contentScript.js:388 | the remote mode is chosen exactly when the API key is non-empty |
| Classifier.UsesLlm | contentScript.js:242 | the remote classifier is consulted only in the remote mode with a non-empty key; `LlmExactlyWithKey` states when that holds |
| Classifier.LlmExactlyWithKey | contentScript.js:387-392 | an engine built from an API key consults the remote classifier exactly when the key is non-empty |
| Classifier.Verdict | contentScript.js:244-249 | a remote decision wins when present; an abstention falls back to the keyword verdict |
| Classifier.Classify | contentScript.js:242-253 | without the remote classifier it gives the keyword verdict with the cache unchanged; with it, a cached decision is used, a cached abstention or failed request falls back to the keywords, and an answer decides by the on-topic rule; the cache keeps every entry and gains at most this title's key, holding the interpreted answer |
| Classifier.CacheGrowsTransitive | contentScript.js:227-231 | cache growth by interpreted answers composes across calls |
| Classifier.ClassifyStable | contentScript.js:176-177 | decisions stored since the cycle began change no verdict |
| Session.MarkFor | contentScript.js:258-264 | a judged video is never left untouched: it is highlighted exactly when relevant, hidden otherwise |
| Session.ClassifyTitles | contentScript.js:236-265 | every listed video gets exactly one mark: untouched exactly when it has no title, otherwise highlighted or hidden by its verdict against the cycle's starting cache; the only keys added are those of the titled listed videos |
| Session.WatchPageFocus | contentScript.js:471-500 | away from /watch the modal is removed; on a watch page without a title nothing changes; otherwise the modal shows exactly when the verdict is negative; the only key added is the playing video's |
| Session.ApplyFilter | contentScript.js:394-397 | the listed videos and the playing one are classified against the cycle's starting cache: one mark per video, untouched exactly when untitled; the modal removed away from /watch, kept without a title, otherwise removed or shown by the verdict; the cache only grows, with the remote classifier it holds a decision for every judged title, and it gains no key beyond the judged titles' |
| Session.ApplyFilterRepeats | contentScript.js:394-397 | classifying again against the cache a pass left repeats the pass and leaves the cache alone |
| Session.RunFocusFilter | contentScript.js:352-398 | a write-back happens exactly when the active timer advanced; a break suspends filtering; a missing profile or empty keyword list disables it; the indicator shows the advanced timer unless the timer is off or filtering disabled; when filtering applies, every titled video gets one mark by its verdict, the modal is removed away from /watch, kept on a watch page without a title, and otherwise removed or shown by the playing video's verdict, and with an API key every judged title's decision is in the resulting cache, which gains no key beyond the judged titles'; the cache is untouched without an API key, and whenever filtering is suspended or disabled, since no title is then classified |
| Session.KeywordModeIgnoresNetwork | contentScript.js:387-392 | without an API key the network's answers change nothing in a cycle |
| Session.ApplyFilterIgnoresNetwork | contentScript.js:250-252 | without the remote classifier the marks and modal of a pass are the same whatever the network would answer |
| Session.RerunIsStable | contentScript.js:358-364 | with both phase lengths of an active timer positive, re-running a cycle at the same instant on the written-back state and the resulting cache writes nothing more and takes the same actions |
| Session.IndicatorShowsAdvancedTimer | contentScript.js:113-145 | with positive durations, the indicator shows the advanced record itself |
| State.TimerActive | contentScript.js:358 | the timer takes part in a cycle only when a state is loaded, the timer is enabled and a record is present; `TimerOffNeverSuspends` states what a cycle does when it does not |
| Session.TimerOffNeverSuspends | contentScript.js:358-377 | with the timer disabled or cleared, nothing is written back, no indicator is shown and filtering is never suspended |
| Popup.DurationOrDefault | popup.js:141-142 | a duration that parses to a non-zero number is kept, and NaN or 0 gives the fallback |
| Popup.DurationNeverZero | popup.js:176-177 | after defaulting, a duration is never 0 |
| Popup.NegativeBreakUnsettled | popup.js:141-142 | a negative break length is kept by the defaulting, and a timer with it flips again at the instant it flipped |
| Popup.TimerControl | popup.js:132-155 | with a record present, only the record is cleared and timerEnabled is kept; otherwise the timer is enabled, a focus-phase record starts with the chosen durations (25 and 10 minutes by default), both are stored, and every other field of the loaded or empty state is kept |
| Popup.StartThenStop | popup.js:133-151 | a start followed by a stop leaves the timer enabled, with no record, and so inactive |
| Popup.Submit | popup.js:157-184 | a task that is empty after trimming saves nothing; otherwise the trimmed task, role, strictness, submit time, checkbox, defaulted durations, the loaded timer record (or none) and the trimmed API key are saved |
| Popup.SubmitTwice | popup.js:169-179 | submitting the same form again over what was saved saves the same thing |
| Popup.SubmitEnablesProfile | popup.js:159-167 | whatever a submit saves yields a keyword profile |

## Left out

- Storage (`chrome.storage` get, set and change listeners) and the API-key store. They are asynchronous I/O. The loaded state and key are inputs, and writes are outputs.
- DOM work: element and title selection, style injection, and rendering of the modal and the indicator. Also `window.history.back`. Marks, modal actions and the indicator's record are the abstract outputs.
- The `fetch` call, endpoint, prompt text and JSON payload. The request is a foreign network call and is replaced by its `Outcome`.
- The MutationObserver, the one-second `setInterval` ticks in both files, and async re-entrancy. Also last-write-wins races between tabs, and the state being re-read between the two `loadState` calls of the timer button. This is scheduling and concurrency. The tick's write-back decision is the same as the cycle's and is covered there.
- Negative phase lengths. The popup replaces only NaN and 0 (popup.js:141-142, 176-177), so a negative length is stored. `Popup.NegativeBreakUnsettled` shows such a timer flipping again at the instant it flipped, so a rerun of the cycle at that instant writes back again. `RerunIsStable`, `AdvanceSettles` and `IndicatorShowsAdvancedTimer` are proved only for positive lengths.
- Separate clock reads. The source calls `Date.now()` separately for the advance, for the indicator's second advance, and for the countdown. The model uses one instant `now` for all reads in a cycle. `RunFocusFilter`'s indicator clause, `IndicatorShowsAdvancedTimer` and `RerunIsStable` depend on this. If the clock moved between reads, the indicator could show a timer that had flipped once more.
- The popup's `updateTimerStatus` and the loading of saved values into the form. These only display values.
- Full Unicode `toLowerCase` and `\s`. Lower-casing folds only ASCII letters. Whitespace is ASCII whitespace plus the no-break space.
- Repeated requests for one title within a cycle. The source sends one request per uncached listed video, so two videos with the same title make two requests, and their outcomes may differ. If one fails and the other answers, the source marks them differently, and the cache keeps whichever reply came last. The model gives one outcome per title, so it does not cover that case.
- `w.length > 2` counts UTF-16 code units, but the model's `|w|` counts Unicode scalar values. A task word holding characters outside the Basic Multilingual Plane is measured shorter here. For example, a rocket emoji followed by "x" has length 3 in the source, so it is a keyword there and dropped here.
- `split(/\s+/)` also yields empty strings for leading or trailing whitespace. `Words` omits them. The length filter drops them anyway, so the keywords are the same.
- JavaScript numbers beyond 2^53, and exponent notation for minutes above 10^21. Integers are unbounded here.
- Phase strings other than "focus" and "break". Only `startTimer` and the transition write the phase, so no other value arises.
- The order of the keyword list. The source keeps first occurrences. `Dedup` states only "no duplicates, same elements", because the score is a count and is the same under any order.
- Relevance.Score: the function's own contract states only the bounds. Its exact meaning (the number of distinct keywords found) is stated by `RelevanceScore` and `CountIsMatchedSetSize`.
- There is no concrete lemma for a particular title that fails, such as "Funny Cat Compilation 2024" against the task "learn rust ownership". The general rule, that a title containing no keyword is never relevant, is proved as `NoKeywordNeverRelevant`.
