# Verification of the loan-adjudication service

A Dafny 4.11 model of the service's core, with proofs. `dafny verify dfyconfig.toml` checks all of it. Automatic
induction is switched off on every lemma: each induction is written out in its proof.

The model has four parts, each a group of modules.

- **Text.** `CharTable` (Unicode tables as a parameter that agrees with ASCII), `Regex` (a backtracking
  matcher with Python's order of preference, proved equal to a declarative meaning), `Substitution`
  (`Pattern.sub` and when it leaves no match behind), `PiiRedaction`, `JsonRedaction`, `PromptGuard`, `PiiShapes`
  and `InjectionPhrases` (what the two are about, character by character and word by word),
  `PromptGuardGap` (exactly when one sanitizing pass is not enough), `Extraction` (the mock document
  extraction), `PayStub` and `RoundTrip` (the demo's printer, and printing followed by sanitizing and
  extracting), `Rounding` (Python's `round`).
- **Resilience.** `Resilience` (the breaker as a class and its steps as functions), `Interleavings` (the
  breaker under overlapping calls, refined to a function of history), `Probing` (what its documentation
  promises about OPEN and probes), `Retry` (the bounded retry loop around it).
- **Rules.** `Domain` (models, validators, settings) and `Underwriting` (risk, mock bureau, policy, outcome).
- **Workflow.** `Audit`, `Workflow` (state, nodes, graph, checkpoints), `WorkflowRuns` (the invariant of all
  reachable checkpoints), `TrailValues` (the audit trail against the stored values), `PauseResume`,
  `Adjudication` (what whole runs decide), `Wording` (what the chat model can change), `OfflineRuns` (the shipped
  mock configuration), `Service` (`ApplicationService` as a class over the checkpoint store), `SharedBreakers` and
  `SharedService` (runs and the service in a process whose runs share the breakers).

Runs are runs of the graph one node at a time: a node's update is committed when the node returns, and a
node that pauses or raises is run again from its first line. The calls that leave the process (the chat
model's two tasks and the bureau) are arbitrary functions `Services`, and the two helpers that rewrite text
(`sanitize_untrusted_text`, `redact_mapping`) are fields of `World`. A run behind the shared breakers is a run
with services that withhold some answers (`SharedBreakers.BreakersOnlyWithhold`), so that what holds for arbitrary
services holds there too. Results that need the mock services take
`Offline` ones, and results that need the shipped helpers require `World.Shipped`. Arithmetic is exact, over
`real`.

## Where the code and its documentation differ

The model follows the code. Each difference is a proved statement.

- The breaker's docstring (`src/underwriting/infrastructure/resilience.py:86-89`) says that it stays OPEN for
  the recovery timeout and admits a single probe. A call that was in flight when it tripped closes it when it
  succeeds, and a half-open breaker admits everybody: `Probing.StaysOpenIffNothingInFlight`,
  `Probing.InFlightSuccessCloses`, `Probing.ManyProbesAtOnce`. Without overlap, too, an aborted probe lets the next
  one start at once: `Probing.AbortedProbesAreFree`.
- The comment at `src/underwriting/service/nodes.py:302-303` says that what precedes `interrupt()` runs once. It
  runs again on resumption, so the request is logged again, though committed once:
  `PauseResume.RequestedOnceLoggedAgain`.
- README.md of the repository says that the model never decides. The explaining call decides nothing
  (`Wording.ExplainingDecidesNothing`), but the extracting call is a call of the same model, and its answer
  alone can turn an automatic approval into an automatic denial (`Wording.ExtractingDecides`).
- `redact_mapping` is documented to mask every sensitive key. It does not walk a list directly inside a list:
  `JsonRedaction.ScrubbedIff` is the exact reach and `JsonRedaction.NestedSsnLeaks` an input that escapes. No
  audit event of the graph has such a list, so the details of all of them are scrubbed (`WorkflowRuns.InvokeLogsScrubbed`).
- `src/underwriting/infrastructure/audit_log.py:18-20` says that every event passes through `redact_mapping`.
  Only its details do: the actor `human_reviewer:<id>` carries the reviewer id, a sensitive key elsewhere, as it
  is: `WorkflowRuns.ReviewerIsNamedVerbatim`, and `WorkflowRuns.ReviewerIdLeaks` for an id that redaction would
  change.
- `redact_text` is documented as idempotent because the placeholder matches no pattern. That is not enough by
  itself; what makes it true is that no pass creates a word boundary or adjacency for an earlier pattern
  (`PiiRedaction.LaterPassesInsulate`).
- The first adverse reason says that the ratio exceeds the threshold. It is also given, at any ratio, when only
  the POOR band made the tier HIGH: `Underwriting.DtiReasonIff`.
- The docstring at `src/underwriting/service/application_service.py:44-48` says that all per-application state lives
  in the checkpointer. The breakers are state that all applications share: one valid application with an amount of
  commas trips the breaker of the model, the mock included, and applications that come within the timeout are stuck
  in front of extraction: `SharedBreakers.OfflineBehindIff`, `SharedService.IsolatedIffLate`,
  `SharedService.NotIsolated`. Without such a document runs are isolated: `SharedService.IsolatedWithoutPoison`.
- The status `awaiting_escalation` is also reported for a run that is stuck at a node that raised:
  `Service.StartLooksPausedIff` and `Service.ResolveLooksPausedIff` say for which inputs,
  `Service.FailedRunLooksPaused` shows one.

## Model

| member | source | states |
|---|---|---|
| Regex.EndsAreMatches | src/underwriting/infrastructure/pii_redaction.py:31-36 | The backtracking matcher finds an end exactly when the declarative meaning of the pattern allows it, for every pattern, text and position |
| Regex.FindIffNotClean | src/underwriting/infrastructure/prompt_guard.py:55-58 | `search` succeeds exactly when some part of the text is an instance of the pattern |
| Regex.Transfer | src/underwriting/infrastructure/pii_redaction.py:31-36 | A match carries over to any other text that agrees on the consumed characters and on the context looked at |
| Substitution.BecomesClean | src/underwriting/infrastructure/pii_redaction.py:63-65 | After its own pass an insulated pattern matches nowhere |
| Substitution.StaysClean | src/underwriting/infrastructure/pii_redaction.py:63-65 | A later pass cannot bring about a match of an insulated pattern, word boundaries included |
| Substitution.OnlyCutsChange | src/underwriting/infrastructure/pii_redaction.py:63-65 | A pass copies everything but the matches it cuts out |
| Substitution.CutsAreMatches | src/underwriting/infrastructure/pii_redaction.py:63-65 | Each cut is the preferred match at its place, each copied character is one where no match starts |
| Substitution.PassesMarks | src/underwriting/infrastructure/prompt_guard.py:55-59 | A sequence of passes leaves a text alone exactly when none of its patterns matches it |
| Substitution.PassesCutInput | src/underwriting/infrastructure/prompt_guard.py:55-59 | Passes that leave placeholders alone amount to cutting pieces out of the input all at once: the pieces make up the input, and with placeholders for the cuts they are the output |
| PiiRedaction.RedactText | src/underwriting/infrastructure/pii_redaction.py:54-66 | The loop with its early exit computes the four passes in order |
| PiiRedaction.NothingIsLeft | src/underwriting/infrastructure/pii_redaction.py:31-66 | For every text, no email, SSN, phone or card pattern matches anywhere in the output |
| PiiRedaction.UnchangedIffNothingMatches | src/underwriting/infrastructure/pii_redaction.py:54-66 | A text comes back unchanged exactly when no pattern matches it |
| PiiRedaction.RedactionIsIdempotent | src/underwriting/infrastructure/pii_redaction.py:54-66 | Redacting redacted text changes nothing, for every text |
| PiiRedaction.LaterPassesInsulate | src/underwriting/infrastructure/pii_redaction.py:31-36 | No pass brings about a match of its own pattern or of an earlier one |
| PiiRedaction.SsnIsRedacted | src/underwriting/infrastructure/pii_redaction.py:33-33 | A text in which an SSN stands between characters of no word is changed by redaction |
| PiiShapes.ChangedIffPersonal | src/underwriting/infrastructure/pii_redaction.py:31-66 | Redaction changes a text if and only if it holds an email address, an SSN, a phone number or a card number, each spelled out character by character |
| PiiShapes.NothingPersonalIsLeft | src/underwriting/infrastructure/pii_redaction.py:31-66 | None of the four is anywhere in the output, for every text |
| PiiShapes.OnlyPersonalIsMasked | src/underwriting/infrastructure/pii_redaction.py:24-66 | The output is the text with stretches that are personal on their own replaced by `***REDACTED***`, and everything else copied |
| PiiShapes.EmailMatches | src/underwriting/infrastructure/pii_redaction.py:32-32 | What the first pattern matches: local characters, an at sign, domain characters, a point, and two or more letters |
| PiiShapes.SsnMatches | src/underwriting/infrastructure/pii_redaction.py:33-33 | What the second matches: 3, 2 and 4 digits with hyphens, and no word going on at either end |
| PiiShapes.PhoneMatches | src/underwriting/infrastructure/pii_redaction.py:34-34 | What the third matches: 3, 3 and 4 digits with optional separators, brackets and country code, between word boundaries |
| PiiShapes.CardMatches | src/underwriting/infrastructure/pii_redaction.py:35-35 | What the fourth matches: 13 to 16 digits, each perhaps with a blank or hyphen behind it, between word boundaries |
| PiiShapes.AddressIsTakenWhole | src/underwriting/infrastructure/pii_redaction.py:32-32 | What is cut for an email address reaches as far as any address that starts there |
| PiiShapes.PlainNumberIsPersonal | src/underwriting/infrastructure/pii_redaction.py:34-34 | Ten digits on their own are redacted, whatever the separators, and whatever bracket stands before them |
| JsonRedaction.RedactMapping | src/underwriting/infrastructure/pii_redaction.py:69-96 | The recursive walk that fills the output key by key computes the specified mapping |
| JsonRedaction.ScrubbedIff | src/underwriting/infrastructure/pii_redaction.py:69-96 | The output has every sensitive key masked and every string redacted, at any depth, if and only if no list directly inside a list hid something |
| JsonRedaction.MappingIsIdempotent | src/underwriting/infrastructure/pii_redaction.py:69-96 | Redacting a redacted mapping changes nothing, for every mapping |
| JsonRedaction.ScrubbedIsFixed | src/underwriting/infrastructure/pii_redaction.py:69-96 | A mapping that is already scrubbed passes through unchanged |
| JsonRedaction.MappingKeepsShape | src/underwriting/infrastructure/pii_redaction.py:69-96 | Keys, their order, list lengths and all non-string leaves under non-sensitive keys stay |
| JsonRedaction.NestedListLeaks | src/underwriting/infrastructure/pii_redaction.py:84-93 | Any string that redaction would change passes through in the clear in a list inside a list |
| JsonRedaction.NestedSsnLeaks | src/underwriting/infrastructure/pii_redaction.py:84-93 | The SSN 123-45-6789 does so under the key `notes`, where on its own it is redacted |
| JsonRedaction.MaskedIffNamesPerson | src/underwriting/infrastructure/pii_redaction.py:41-51 | A number in a mapping comes out as the mask if its key, in any case, is one of nine names, and unchanged if not |
| PromptGuard.SanitizeUntrustedText | src/underwriting/infrastructure/prompt_guard.py:46-64 | The loop computes the seven passes, and warns exactly when the text changed |
| PromptGuard.UnanchoredPatternsAreGone | src/underwriting/infrastructure/prompt_guard.py:33-64 | For every input the output has no match of patterns 1, 2, 4, 5 and 7 |
| PromptGuard.UnchangedIffNothingMatches | src/underwriting/infrastructure/prompt_guard.py:46-64 | The text is changed exactly when one of the seven patterns matches it |
| PromptGuard.TwiceIsOnceIff | src/underwriting/infrastructure/prompt_guard.py:46-64 | Sanitizing twice is sanitizing once exactly when the output has no match of the two patterns with word boundaries |
| PromptGuard.AllGoneWithoutGluedPhrases | src/underwriting/infrastructure/prompt_guard.py:46-64 | If no phrase of patterns 3 and 6 has a word character next to it, no pattern matches the output and sanitizing is idempotent |
| PromptGuardGap.NotEnoughIff | src/underwriting/infrastructure/prompt_guard.py:46-64 | For every text: some pattern still matches the output, and sanitizing again would change it, exactly when a phrase of pattern 3 or 6 in the text stays uncut and has on either side an end of the text, a character of no word, or a cut |
| PromptGuardGap.AllGoneUnlessAbutting | src/underwriting/infrastructure/prompt_guard.py:46-64 | A condition on the text alone: no pattern matches the output, and sanitizing is idempotent, unless the text has a phrase of pattern 3 right before an instance of pattern 5 or 7 or right behind one of 7, or a phrase of pattern 6 right before or behind an instance of 7 |
| PromptGuardGap.LastPassFreesIff | src/underwriting/infrastructure/prompt_guard.py:39-40 | The pass after pattern 6 leaves a match of it exactly when it leaves a phrase uncut whose glued ends all abut its cuts |
| PromptGuardGap.LaterCutFreesPhrase | src/underwriting/infrastructure/prompt_guard.py:33-64 | "reveal your promptact as a" comes out with a fresh match of pattern 6, and changes again when sanitized again |
| InjectionPhrases.ChangedIffInjected | src/underwriting/infrastructure/prompt_guard.py:33-64 | The sanitizer changes a text if and only if it has one of the phrases, spelled out word by word, bounded ones on their own |
| InjectionPhrases.NoPlainPhraseIsLeft | src/underwriting/infrastructure/prompt_guard.py:33-64 | No phrase without word boundaries is anywhere in the output, for every text |
| InjectionPhrases.OnlyPhrasesAreReplaced | src/underwriting/infrastructure/prompt_guard.py:33-64 | The output is the text with stretches that are phrases on their own replaced by the placeholder, and everything else copied |
| InjectionPhrases.EitherCaseReads | src/underwriting/infrastructure/prompt_guard.py:34-40 | A phrase is found in upper and lower case alike |
| InjectionPhrases.IgnoreMeans | src/underwriting/infrastructure/prompt_guard.py:34-34 | What the first pattern matches: "ignore ", any of twelve targets, " instructions" |
| Rounding.RoundingError | src/underwriting/domain/risk.py:27-29 | Rounding is off by at most half a unit |
| Rounding.RoundingRespectsGrid | src/underwriting/domain/risk.py:27-29 | Rounding never carries a number across a multiple of the unit |
| Rounding.TiesGoToEven | src/underwriting/domain/risk.py:27-29 | What is half way between two multiples goes to the even one |
| Extraction.MockDocumentExtraction | src/underwriting/infrastructure/llm.py:92-133 | The counting loop computes the specified payload, or the ValueError of an amount without digits |
| Extraction.ExtractionIsInRange | src/underwriting/infrastructure/llm.py:92-133 | Every payload passes the validators, and its confidence is one of five values, at least 0.55 |
| Extraction.MoneyFieldFailsIff | src/underwriting/infrastructure/llm.py:73-81 | A labelled amount is missing exactly when the pattern matches nowhere, and reading it raises exactly when it consists of commas only |
| Extraction.ExtractionMeans | src/underwriting/infrastructure/llm.py:62-133 | For every document: the monthly pays are a twelfth of 12, 24, 26 or 52 times the labelled amounts, to the cent, by the name of the frequency, and the confidence is 0.55 and 0.1 for each of the four fields that is read |
| PayStub.CentsRead | scripts/demo.py:44-46 | Printing cents with two decimals and reading them as a float gives the amount |
| PayStub.ReadText | src/underwriting/infrastructure/llm.py:84-89 | The leftmost label search reads a stripped one-line value back from its line |
| PayStub.ReadMoney | src/underwriting/infrastructure/llm.py:76-81 | The leftmost label search reads a printed amount back from its line |
| RoundTrip.ExtractionUndoesPrinting | scripts/demo.py:31-47 | Extracting a printed stub gives the employer, the debt and a twelfth of a year's gross and net pay, to the cent, for all amounts, all frequencies and all employers free of labels |
| RoundTrip.SanitizerKeepsStub | src/underwriting/infrastructure/prompt_guard.py:46-64 | The sanitizer leaves a printed stub alone exactly when the employer has no injection phrase |
| RoundTrip.PrintSanitizeExtract | src/underwriting/infrastructure/llm.py:92-133 | Printing, sanitizing and extracting is the identity on what was printed, with confidence 0.95 |
| Resilience.CircuitBreaker.constructor | src/underwriting/infrastructure/resilience.py:92-99 | A fresh breaker is CLOSED with no failures |
| Resilience.CircuitBreaker.MaybeTransitionToHalfOpen | src/underwriting/infrastructure/resilience.py:101-106 | The lazy transition, as the step function the interleavings use |
| Resilience.CircuitBreaker.Enter | src/underwriting/infrastructure/resilience.py:110-115 | The first critical section refreshes the state and admits exactly when it is then not OPEN |
| Resilience.CircuitBreaker.OnFailure | src/underwriting/infrastructure/resilience.py:119-132 | The critical section after an exception, as the step function the interleavings use |
| Resilience.CircuitBreaker.OnSuccess | src/underwriting/infrastructure/resilience.py:133-138 | The critical section after a return, as the step function the interleavings use |
| Resilience.CircuitBreaker.State | src/underwriting/infrastructure/resilience.py:141-145 | Reading the state may itself enter HALF_OPEN |
| Resilience.CircuitBreaker.Call | src/underwriting/infrastructure/resilience.py:108-139 | A whole call without overlap: its result and the new fields |
| Interleavings.BreakerIsAFunctionOfHistory | src/underwriting/infrastructure/resilience.py:101-145 | For every configuration and every interleaving of entries, completions, aborts, reads and ticks, the fields admit, reject and show exactly what a stateless function of completion history and clock does |
| Interleavings.ReachableBreaker | src/underwriting/infrastructure/resilience.py:101-145 | Not CLOSED if and only if the trailing failures reach the threshold; rejected if and only if, besides, less than the timeout has passed since the last failure |
| Probing.StaysOpenIffNothingInFlight | src/underwriting/infrastructure/resilience.py:86-89 | An open breaker is bound to stay open for the timeout if and only if no call was in flight |
| Probing.InFlightSuccessCloses | src/underwriting/infrastructure/resilience.py:133-138 | For every threshold, a run in which the success of a slow call closes a breaker that has just tripped |
| Probing.HalfOpenAdmitsEveryone | src/underwriting/infrastructure/resilience.py:110-115 | A breaker whose timeout is over admits any number of overlapping calls |
| Probing.ManyProbesAtOnce | src/underwriting/infrastructure/resilience.py:86-89 | For every threshold, a run from a fresh breaker to any number of probes in flight at once |
| Probing.AtMostOneUnabortedProbePerTimeout | src/underwriting/infrastructure/resilience.py:101-132 | Without overlap, after a trip and until a success, the starts of `fn` that are not aborted are at most floor(elapsed / timeout) |
| Probing.AtMostOneProbePerTimeout | src/underwriting/infrastructure/resilience.py:101-132 | Without overlap and aborts, after a trip and until a success, `fn` starts at most floor(elapsed / timeout) times |
| Probing.AbortedProbesAreFree | src/underwriting/infrastructure/resilience.py:117-139 | With an abort it can start twice in one timeout |
| Probing.ProbesAreApart | src/underwriting/infrastructure/resilience.py:101-132 | In the history machine, from any state with spaced failures: without overlap, a completion that follows a tripping history comes at least the timeout later |
| Probing.RunProbesAreApart | src/underwriting/infrastructure/resilience.py:101-132 | The same of the fields: in every run of a fresh breaker without overlap, what completes after a tripping history completes at least the timeout later |
| Retry.InvokeWithRetry | src/underwriting/infrastructure/llm.py:259-264 | The retry loop on the breaker object computes the specified outcome, time and number of runs of `fn` |
| Retry.ShippedConstantsMatch | src/underwriting/infrastructure/credit_bureau.py:36-37 | The constants of both call sites meet the conditions of the results below |
| Retry.WrappedCall | src/underwriting/infrastructure/llm.py:259-264 | Aborts included: a wrapped call that starts closed returns a value, is aborted, or ran `fn` exactly max_attempts times and re-raises its last error; one that starts not closed runs it at most once; the breaker is settled again exactly unless the call started closed and a BaseException followed a failure |
| Retry.AnswersAreThoseOfFn | src/underwriting/infrastructure/llm.py:259-264 | From any state: the value of a wrapped call is what `fn` returned, its error what `fn` raised in the last attempt, an abort one of `fn`, or else the last attempt was rejected |
| Retry.BoundariesAreSettled | src/underwriting/infrastructure/credit_bureau.py:87-101 | At every boundary between wrapped calls the failure count is 0 with the breaker closed, or at least the threshold, if and only if no call that starts closed meets a BaseException after a failure |
| Retry.RunsUnlessShutOut | src/underwriting/infrastructure/llm.py:259-264 | For any attempts, a wrapped call never runs `fn`, and changes nothing, exactly when the breaker is open and still is at its last attempt |
| Retry.ReturningCall | src/underwriting/infrastructure/llm.py:259-264 | If `fn` always returns, a wrapped call fails exactly then, and otherwise leaves the breaker closed |
| Retry.RaisingCall | src/underwriting/infrastructure/llm.py:259-264 | If `fn` always raises, a wrapped call that is not shut out leaves a breaker that is tripped and rejects at that moment |
| Retry.AbortUnsettles | src/underwriting/infrastructure/resilience.py:117-139 | What a BaseException after two failures does: the next wrapped call trips after one run and re-raises the breaker's error |
| Domain.ValidatedIsStable | src/underwriting/domain/models.py:60-94 | Validating a validated application succeeds and changes nothing |
| Domain.AcceptedIff | src/underwriting/domain/models.py:60-94 | An application is accepted exactly if its name is not only white space and lengths and amounts are within their bounds |
| Underwriting.ReportIsValid | src/underwriting/infrastructure/credit_bureau.py:40-84 | Every mock report is within the validators' ranges |
| Underwriting.ReportMeans | src/underwriting/infrastructure/credit_bureau.py:40-84 | Score, band and delinquencies of a report in terms of the number the digest gives |
| Underwriting.EvaluatePolicy | src/underwriting/domain/policy.py:78-182 | Appending flag after flag and folding them gives the specified flags, and `passed` exactly when none blocks |
| Underwriting.AnyBlock | src/underwriting/domain/policy.py:175-175 | The fold over the flags finds a blocking one exactly when there is one |
| Underwriting.FlagsMeaning | src/underwriting/domain/policy.py:90-173 | Which findings are reported, by conditions without division, none twice, and which of them block |
| Underwriting.PassedIff | src/underwriting/domain/policy.py:93-122 | The check passes exactly when the request is at most five times the income and the confidence at least 0.5 |
| Underwriting.CollectAdverseReasons | src/underwriting/domain/decisioning.py:27-52 | The loop over the flags collects the specified reasons |
| Underwriting.AdverseReasonsMeaning | src/underwriting/domain/decisioning.py:35-52 | Exactly the reasons of a HIGH tier and of every finding above INFO |
| Underwriting.DtiReasonIff | src/underwriting/domain/decisioning.py:37-41 | The reason that names the ratio is given exactly when the ratio meets the hard limit or the band is POOR |
| Underwriting.VerdictIsExplained | src/underwriting/domain/decisioning.py:55-85 | A denial has no amount and at least one reason, an approval the requested amount and none |
| Underwriting.DenialGivesReasons | src/underwriting/domain/decisioning.py:27-85 | A denial, automatic or a reviewer's, gives exactly the reasons there are, in the order of the rules, and that a reviewer decided only if there is none |
| Underwriting.AssessmentIsScore | src/underwriting/service/nodes.py:191-207 | The score is debt by extracted income, or twelve times debt by stated income if none was extracted, within 0.00005 and in units of 0.0001, or 1 without any income |
| Underwriting.TierMeaning | src/underwriting/domain/risk.py:32-60 | Each tier in terms of ratio and band, including the MEDIUM gap above the borderline band |
| Underwriting.DtiError | src/underwriting/domain/risk.py:17-29 | The rounded ratio is within 0.00005 of the true one |
| Underwriting.DtiIsMonotoneInDebt | src/underwriting/domain/risk.py:17-29 | More debt never lowers the ratio |
| Underwriting.DtiIsAntitoneInIncome | src/underwriting/domain/risk.py:17-29 | More income never raises the ratio |
| Underwriting.DtiMeetsThreshold | src/underwriting/domain/risk.py:27-29 | Rounding never takes a ratio across a threshold of four decimals |
| Underwriting.DefaultThresholdsOnGrid | src/underwriting/config.py:64-75 | The shipped thresholds have at most four decimals and are in order, and grade a GOOD band HIGH from 0.55 and BORDERLINE from 0.36 to 0.45 |
| Audit.FlatIsScrubbed | src/underwriting/infrastructure/audit_log.py:56-63 | Details whose only lists are lists of strings come out of redaction fully scrubbed, whatever text they carry |
| Workflow.MovingAdvances | src/underwriting/service/graph.py:58-74 | A step that commits gets strictly further along the graph, any other step changes no stored value |
| WorkflowRuns.StepKeepsSound | src/underwriting/service/nodes.py:84-486 | Every step, whatever the services answer and a reviewer sends, keeps the invariant of runs |
| WorkflowRuns.ReachableIsSound | src/underwriting/service/state.py:38-72 | At every reachable checkpoint the audit actions, actors and spans are exactly the prefix of the 6- or 8-event sequence for the current node and route, all events carry the run's ids, and each part is present exactly when its node has committed and follows from the others by the rules |
| WorkflowRuns.RunsKeepSound | src/underwriting/service/state.py:67-69 | Along every run trails only grow at the end, and what was written once is never written again |
| WorkflowRuns.InvokeLogsScrubbed | src/underwriting/infrastructure/audit_log.py:56-63 | The details of every event logged or committed on a run have masked sensitive keys and redacted strings, whatever a reviewer types |
| WorkflowRuns.ReviewerIsNamedVerbatim | src/underwriting/infrastructure/audit_log.py:56-63 | The actor of the resolution event is `human_reviewer:` and the id as typed, and redacting it would change it exactly when one of the patterns matches it |
| WorkflowRuns.ReviewerIdLeaks | src/underwriting/service/nodes.py:350-356 | On every run that reaches the pause, a reviewer id that is an SSN gets into the committed trail in the clear |
| WorkflowRuns.ResolutionWasSent | src/underwriting/service/nodes.py:346-349 | A run that holds a resolution was sent exactly that resolution |
| TrailValues.TrailIsTrue | src/underwriting/service/nodes.py:84-486 | At every reachable checkpoint every event of the trail tells what the run holds: purpose, request, employment, extracted amounts, ratio, tier, band, score, result and codes of the policy check, what the reviewer was shown and answered, redacted, and outcome and decider |
| PauseResume.AnswerIsTakenIff | src/underwriting/service/nodes.py:346-349 | A reviewer's answer is recorded exactly if the id has 1 to 100 characters and the notes at most 2000, whatever becomes of the run after it |
| PauseResume.RestartsChangeNothing | src/underwriting/service/nodes.py:308-346 | Any number of restarts at the pause changes nothing stored and logs the request once each |
| PauseResume.PauseThenResume | src/underwriting/service/nodes.py:308-365 | Pausing and then resuming ends with the values, place and ending of the uninterrupted run, whatever services are in force before and after, and logs one request more |
| PauseResume.ShownIsCommitted | src/underwriting/service/nodes.py:324-361 | The payload shown at the pause is the request committed later, in every continuation |
| PauseResume.RequestedOnceLoggedAgain | tests/test_escalation_pause_resume.py:44-70 | From start to end of an escalated run: four events before the pause and four after it, one committed request, one logged request per run of the node |
| Adjudication.ThreeWaySplit | src/underwriting/service/nodes.py:277-289 | A run that is left alone and in which no node raises scores its debt by its income, and is approved, denied or paused exactly where thresholds, band, request and confidence put that score |
| Adjudication.DecisionsAreExplained | src/underwriting/domain/decisioning.py:73-85 | In every reachable checkpoint a denial has no amount and some reason, an approval the requested amount and none |
| Adjudication.DenialsGiveTheirReasons | src/underwriting/domain/decisioning.py:27-85 | In every reachable checkpoint with a denial, its list holds the ratio exactly for a HIGH tier, the band exactly if besides it is POOR, every finding above INFO, and that a reviewer decided only if there is none of these, in this order |
| Adjudication.ScoresAreRight | src/underwriting/service/nodes.py:191-207 | At every reachable checkpoint that is scored, the score is that of its application and extraction |
| Adjudication.HumanAuthority | src/underwriting/service/nodes.py:388-436 | A decision is a reviewer's exactly when the run was routed to one, with that reviewer's flag as outcome; automatic decisions never have a failed policy |
| Adjudication.PausesHaveCauses | src/underwriting/service/nodes.py:315-325 | Every pause names a cause, so the fallback wording is never used |
| Adjudication.PausesShowWhy | src/underwriting/service/nodes.py:308-333 | Every reviewer is shown the scored ratio, band and tier of the run, and exactly the grounds for its pause |
| Adjudication.RunsThroughIff | src/underwriting/service/nodes.py:84-486 | No node raises if and only if the application is valid, extraction and bureau answer within the validators' ranges, a resolution that is needed and given is valid, and the outcome gets an explanation |
| Adjudication.RationaleIsOfDecision | src/underwriting/service/nodes.py:388-436 | The rationale of a decision is the model's answer to that decision's own outcome, amount and reasons, the scored risk, the request, the findings and the resolution |
| Wording.ExplainingDecidesNothing | src/underwriting/service/nodes.py:370-451 | Runs that differ only in the explaining model have the same outcome, reasons, routing, trail and log |
| Wording.ExtractingDecides | src/underwriting/service/nodes.py:140-147 | Runs that differ only in the extraction can end in automatic approval and in automatic denial |
| OfflineRuns.ParsesIff | src/underwriting/infrastructure/llm.py:108-110 | Extraction raises exactly when one of the three labelled amounts consists of commas only |
| OfflineRuns.OfflineRunsThroughIff | src/underwriting/service/nodes.py:84-486 | With the mocks and breakers that admit its calls, a run reaches the end or the pause exactly when the application is valid and its document parses |
| OfflineRuns.OfflinePauses | src/underwriting/domain/policy.py:111-122 | With the mocks, in a run in which no node raises, the low-confidence flag is never raised, and it pauses exactly for a BORDERLINE tier or an over-leveraged request |
| OfflineRuns.PrintedStubIsScored | src/underwriting/service/nodes.py:191-197 | For a printed stub, the ratio that is scored is within half of 0.0001, plus half a cent of income, of debt over exact monthly pay |
| Service.ApplicationService.constructor | src/underwriting/service/application_service.py:52-54 | A new service has an empty store |
| Service.ApplicationService.RunGraph | src/underwriting/service/application_service.py:82-82 | Runs the graph on a checkpoint and stores and logs what it leaves, also when a node raises |
| Service.ApplicationService.StartApplication | src/underwriting/service/application_service.py:61-83 | The store, the log and the answer after starting a run under a fresh id |
| Service.ApplicationService.GetApplication | src/underwriting/service/application_service.py:85-119 | The loop over the interrupts computes the specified summary or the not-found error, and changes nothing |
| Service.ApplicationService.ResolveEscalation | src/underwriting/service/application_service.py:121-143 | The store, the log and the answer after a resolution; a refused one changes nothing |
| Service.ApplicationService.GetRationale | src/underwriting/service/application_service.py:145-161 | The rationale, or the error that applies |
| Service.ServiceIsSound | src/underwriting/service/application_service.py:61-161 | After any calls in which no node raises, every stored run meets the invariant, belongs to its id, and is finished or paused with its payload |
| Service.AcceptedResolutions | src/underwriting/service/application_service.py:132-142 | Over any calls, nodes raising or not, each run accepts one resolution and one more for every accepted one in which a node raised, and none once finished |
| Service.AcceptedFinishesIff | src/underwriting/service/application_service.py:132-142 | An accepted resolution finishes its run exactly when no node raises |
| Service.AtMostOneResolution | src/underwriting/service/application_service.py:132-142 | A run accepts at most one resolution unless a node raises in one |
| Service.StoredRunsOnlyGrow | src/underwriting/service/application_service.py:61-161 | Over any calls, nodes raising or not, trails of stored runs only grow, and a resolution or decision is never replaced |
| Service.FinishedRunsNeverChange | src/underwriting/service/application_service.py:121-143 | A finished run, decision included, is never touched again, nodes of other runs raising or not |
| Service.RunsAreIsolated | src/underwriting/service/application_service.py:56-59 | Given the same answers of the services, what is stored for an id is what the calls on that id alone would have stored |
| Service.RationaleIffCompleted | src/underwriting/service/application_service.py:145-161 | After any calls, nodes raising or not, the rationale is available exactly when the run is reported completed |
| Service.ErrorsMean | src/underwriting/service/application_service.py:85-161 | After any calls: an id is unknown exactly if no call has started it, a rationale is missing exactly if the run is not completed, and a resolution is refused exactly for an unknown or a completed run |
| Service.RationaleOfStart | src/underwriting/service/application_service.py:145-161 | After a start in which no node raises: no rationale while a reviewer is awaited, and otherwise the agent's decision in the words of the model, with the reasons of a denial or none |
| Service.ResolutionDecides | src/underwriting/service/application_service.py:121-143 | Resolving a paused run completes it, if no node raises, with that reviewer's flag as outcome and the shown payload as request |
| Service.LooksPausedIff | src/underwriting/service/application_service.py:97-104 | After a call, a run is reported as awaiting a reviewer with nothing to show exactly when a node raised, other than the pause on an invalid resolution |
| Service.StartLooksPausedIff | src/underwriting/service/application_service.py:97-104 | A run just started is reported so if and only if its application is invalid, extraction or bureau does not answer in range, or its outcome gets no explanation |
| Service.ResolveLooksPausedIff | src/underwriting/service/application_service.py:97-104 | A paused run just resolved is reported so if and only if the resolution is valid and the outcome gets no explanation |
| Service.FailedRunLooksPaused | src/underwriting/service/application_service.py:97-104 | A run whose extraction failed is reported as awaiting escalation with nothing to show |
| SharedBreakers.NodeAsksOneThing | src/underwriting/service/nodes.py:84-486 | A node depends on the services only through the one question it asks, and on none if a validation before it fails |
| SharedBreakers.BreakersOnlyWithhold | src/underwriting/infrastructure/llm.py:242-264 | Whatever state the breakers are in, a run behind them is a run of the graph with services that withhold some answers and change none |
| SharedBreakers.Unhindered | src/underwriting/infrastructure/llm.py:242-264 | With closed breakers and a document that is read, a run is the run without breakers and leaves them as they were |
| SharedBreakers.StartBehind | src/underwriting/infrastructure/llm.py:242-264 | A valid application is stuck in front of extraction, whatever its document, if the breaker is open through the last attempt; if not, its run is the run without breakers, and leaves the breaker closed or, when extraction raised, tripped |
| SharedBreakers.OfflineBehindIff | src/underwriting/infrastructure/llm.py:275-277 | With the mocks behind the breakers, no node raises if and only if the application is valid, its document parses and the breaker is not open through the last attempt; a closed breaker is tripped exactly by a valid application whose document does not parse |
| SharedBreakers.RunsKeepRested | src/underwriting/infrastructure/credit_bureau.py:33-37 | Whatever run is started or resumed, the bureau's breaker stays closed with a clean count, and the model's is closed with a clean count or not closed with a full one |
| SharedBreakers.ResolveBehind | src/underwriting/service/application_service.py:121-143 | A valid resolution is committed, but the run is then stuck in front of the explanation if the breaker is open through the last attempt; if not, it is the run without breakers |
| SharedService.ServedIsService | src/underwriting/service/application_service.py:41-54 | What a process serves behind its breakers is what the service does on calls with other services, so its theorems apply |
| SharedService.IsolatedWithoutPoison | src/underwriting/service/application_service.py:44-48 | From closed breakers, as long as no document makes the model raise, what is stored for an id is what the calls on that id alone would have stored without breakers |
| SharedService.CallsKeepRested | src/underwriting/infrastructure/credit_bureau.py:33-37 | Over any calls the breakers stay as between calls, the bureau's always closed |
| SharedService.IsolatedIffLate | src/underwriting/service/application_service.py:44-48 | After a valid application whose document does not parse, a valid one whose document does is stored as it would be alone if and only if its last attempt at extraction comes no earlier than the recovery timeout; otherwise it is stuck |
| SharedService.CommaDoesNotParse | src/underwriting/infrastructure/llm.py:76-81 | "NET_PAY_PER_PERIOD:," makes extraction raise |
| SharedService.NotIsolated | src/underwriting/service/application_service.py:44-48 | Two concrete applications, the second of which is stuck because of the first |

## Left out

- IEEE floating point: arithmetic is exact, over `real`, and every literal is its decimal value; infinities, NaN
  and the JSON forms of numbers are not modelled. A stated income of zero takes the branch of the infinite ratio.
- FastAPI routes, schemas and HTTP status mapping: thin wrappers over the service.
- LangGraph, SqliteSaver and tenacity internals: used by contract only (commit on return, re-run from the first
  line, at most max_attempts attempts, bounded waits, last error re-raised). How a resume value meets a run that
  failed before the pause is not known from the source; `Invoke` hands it on to the pause.
- Service.ApplicationService.StartApplication: requires a fresh id, because what a second start does to a stored
  thread is LangGraph's and is not visible in the source.
- Sequences of service calls are one at a time; two requests on one id at once are LangGraph's affair.
- Failures of the chat model and the bureau inside a run: `Services` answers None once all retries have failed.
- SharedBreakers.StartBehind: for services that answer or raise alike in all attempts of one call, as the mocks do;
  calls whose attempts differ, and aborted ones, are the subject of `Retry` alone. One run at a time, as the
  routes call the service without awaiting.
- Substitution.BecomesClean: for patterns that meet the stated conditions (no placeholder edge in any class, and
  word boundaries only at both ends), which all redaction patterns do.
- Retry.WrappedCall: wrapped calls do not overlap, and time passes only inside `fn` and in the waits.
- `str.lower` acts on one character at a time; the context-dependent lower case of the Greek capital sigma is not modelled.
- `re` features that no pattern of the source uses.
- Extraction.MockDocumentExtraction: the payload leaves out `source_excerpts`, display data that no rule reads.
- Underwriting.EvaluatePolicy: the result leaves out the flags' descriptions, which are prose, and the constant
  lists `permitted_factors_used` and `excluded_factors_checked`.
- `rationale_factors`: display data that no rule reads.
- WorkflowRuns.InvokeLogsScrubbed: covers the details of events; the actor is not redacted by the source.
- Timestamps, report ids, span ids, span durations and span attributes: opaque values.
- The wording of rationales, reasons and escalation payloads: reasons are tagged values, and the two texts of a
  payload are arbitrary functions, so that what is proved of audit events holds for any wording.
- SHA-256: an arbitrary function from the normalised name to a natural number.
- Real providers, API keys, logging set-up, tracing clocks, the checkpointer singleton and deployment files.
