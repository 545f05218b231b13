# ACME DNS-01 issuance run, modelled in Dafny

`index.js` obtains a certificate from the Let's Encrypt staging directory
(`letsencrypt.staging`, line 7) with the DNS-01 challenge of RFC 8555
(section 8.4). It runs one async function. Apart from the throws, its only
branch is the poll loop's `break` on the first lookup that finds the value
(lines 62-64):

1. It generates an account key and refuses to go on without `EMAIL`.
2. It registers the account, creates an order for `DOMAIN`, fetches the
   order's authorizations and picks the first `dns-01` challenge of the first
   authorization.
3. It derives the key authorization, shows the operator the TXT record
   `_acme-challenge.<domain>` with that value, and waits for Enter.
4. It polls DNS up to 30 times, sleeping after every lookup that did not
   find the value.
5. It throws unless the value was seen.
6. It asks the CA to verify, complete and wait for the challenge.
7. It builds a CSR for the domain, finalizes the order and downloads the
   certificate.

Every throw outside the poll's own try/catch (lines 60-68) lands in the
catch at line 98, and the run ends there. A rejected DNS lookup is caught by
the poll's own catch (lines 66-68), and the loop goes on.

The model makes every collaborator an oracle:
- `Orchestrator.Gateway` holds one answer per ACME-client or forge call. Each
  call is made at most once per run, so one answer per call is enough.
- `dns.resolveTxt` becomes `resolve: nat -> DnsOutcome`: the answer to the
  k-th lookup, either the TXT records (each an array of chunks) or a rejection.

The whole run is then a pure function `Orchestrator.Run(cfg, gw, resolve)`.
It returns the calls made, as a trace of `Event`s, and how the run ended:
`Issued(certificate, privateKey)`, or `Failed` with the error that reached
the catch.

Modules:
- `AcmeTypes` (`types.dfy`) holds the entities, the events, and the steps of
  the run in their forward order, with the `Forward` property of traces.
- `Propagation` (`propagation.dfy`) holds the per-attempt match, the poll
  loop as a reference function `PollLoop`, and a method `PollPropagation`
  whose loop mirrors index.js:59-71.
- `Orchestrator` (`orchestrator.dfy`) holds set-up, validation,
  finalization and the run. It also holds `StepFails` and `StepError`,
  which judge each step of the run on its own guard or call, and the
  functions `SetUpFailure`, `ValidationFailure`, `FinalizationFailure` and
  `FirstFailure`, which say where a run stops without building its trace.
  `RunProperties.FirstFailureIsLeastFailingStep` proves that `FirstFailure`
  picks the failing step of least rank.
- `RunProperties` (`properties.dfy`) holds what every run guarantees.
- `Scenarios` (`scenarios.dfy`) holds concrete runs.

Details of index.js that the model keeps as written:
- An account key is generated (line 19) before the email guard (lines
  22-25). A run without `EMAIL` therefore records that one event.
- A sleep follows every unsuccessful lookup, including the 30th (lines
  69-70). A run that never sees the record makes 30 lookups and 30 sleeps.
- A record matches by `Array.includes` on its chunks (line 62). This is
  element equality, not substring search.
- There are no error kinds: plain `Error`s are thrown. An empty
  authorization list fails on `.challenges` of `undefined` (lines 36-37). A
  missing `dns-01` challenge passes `undefined` to
  `getChallengeKeyAuthorization` (lines 37-39). Both are modelled as
  `TypeError` failures.
- There is no cancellation, and the bound is the literal 30 (`MaxRetries`).

## Model

| member | source | states |
|---|---|---|
| Propagation.Matches | index.js:62 | one attempt's test (no ensures of its own): specified by Propagation.MatchesIffSomeRecordIncludes, Propagation.MatchIsChunkEquality and Propagation.AttemptMatches |
| Propagation.PollLoop | index.js:59-71 | the reference poll loop (no ensures of its own): specified by Propagation.PollLoopOutcome, Propagation.PollLoopEnds, Propagation.PollLoopCounts and Propagation.PollPropagation |
| Propagation.Includes | index.js:62 | `record.includes(value)` is true exactly when the value is one of the record's chunks |
| Propagation.AttemptMatches | index.js:60-66 | a rejected lookup never matches; otherwise an attempt matches exactly when some returned record has a chunk equal to the value |
| Propagation.MatchesIffSomeRecordIncludes | index.js:62 | the match holds iff some record of the answer includes the value, in both directions |
| Propagation.ExtraRecordsKeepMatch | index.js:62 | an answer that still contains every record of a matching answer matches too, whatever other records it holds and in whatever order |
| Propagation.MatchIsChunkEquality | index.js:62 | a chunk that merely contains the value does not match, nor does the value split over two chunks; a later record matches despite an unrelated first record |
| Propagation.PollLoopUnroll | index.js:59-71 | after `count` unsuccessful attempts the loop has made `count` lookups, each followed by a sleep, and goes on exactly as the loop started at attempt `count` |
| Propagation.PollLoopOutcome | index.js:55-71 | the loop verifies iff one of the first 30 answers matches; on success its calls end with the first matching lookup, with no sleep after it; on failure it made 30 lookups, each followed by a sleep |
| Propagation.LeastMatch | index.js:59-65 | when one of the first 30 answers matches, there is a first matching attempt, and the attempts before it all fail |
| Propagation.PollLoopEnds | index.js:59-71 | the loop starts with a lookup; its last call is the matching lookup when it verifies, and a sleep when it gives up |
| Propagation.PollLoopCounts | index.js:55-71 | between 1 and 30 lookups; one sleep fewer than lookups when verified; exactly 30 lookups and 30 sleeps otherwise |
| Propagation.PollLoopCalls | index.js:59-71 | the loop makes no call except lookups of the challenge host and sleeps |
| Propagation.ResolverErrorAbsorbed | index.js:60-70 | a rejected lookup at attempt k is followed by a sleep and, below the bound, by lookup k + 1 of the same host |
| Propagation.PollPropagation | index.js:55-71 | the loop as written computes the reference loop: verified iff one of the first 30 answers matches, the calls up to the first match on success, and 30 lookup-and-sleep rounds on failure |
| Orchestrator.EmailProvided | index.js:22-23 | the email guard (no ensures of its own): specified by RunProperties.EmailGuardFailsFirst and the last clause of Orchestrator.SetUp |
| Orchestrator.RecordHost | index.js:41 | the TXT record name (no ensures of its own): specified by Orchestrator.RecordHostRoundTrip and RunProperties.ChallengeRecordFixed |
| Orchestrator.RecordHostRoundTrip | index.js:41 | the record name `_acme-challenge.<domain>` gives back its domain, and only that domain's name does |
| Orchestrator.FindDns01 | index.js:37 | `undefined` exactly when no challenge is of type dns-01; otherwise the first dns-01 challenge in the list |
| Orchestrator.SetUp | index.js:17-39 | set-up gets through iff the key, the email, the account, the order, a non-empty authorization list, a dns-01 challenge and the key authorization are all there; it then made exactly the five calls in program order, with the contact `mailto:<email>` and the identifier `dns`/domain; a falsy email stops it after the key |
| Orchestrator.Validate | index.js:79-81 | starts with `verifyChallenge`; succeeds iff all three CA calls succeed, and then made exactly verify, complete, wait |
| Orchestrator.Finalize | index.js:83-88 | starts with a CSR whose common name is the domain; issues iff CSR, finalize and download all succeed, and then returns the downloaded certificate with the CSR's key |
| Orchestrator.Run | index.js:15-101 | the whole run (no ensures of its own): specified by RunProperties.RunStopsAtLeastFailingStep, RunProperties.IssuedRunTrace, RunProperties.RunIsForward and RunProperties.ChallengeRecordFixed |
| Orchestrator.Proceed | index.js:41-88 | the run after set-up (no ensures of its own): specified by RunProperties.ProceedWhenPollFails, RunProperties.ProceedWhenPollSucceeds, RunProperties.ProceedStopsAtFirstFailure and RunProperties.ProceedIsForward |
| Orchestrator.StepFails | index.js:17-88 | whether one step fails, judged on its own guard or CA call (no ensures of its own): specified by RunProperties.RunStopsAtLeastFailingStep and RunProperties.SetUpHaltsAtLeastFailingStep |
| Orchestrator.StepError | index.js:17-98 | the error a failing step throws into the catch (no ensures of its own): specified by RunProperties.RunStopsAtLeastFailingStep |
| Orchestrator.LeastFailing | index.js:17-88 | a failing step with no failing step before it in program order (no ensures of its own): specified by RunProperties.LeastFailingUnique and RunProperties.LeastFailingExists |
| Orchestrator.SetUpFailure | index.js:17-39 | set-up's checks in program order, without the trace (no ensures of its own): specified by RunProperties.FirstFailureIsLeastFailingStep and RunProperties.SetUpHaltsAtLeastFailingStep |
| Orchestrator.ValidationFailure | index.js:79-81 | the first throwing validation call (no ensures of its own): specified by RunProperties.ValidateStopsAtFirstFailure and RunProperties.FirstFailureIsLeastFailingStep |
| Orchestrator.FinalizationFailure | index.js:83-88 | the first throwing CSR, finalize or download call (no ensures of its own): specified by RunProperties.FinalizeStopsAtFirstFailure and RunProperties.FirstFailureIsLeastFailingStep |
| Orchestrator.FirstFailure | index.js:17-88 | where a run stops, or `None` (no ensures of its own): specified by RunProperties.FirstFailureIsLeastFailingStep and RunProperties.RunStopsAtFirstFailure |
| RunProperties.LeastFailingUnique | index.js:17-88 | two steps that are both least failing are the same step |
| RunProperties.LeastFailingExists | index.js:17-88 | a run with a failing step has a least failing one, no later than that step |
| RunProperties.FirstFailureIsLeastFailingStep | index.js:17-88 | the checks in program order find no failure iff no step fails; otherwise they report the least failing step and that step's own error |
| RunProperties.RunStopsAtLeastFailingStep | index.js:15-101 | a run issues iff no step fails on its own guard or call; otherwise it fails with the error of the least failing step, its last call is that step's call (or, for the email guard and the challenge selection (an empty authorization list), the call just before), and no call of a later step was made |
| RunProperties.EmailGuardFailsFirst | index.js:22-25 | a falsy `EMAIL` (unset or empty) fails the run after the key generation alone: no account, order, DNS or finalize call |
| RunProperties.SetUpHaltsAtLeastFailingStep | index.js:17-39 | set-up halts iff one of its own steps (key, email guard, account, order, authorizations, challenge selection, key authorization) fails on its own guard or call; its error is the error of the failing step that comes first in program order |
| RunProperties.SetUpStopsAfterFailingCall | index.js:17-39 | a set-up call that fails is the last call made; a failing guard or selection, which makes no call, comes right after the last call made |
| RunProperties.ValidateStopsAtFirstFailure | index.js:79-81 | validation fails iff one of its calls throws; the first such call is the last made, and its error is the one reported |
| RunProperties.FinalizeStopsAtFirstFailure | index.js:83-88 | finalization issues iff none of its calls throws; otherwise the first failing call is the last made, and its error is the one reported |
| RunProperties.ProceedWhenPollFails | index.js:41-75 | when no lookup among the first 30 finds the value, the run ends with the propagation error right after the record was shown and 30 lookup-and-sleep rounds |
| RunProperties.ProceedWhenPollSucceeds | index.js:55-88 | when some lookup finds the value, the poll ends at the first such lookup, and the run goes on to validation and then finalization |
| RunProperties.ProceedStopsAtPoll | index.js:73-75 | a poll that never sees the record ends the run with the propagation error, and its last call is a poll call |
| RunProperties.ProceedStopsAfterPoll | index.js:77-88 | after a poll that sees the record the run issues iff no validation or finalization call fails, and otherwise stops at the first failing one, with that call last |
| RunProperties.ProceedStopsAtFirstFailure | index.js:41-88 | after set-up the run issues iff the reference view finds no failure; otherwise it fails with the reference error, and the failing call is the last one made |
| RunProperties.RunStopsAtFirstFailure | index.js:15-101 | every run issues iff no step fails; otherwise it fails with the first failure in program order; the failing call, or the call before a failing guard, is the last; no call of a later step was made |
| RunProperties.ReadySetUp | index.js:17-51 | a set-up without failure hands on the order, the first authorization, its dns-01 challenge and the key authorization, and shows the record after exactly the five set-up calls |
| RunProperties.PropagationFailureEndsRun | index.js:73-75 | when the record is never seen, the whole run is the set-up calls, the record shown and 30 lookup-and-sleep rounds, ending with the propagation error; the CA is never asked to validate or finalize |
| RunProperties.ProceedIssues | index.js:55-88 | after set-up, a poll that sees the record and CA calls that all succeed issue the certificate, with exactly the poll, validation and finalization calls |
| RunProperties.IssuedRunTrace | index.js:17-88 | a run in which nothing fails issues the downloaded certificate with the CSR's key after exactly: key, account, order, authorizations, key authorization, record shown, the lookups up to the first match, verify, complete, wait, CSR for the domain, finalize, download |
| RunProperties.FailsBeforeValidation | index.js:73-79 | without a key authorization that one of the first 30 lookups finds, the run fails at the poll or earlier |
| RunProperties.CompletionRequiresPropagation | index.js:73-88 | a call of any step after the poll appears only when the key authorization was derived and found by one of the first 30 lookups |
| RunProperties.SetUpSteps | index.js:17-39 | set-up only makes calls of steps before the operator checkpoint |
| RunProperties.SetUpForward | index.js:17-39 | set-up calls move strictly forward through the steps |
| RunProperties.ValidateSteps | index.js:79-81 | validation only makes calls of its own three steps |
| RunProperties.ValidateForward | index.js:79-81 | the validation calls move strictly forward |
| RunProperties.FinalizeSteps | index.js:83-88 | finalization only makes calls of the CSR step or later |
| RunProperties.FinalizeForward | index.js:83-88 | the finalization calls move strictly forward |
| RunProperties.ReadyRunParts | index.js:41-88 | after set-up, the run is the set-up calls, the record shown, the poll, then only calls of steps after the poll |
| RunProperties.ValidatedCalls | index.js:79-88 | the calls after a verified poll all belong to steps after the poll |
| RunProperties.HaltedRunShowsNoRecord | index.js:17-47 | a run that stops during set-up neither shows a record nor looks one up |
| RunProperties.ProceedRecordFixed | index.js:41-61 | after set-up, every record shown and every lookup names `_acme-challenge.<domain>`, and the value shown is the key authorization |
| RunProperties.ChallengeRecordFixed | index.js:41-61 | in every run, the record shown is the TXT record `_acme-challenge.<domain>` with the key authorization as value, and every lookup asks for that same host |
| RunProperties.ValidatedForward | index.js:77-88 | the validation and finalization calls keep a forward trace forward after the poll |
| RunProperties.PollForward | index.js:59-71 | the poll's calls form a forward trace |
| RunProperties.PolledIsForward | index.js:41-71 | showing the record and polling keep a forward set-up trace forward, and the poll's last call ends it |
| RunProperties.ProceedIsForward | index.js:41-88 | everything after a forward set-up keeps the run forward |
| RunProperties.RunIsForward | index.js:15-101 | every run moves strictly forward through the steps: only poll calls repeat, and no call of an earlier step follows a later one |
| Scenarios.IssuedOnThirdLookup | index.js:15-97 | a concrete run: a resolver error, then an unrelated record, then the value; three lookups with a sleep after the first two, then validation, finalization and the certificate |
| Scenarios.NeverPropagated | index.js:55-75 | with a resolver that always rejects, a set-up that succeeds is followed by exactly the record shown, then 30 lookups each followed by a sleep, then the propagation error; no call of a later step is made |
| Scenarios.NoDns01Challenge | index.js:36-39 | an authorization offering only http-01 makes the key-authorization call with `undefined` and fails before anything is shown |

## Left out

- Console output (lines 44-47, 53, 67, 77, 89, 95) and the catch's
  `console.error` are not modelled: they print and decide nothing. The
  failure that reaches the catch is kept as the run's result.
- The operator prompt (lines 49-51) is one `Prompt` event. It carries the
  record shown, and the wait for Enter is not modelled further.
  `rl.close()` is not modelled.
- The sleep duration of 30000 ms (line 69) is not modelled. Each sleep is
  a `Sleep` event with no clock.
- `fs.writeFileSync` of the certificate and key (lines 91-93) is not
  modelled. The run's result carries both strings. A write that throws
  would reach the catch after the certificate was downloaded; the model
  reports `Issued` for such a run.
- dotenv loading and the environment are replaced by `Config`. An unset
  `DOMAIN`, which the template strings would render as "undefined", is not
  modelled: the domain is always a string.
- acme-client internals are not modelled: key and CSR generation, JOSE and
  HTTP, and the directory URL itself (line 7, the staging directory). Each
  call is an oracle answer, a value or a thrown error. That `getChallengeKeyAuthorization(undefined)`
  throws is assumed, since the library is not part of this model.
- Real DNS resolution and caching are not modelled. The resolver is a
  function from attempt number to answer.
- Concurrency and cancellation are left out: the script has neither.
