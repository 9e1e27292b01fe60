# Verified model of the claims orchestration core

This Dafny project models three parts of the insurance claims fraud platform and proves what
they promise:

- the staged DAG executor of the orchestration service (`Run`, its retry loop, its timeouts and
  failure policies) together with the node and config records it is driven by;
- the address normalizer, a parser and printer over unbounded strings;
- the rule-based fraud scorer, alone and composed with the executor.

`dafny verify dfyconfig.toml` checks the whole project.

## How the model is built

**The world.** The hashing, normalization, lookup, model and publishing clients are one `World`
(`Downstream.dfy`): an arbitrary function of every exchange so far, the request, the instant it is
sent and the instant its context is done. It answers with an outcome and a duration. The laws hold
for every such function, so also for services with state of their own. The caller's context is
never done, or done from some instant on. A response of another message type than the caller
expects reads as nil, the way the generated getters read a nil message. Backoff timers are exact;
when a timer and the context are ready at the same instant the world decides which wins.

**The executor.** `Executors.Executor` has the executor's loops, with its local variables, as
methods over a mutable wire (log and clock). `Run` and its three passes are proved equal to the
function `Runs.RunConfig`, and `CallWithResilience` to `Resilience.Call`. The function reduces each
pass to the *jobs* of its dispatched nodes (service, effective timeout, retries, tolerance) and
records one *visit* per job: request, outcome, and the stretch of the log it produced. Lemmas about
`RunJobs` are about any three lists of jobs recognised in their passes; `Ledger.ConfigIsStaged`
shows that every configuration gives such lists.

**Widths.** `timeout_ms` and `max_retries` are 32-bit newtypes and durations a 64-bit one, so the
verifier proves that converting milliseconds to nanoseconds never overflows.

**Strings.** `trim` (up to U+0020), the pattern `\s` (six characters) and `isBlank`
(`Character.isWhitespace`) are three different classes, as in Java; `split` keeps a leading empty
piece, drops trailing ones, and leaves a string without a match whole. Upper-casing is an arbitrary
character mapping, possibly to several characters, that is idempotent and keeps commas and white
space apart from other characters.

**Scores.** Scores are reals. Every constant, sum and product of the scorer may be off by an
arbitrary amount up to 0.0007, far more than rounding to doubles takes.

**Limits.** Where a promise does not hold of every input, a lemma gives the exact condition: the
promise holds for all worlds, contexts and claims if and only if a condition on the configuration
(or on the input) does. The failing half is a run, built in `Scripts.dfy` from a world whose n-th
answer is fixed by a script.

## Where the code differs from its comments

- The comment on `nodeFailureHandled` says that skip and degrade both mark the result degraded. The
  code does not do so for a model node: `EventLaws.ScoredUnlessSetBack` says which results are
  "scored", and `EventLaws.LostModelLeavesNoMark` shows a run with a failed and tolerated model node
  that is.
- The comment on the feature map says that a fail_fast hashing node guarantees the hash. With a
  negative `max_retries` a hashing call reports success without sending anything, and the model is then sent
  an empty hash; a tolerated hashing failure has the same effect. `HashGuarantee.HashIsBackedExactly`
  says which configurations never do this.
- A negative `max_retries` also makes a publish succeed unsent:
  `EventLaws.AcknowledgedUnlessNegativeRetries` shows that this is exactly when a successful visit has
  no acknowledged attempt.
- `depends_on` is honoured for the names `enrichment` and `model_score` only;
  `StagedOrder.VisitedExactlyIfLive` says which nodes are visited.
- The DAG's `timeout_ms` does not bound a run. It only fills in missing node timeouts:
  `Specialisation.SpecialisationPreservesRuns` lets it take any value once these are written out. What
  does bound a run is given by `TimeLimits.RunsEndWithinExactly`; the shipped configuration, with 250
  ms, has a successful run of 480 ms (`TimeLimits.ShippedOverrunsItsTimeout`).
- One space at the end of an address can change its normalized form, and so can one beside a single
  comma, or a control character after a text that is all white space. `AddressForms.FormsAgreeExactly`
  gives the inputs for which no change of case, padding or word spacing matters.
- With two lookup nodes, losing the answer of the second can lower the score
  (`DegradationLimits.TwoLookupsCanHideRisk`); `DegradationLimits.DegradationIsSafeExactly` says for
  which configurations that cannot happen.

## Model

| member | source | states |
|---|---|---|
| DagConfig.EnabledForTenant | services/orchestration-service/internal/dag/config.go:51-61 | the search loop answers true exactly when the list is empty or some position of it holds the tenant |
| Plan.NodeTimeout | services/orchestration-service/internal/dag/executor.go:281-289 | the per-attempt timeout is positive, is the node's, else the DAG's, else 500 ms, and its conversion from 32-bit milliseconds to 64-bit nanoseconds is exact |
| Plan.Tolerant | services/orchestration-service/internal/dag/executor.go:306-316 | a failure lets the run go on for skip and degrade only; an unset or unknown policy is fail_fast |
| Plan.EveryDispatchedHasAPosition | services/orchestration-service/internal/dag/executor.go:112-115 | a pass leaves out no node of its stage that is enabled and recognised |
| Plan.JobsAreAtPositions | services/orchestration-service/internal/dag/executor.go:112-161 | the jobs of a pass are those of the dispatched nodes, one for one in list order |
| NodeVisits.VisitIsOfItsNode | services/orchestration-service/internal/dag/executor.go:111-238 | every visit of every run is that of a node which lists the tenant or nobody and has the pass's dependencies and the service's name, made with the node's retries, tolerance and timeout |
| NodeVisits.VisitedExactlyIfDue | services/orchestration-service/internal/dag/executor.go:111-238 | a run that answers visited a node in a pass if and only if the node lists the tenant or nobody and has the dependencies and a service name of that pass |
| NodeVisits.UnlistedNeverVisited | services/orchestration-service/internal/dag/config.go:51-61 | no run visits a node whose list is not empty and lacks the tenant |
| Executors.DependsOn | services/orchestration-service/internal/dag/executor.go:291-298 | the search loop answers membership in the dependency list |
| Executors.Executor.CallWithResilience | services/orchestration-service/internal/dag/executor.go:253-276 | the retry loop computes the recursive call function, log and clock included |
| Executors.Executor.Enrich | services/orchestration-service/internal/dag/executor.go:100-162 | the first pass leaves the state, or the error, of driving the enrichment jobs from the initial variables |
| Executors.Executor.ScoreNodes | services/orchestration-service/internal/dag/executor.go:164-200 | the second pass does the same for the model jobs and changes only the score |
| Executors.Executor.PublishNodes | services/orchestration-service/internal/dag/executor.go:205-238 | the third pass does the same for the publish jobs and changes only the status |
| Executors.Executor.Run | services/orchestration-service/internal/dag/executor.go:90-246 | the whole run answers and sends what the run function says; a config that does not load sends nothing |
| Resilience.AttemptsDecided | services/orchestration-service/internal/dag/executor.go:258-275 | every call is decided by one attempt: the first success, the last allowed, or the first whose backoff the context cuts short |
| Resilience.RetryIsFirstSuccess | services/orchestration-service/internal/dag/executor.go:253-276 | while the context outlasts the backoffs of 20 ms the call returns the first success among the first max_retries + 1 outcomes after exactly that many attempts, else the last outcome |
| Resilience.CancellationStopsRetrying | services/orchestration-service/internal/dag/executor.go:267-273 | the first backoff that the context does not outlast stops the retries and the context's error is returned, with no further attempt |
| Resilience.CallBlock | services/orchestration-service/internal/dag/executor.go:253-276 | the exchanges of one call carry one request, all but the last fail, each runs under the node's timeout and the caller's context and starts one backoff after the failure before it, and the result is the last one's unless the context cut in |
| Ledger.LastOkFound | services/orchestration-service/internal/dag/executor.go:128-158 | the answer kept for a service is that of its last successful node |
| Ledger.AskedAt | services/orchestration-service/internal/dag/executor.go:116-226 | what each node is asked is determined by the visits before it through the closed form |
| Payloads.VisitPayload | services/orchestration-service/internal/dag/executor.go:116-226 | each visit of a run asks its own service: the hasher for the claimant's name, the normalizer for the raw address, the lookup for the policy number, the model for exactly nine features, each from its own place, the publisher for an event with the status so far |
| Payloads.WirePayload | services/orchestration-service/internal/dag/executor.go:116-226 | every exchange of a run on the wire belongs to a visit and carries those fields |
| Ledger.RunKeeps | services/orchestration-service/internal/dag/executor.go:100-245 | in every run the variables are the closed form of the visits, the visits follow the plan, and nothing is published without a score |
| Ledger.RunClosedForm | services/orchestration-service/internal/dag/executor.go:100-245 | a run fails exactly when a node outside skip/degrade fails or no score is left after all model nodes; otherwise each output is the last successful answer of its service or the default, and the status is degraded exactly when a node outside the scoring stage failed |
| Payloads.AnswerFields | services/orchestration-service/internal/dag/executor.go:240-245 | the answer holds degraded or scored as some node but a model failed or not, the address of the last successful normalization or else the raw one, and the score and version of the last successful model answer |
| TraceLaws.ConfiguredRunClosedForm | services/orchestration-service/internal/dag/executor.go:100-245 | the closed form for the run of any configuration |
| TraceLaws.TilesInOrder | services/orchestration-service/internal/dag/executor.go:112-238 | blocks of visits never overlap in the log or in time |
| TraceLaws.PlanFollowsOrder | services/orchestration-service/internal/dag/executor.go:112-238 | the plan goes through strictly increasing (stage, list index) slots |
| TraceLaws.TraceGrammar | services/orchestration-service/internal/dag/executor.go:112-276 | everything sent is one block per visited slot in that order, with 1 to max_retries + 1 attempts of which all but the last fail; failed blocks are tolerated unless last, and a fatal one ends the run |
| TimeLaws.RunTime | services/orchestration-service/internal/dag/executor.go:83-88 | with prompt callees a run takes at most the sum of (max_retries + 1) timeouts and max_retries backoffs, and never passes a context deadline in the future |
| TimeLaws.BudgetIsSharp | services/orchestration-service/internal/dag/executor.go:253-276 | a callee that always fails at its deadline makes a call take exactly that budget |
| TimeLimits.RunsEndWithinExactly | services/orchestration-service/internal/dag/executor.go:253-289 | every run of a configuration with prompt callees ends within a limit if and only if the attempts and backoffs of its dispatched nodes fit in it, those of publish nodes counting only if the last model node sends anything |
| TimeLimits.RunsEndUnderExactly | services/orchestration-service/internal/dag/executor.go:253-289 | every such run that starts at a given instant under a given context ends within a limit if and only if that sum, or the time left to the context, or both, fit in it |
| TimeLimits.LateRun | services/orchestration-service/internal/dag/executor.go:100-276 | for any plan, context and start some prompt world makes a run take exactly the lesser of that budget and the time left to the context; if the context is not done by then, the run succeeds whenever any run of the plan can |
| TimeLimits.ShippedOverrunsItsTimeout | config/dag/acme_insurance/auto/claim.fnol.yaml:16-57 | in some prompt world the shipped configuration succeeds after exactly 480 ms, against its timeout of 250 ms |
| Shipped.ShippedJobs | config/dag/acme_insurance/auto/claim.fnol.yaml:20-57 | the jobs of the shipped configuration |
| TimeLaws.ShippedRunTime | config/dag/acme_insurance/auto/claim.fnol.yaml:20-57 | the shipped configuration ends within 480 ms |
| Specialisation.SpecialisationPreservesRuns | services/orchestration-service/internal/dag/executor.go:113-316 | dropping dead nodes, clearing enabled_for and writing out timeouts and policies changes no exchange, no time and no answer, whatever the DAG timeout becomes |
| Specialisation.SpecialisedIsSettled | services/orchestration-service/internal/dag/config.go:41-61 | every node left is dispatched for every tenant, and specialising again changes nothing |
| NameIndependence.NameReachesOnlyTheHasher | services/orchestration-service/internal/dag/executor.go:117-186 | claims differing only in the claimant's name, whose requests with these two names meet the same outcomes, give equal answers and equal exchanges, payloads and times included, but for the name on hashing calls |
| NameIndependence.OtherNamesAreFree | services/orchestration-service/internal/dag/executor.go:117-127 | that hypothesis holds of every world that sees names only in the request at hand and answers these two alike, however it answers other names |
| HashGuarantee.ModelSeesTheHash | services/orchestration-service/internal/dag/executor.go:172-181 | every model visit carries the hash of the last successful hashing visit, or the empty default |
| HashGuarantee.ModelCallsAreBacked | services/orchestration-service/internal/dag/executor.go:172-186 | with a fail_fast hashing job that sends requests, and none after it that does not, every model call on the wire carries the hash of the last hashing call of its run that was answered |
| HashGuarantee.FailFastHashSucceeded | services/orchestration-service/internal/dag/executor.go:172-175 | with a fail_fast hashing job some hashing visit has succeeded before any model visit, if only by sending nothing |
| HashGuarantee.UnguardedCallIsUnbacked | services/orchestration-service/internal/dag/executor.go:117-181 | without such a job, if some model job sends requests, some run makes a model call with a hash that no hashing call of it gave |
| HashGuarantee.HashIsBackedExactly | services/orchestration-service/internal/dag/executor.go:117-186 | all model calls of all runs of a configuration carry the hash given last if and only if such a hashing node is dispatched or no model node sends anything |
| EventLaws.PublishVisit | services/orchestration-service/internal/dag/executor.go:215-226 | what each publish node sends in terms of the answer and the status so far |
| EventLaws.EventsAgreeWithAnswer | services/orchestration-service/internal/dag/executor.go:210-245 | every publish attempt of a run that answers carries the answer's score and version, and its status too when no publish failed |
| EventLaws.EventStatusIsMonotone | services/orchestration-service/internal/dag/executor.go:210-238 | event statuses go from scored to degraded and never back |
| EventLaws.AtMostOneAcknowledged | services/orchestration-service/internal/dag/executor.go:215-236 | the attempts of one node carry the identical payload and at most one is acknowledged |
| EventLaws.AcknowledgedUnlessNegativeRetries | services/orchestration-service/internal/dag/executor.go:255-275 | a successful visit was acknowledged exactly when max_retries is not negative |
| EventLaws.ScoredUnlessSetBack | services/orchestration-service/internal/dag/executor.go:240-245 | a run that answers is reported scored if and only if all its failed visits are to models |
| EventLaws.LostModelLeavesNoMark | services/orchestration-service/internal/dag/executor.go:190-196 | with two model nodes, a run in which one fails and is tolerated, the other answers, and the result is scored |
| StagedOrder.EachEnabledNodeOnce | services/orchestration-service/internal/dag/executor.go:111-238 | in a well-staged config a successful run visits each enabled node exactly once, in the pass its dependencies ask for |
| StagedOrder.DependenciesComeFirst | services/orchestration-service/internal/dag/executor.go:54-65 | all attempts of a dependency precede all attempts of its dependents, in the log and in time |
| StagedOrder.VisitedExactlyIfLive | services/orchestration-service/internal/dag/executor.go:112-215 | a run that answers visited a node if and only if the node is enabled for the tenant and some pass recognises its dependencies and service |
| StagedOrder.OtherDependenciesNeverRun | services/orchestration-service/internal/dag/executor.go:76-77 | in any run, a node whose dependencies name neither group nor model score is never visited |
| Steadiness.SequentialEnrichment | services/orchestration-service/internal/dag/executor.go:111-162 | with outcomes fixed per request and attempt, the enrichment loop halts exactly if some node is doomed and otherwise ends in the state of the set of fates |
| OrderIndependence.PassOnCourse | services/orchestration-service/internal/dag/executor.go:111-162 | with outcomes fixed per request and attempt, the enrichment loop halts exactly if the course of some service, followed on its own, is doomed, and otherwise leaves every service where its own course puts it |
| OrderIndependence.ReorderingPreservesRuns | services/orchestration-service/internal/dag/executor.go:112-245 | moving nodes past nodes of other services changes neither success nor, on success, the answer, the feature maps sent or the events |
| OrderIndependence.PermutationPreservesRuns | services/orchestration-service/internal/dag/executor.go:112-245 | with at most one node per service any permutation of the node list has the same effect |
| Interleavings.InterleavingsAreSafe | services/orchestration-service/internal/dag/executor.go:57-64 | every state that any interleaving of the enrichment nodes over one common log reaches is that of the outcomes written so far |
| Interleavings.InterleavingMatchesLoop | services/orchestration-service/internal/dag/executor.go:57-64 | with one enrichment node per service, an interleaving over one common log that finishes meets a fatal failure exactly when the loop does, and otherwise leaves the same variables |
| Interleavings.CanFinish | services/orchestration-service/internal/dag/config.go:16-20 | every interleaving can be completed |
| Scoring.Score | services/model-service/internal/scoring/scoring.go:37-71 | despite errors in every constant, sum and product the score times 100 is exactly 5, plus 0, 15, 25 or 30 for an active, lapsed, cancelled or other policy, plus 5 without a coverage type, plus 10 unless the address is known to be valid, with an explanation of each in that order |
| Scoring.RoundingAbsorbs | services/model-service/internal/scoring/scoring.go:65 | rounding gives back the integer hundredths from any value within seven small errors |
| Scoring.ScoreInRange | services/model-service/internal/scoring/scoring.go:65 | the score is between 0.05 and 0.50 and the clamp never acts |
| Scoring.ExplanationsAccountForScore | services/model-service/internal/scoring/scoring.go:40-63 | the weights in the explanations add up to score minus base |
| Scoring.OneReasonPerTriggeredRule | services/model-service/internal/scoring/scoring.go:40-69 | exactly one explanation per triggered rule |
| Scoring.ScoreIsMonotone | services/model-service/internal/scoring/scoring.go:40-63 | a riskier feature map never scores lower, and scores equal exactly when equally risky on the three keys |
| Degradation.ScoreOfRun | services/orchestration-service/internal/dag/executor.go:176-196 | with the real scorer behind the model client, a run's score is that of the features its enrichment left, and its version is rules-v1 |
| Degradation.ScoreFromAnswers | services/orchestration-service/internal/dag/executor.go:142-196 | that score in points for the status, coverage type and validity of the last successful lookup and normalization |
| Degradation.DegradationNeverLowersScore | services/orchestration-service/internal/dag/executor.go:105-186 | turning successful lookups or normalizations into tolerated failures, whatever becomes of the hashes, never lowers the score, unless some earlier answer of their service is exposed |
| Degradation.DegradationNeverLowersConfiguredScore | services/orchestration-service/internal/dag/executor.go:105-186 | the same for any configuration without an exposed lookup or normalizer |
| Degradation.DegradationNeverLowersDistinctScore | services/orchestration-service/internal/dag/executor.go:105-186 | the same for any configuration with at most one enrichment node per service |
| DegradationLimits.DegradationIsSafeExactly | services/orchestration-service/internal/dag/executor.go:105-196 | losing answers never lowers the score of a configuration's runs if and only if no lookup or normalizer that sends requests is followed by more of its service that can all be lost, or no run can score |
| DegradationLimits.ExposedConfigurationDrops | services/orchestration-service/internal/dag/executor.go:128-158 | every configuration with such a node has two runs, equal but for lost answers, the second of which scores strictly lower |
| DegradationLimits.TwoLookupsCanHideRisk | services/orchestration-service/internal/dag/executor.go:142-158 | the same shown on a configuration of two lookups and a model |
| Addresses.Normalize | services/address-normalization-svc/src/main/java/io/redcell/addressnorm/AddressNormalizer.java:29-68 | the method, with its list built in place, computes the record; null reads as empty |
| Addresses.SplitTrimmed | services/address-normalization-svc/src/main/java/io/redcell/addressnorm/AddressNormalizer.java:46 | a trimmed part splits into its words, none empty unless the part is |
| Addresses.ComposeUpper | services/address-normalization-svc/src/main/java/io/redcell/addressnorm/AddressNormalizer.java:44-51 | upper-casing the parts first gives the same record |
| Addresses.ReparseRoundTrip | services/address-normalization-svc/src/main/java/io/redcell/addressnorm/AddressNormalizer.java:29-68 | the parts of every valid record, printed in the input's form, normalize to the same record |
| Addresses.RecordOf | services/address-normalization-svc/src/main/java/io/redcell/addressnorm/AddressNormalizer.java:29-68 | a blank input gives an empty record; fewer than three parts give the whole trimmed text; otherwise the first two parts are line1 and city, the last word of the third the postal code and the words before it the state |
| Addresses.WordsAreRead | services/address-normalization-svc/src/main/java/io/redcell/addressnorm/AddressNormalizer.java:34-51 | any two parts and any words, separated by commas and single spaces, are read as line1, city, state and postal code |
| Addresses.PrintedText | services/address-normalization-svc/src/main/java/io/redcell/addressnorm/AddressNormalizer.java:53-64 | the printed address is line1, city, the state and the postal code if not blank, and US, with a comma and a space between |
| Addresses.PrintedAddressSplitsBack | services/address-normalization-svc/src/main/java/io/redcell/addressnorm/AddressNormalizer.java:44-65 | the printed address splits back into exactly these fields in this order, and valid means five fields with line1 and city not blank |
| JavaStrings.ClassesCompared | services/address-normalization-svc/src/main/java/io/redcell/addressnorm/AddressNormalizer.java:30-46 | which characters are trimmed, separate words, or count as blank, and how the three classes overlap |
| JavaStrings.UpperAppend | services/address-normalization-svc/src/main/java/io/redcell/addressnorm/AddressNormalizer.java:36-51 | upper-casing goes character by character |
| AddressForms.OnlyThreePiecesCount | services/address-normalization-svc/src/main/java/io/redcell/addressnorm/AddressNormalizer.java:34-51 | with anything but padding in the third part or later, the record depends on the first three trimmed pieces only |
| AddressForms.FormsNormalizeAlike | services/address-normalization-svc/src/main/java/io/redcell/addressnorm/AddressNormalizer.java:29-68 | any chain of changes of case, padding at commas and ends and white space between words of the third part leaves the record of a form-free input unchanged |
| AddressForms.FormsAgreeExactly | services/address-normalization-svc/src/main/java/io/redcell/addressnorm/AddressNormalizer.java:29-68 | all forms of an input have one record if and only if something stands in its third part or later, or it has no comma and is empty or not blank once trimmed, or it has one comma between nothing but padding |
| AddressForms.FormCanMatter | services/address-normalization-svc/src/main/java/io/redcell/addressnorm/AddressNormalizer.java:29-42 | every other input has two forms with different records |

## Left out

- gRPC clients and servers, dialling, warm-up, interceptors, logging, Spring lifecycle: wrappers over libraries; the services are the `World`.
- Config loading: `Loader.Load` is an arbitrary function from tenant, product and event type to a config or an error; reading files, YAML and the version warning are not modelled.
- The Kafka writer and JSON encoding: a publish is an exchange that carries the event.
- Hashing and the policy fixtures: arbitrary answers of the world.
- The gateway handler, the orchestration server, and the tenant store: single-branch or lookup code that would only add easy members.
- Time spent by the executor itself, late timers, and the time of loading the config: only callees and backoffs take time.
- Text of the explanations: each is a rule with its weight.
- The last division by 100 and the clamp are exact; the rounding of that quotient to the nearest double is not modelled.
- Upper-casing tables: any mapping with the stated laws stands for them.
- Executors.Executor.Run: its three loops are three methods of the class, called in order, because one method body with all three is too costly to verify.
- Interleavings.InterleavingMatchesLoop: the source runs enrichment sequentially; the interleavings model the concurrency its comments and config describe, with the writes of one node as one step and each exchange entered in the common log when it ends.
- Design-only features (caching, invalidation, rate limiting, batch flow, general topological sort): not in the code.
