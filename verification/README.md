# Verified models of the blue-team platform's engines

This project models, in Dafny, the engines that carry the platform's state and its small query language, and
proves what they guarantee over all inputs and all runs.

- **Playbook engine** (`Playbook*.dfy`): the DAG scheduler with approval gates, bounded retries, early exit and the
  idempotency index. The scheduling semantics are functions (`Playbook`), the engine object runs the loops
  (`PlaybookEngines`), and the theorems range over any playbook, any executor (a function of the whole call history)
  and any interleaving of `run` and `approve`: what is asked and recorded (`PlaybookRecords`), in which order
  (`PlaybookOrder`), over histories (`PlaybookHistories`), and when the run handed out is the one asked for
  (`PlaybookKeys`).
- **BlueQL** (`BlueQL*.dfy`): the recursive-descent parser as a cursor with loops, proved against parsing functions and
  these against a declarative grammar, and the errors of the parser (`BlueQLErrors`); predicate evaluation with its
  errors and the comparison of field values; the greedy `FOLLOWED_BY` search against declarative chains; what
  comparisons select, told from the event (`BlueQLMeaning`); the rows exactly (`BlueQLRows`); which queries raise
  (`BlueQLRaising`, `BlueQLSafety`).
- **Detection and storage** (`Detection`, `Store*`, `IngestSteps`, `Resubmission`, `Replay`): the event window, the
  registry, the batch runner, ingestion with findings, evidence and dead letters, payloads that come again, and the
  comparison of batch replay with event-by-event ingestion.
- **Entity graph and risk** (`Graph*`): ids as digests of joined texts (`GraphIds`), the builder (`GraphBuilding`) and
  what it has observed (`GraphTheorems`, `GraphNames`, `GraphObserved`), scores (`GraphRisk`) and what they are told
  from (`GraphConcerns`), and the order of events (`GraphOrder`).
- **Event fabric and pipeline** (`Fabric*`, `Pipeline*`), **audit chain** (`Audit*`), **correlation rules**
  (`Correlation`, `StoryContents`), **network sessions** (`Sessions`, `SessionContents`), on shared `Common`, `Sorting`,
  `Grouping` and `Joining`.

Times are integers (microseconds), ids are counters or positions or, for events, drawn from a sequence whose novelty is
a named hypothesis where it is needed; so is the injectivity of hashes, which are abstract functions. Objects that
the source mutates are classes whose methods carry its loops; each method's postcondition equates it with a function of
the old state, and the lemmas speak about those functions.

Where the code and its comments or documentation differ, the code is followed:

- `approve` says it clears idempotency "so a resume can execute" (`packages/playbook-sdk/blueteam_playbook/engine.py:209`):
  it starts a new run and remembers no earlier approval; `StepwiseApprovalGoesRoundInCircles` and `ApprovalCompletesIff`
  say exactly what that means.
- An exception with an empty message counts as success, and a negative `retries` succeeds with no attempt
  (`packages/playbook-sdk/blueteam_playbook/engine.py:151-159`).
- A failing message is republished for another attempt (`packages/event-fabric/blueteam_fabric/pipeline.py:62-64`) under
  a key its group has consumed, so the attempt never takes place (`RetriesNeverGetAnAttempt`); `NothingIsLostIff` gives
  the condition under which nothing is lost this way.
- A payload that carries no id gets a new one each time it is normalised (`services/api/app/services/normalizer.py:46`,
  `packages/ingest-adapters/blueteam_ingest/syslog.py:61`), so submitting it again stores it again unless it yields an
  idempotency key (`ResubmissionChangesNothingIff`).
- Group and key are joined with a colon (`packages/event-fabric/blueteam_fabric/memory.py:49`), so groups whose names
  extend each other share keys (`KeysCollideIff`) and lose messages (`GroupsLoseNothingIff`).
- Other keys are joined texts as well: graph ids (`packages/entity-graph/blueteam_graph/engine.py:32`), sessions
  (`packages/network-adapters/blueteam_network/normalize.py:180-188`), and the playbook's idempotency and approval keys
  (`packages/playbook-sdk/blueteam_playbook/engine.py:104-107`, `:215`). `IdsCollideIff`, `SharesOnlyItsConversationIff`,
  `DefaultRunIsTheOneAskedForIff` and `ApprovalsShareAKeyIff` say which fields are told apart by them.
- `WITHIN 0s` means ten minutes (`packages/blueql/blueteam_blueql/engine.py:244`), the sequence search is complete for
  two steps only (`CompleteIffAtMostTwoSteps`), and a wider window can raise where a narrower one found rows
  (`WideningKeepsRows`, `WideningLosesRows`).
- A graph is filed under the tenant of whichever event comes first (`packages/entity-graph/blueteam_graph/engine.py:50`),
  so order matters between events of different tenants (`BuildIgnoresOrderIff`).
- Batch replay and streaming agree only for strictly increasing times (`ReplayAgreesIff`).

`dafny verify dfyconfig.toml` checks everything.

## Model

| member | source | states |
|---|---|---|
| `Playbook.EvaluateAction` | packages/playbook-sdk/blueteam_playbook/policy.py:33-38 | never answers DENY |
| `PlaybookProofs.RetryCalls` | packages/playbook-sdk/blueteam_playbook/engine.py:148-158 | the calls logged are one per attempt, and attempts stay within the bound (none at all for a negative bound) |
| `PlaybookTheorems.RetryOutcome` | packages/playbook-sdk/blueteam_playbook/engine.py:148-183 | a step fails exactly when every allowed attempt raises and the last message is not empty; otherwise it succeeds, with the outputs of the first attempt that answers if one does; an empty message therefore counts as success |
| `PlaybookProofs.PendingOfSpec` | packages/playbook-sdk/blueteam_playbook/engine.py:119 | the pending dict holds one step per id, the last one listed under it |
| `PlaybookProofs.SweepKeeps` | packages/playbook-sdk/blueteam_playbook/engine.py:122-184 | one pass keeps the scheduling invariant, and a pass without progress leaves every step it looked at blocked |
| `PlaybookProofs.ScheduleKeeps` | packages/playbook-sdk/blueteam_playbook/engine.py:120-186 | the loop keeps the scheduling invariant and, unless cut short, ends where no pending step is ready |
| `PlaybookProofs.RunInvariant` | packages/playbook-sdk/blueteam_playbook/engine.py:118-186 | every run of any executor ends in a state where visited and pending steps split the playbook, entries match visited steps and calls match attempts |
| `PlaybookTheorems.CallsAreAccountedFor` | packages/playbook-sdk/blueteam_playbook/engine.py:148-173 | for any executor, the calls of a run are exactly the recorded attempts, step by step in entry order, at most the sum of (retries + 1) |
| `PlaybookTheorems.EntriesAreTopological` | packages/playbook-sdk/blueteam_playbook/engine.py:122-184 | entries repeat no step, and every step not held at a gate comes after a success entry for each of its dependencies |
| `PlaybookTheorems.NoCallBehindAGate` | packages/playbook-sdk/blueteam_playbook/engine.py:122-139 | for any executor, none of the calls is for an unapproved gated step or for a step with a dependency path to one |
| `PlaybookTheorems.RunEnds` | packages/playbook-sdk/blueteam_playbook/engine.py:159-173 | a run stops at its first failed step; the exception for a bad tier needs a step with a bad tier |
| `PlaybookTheorems.SucceededIsSound` | packages/playbook-sdk/blueteam_playbook/engine.py:118-184 | for any executor, only members of every closed set of steps can succeed |
| `PlaybookTheorems.SucceededIsLeastFixpoint` | packages/playbook-sdk/blueteam_playbook/engine.py:118-186 | in every run that is not cut short, whatever exceptions the retries recovered from, the succeeded steps are the least set closed under "ungated with all dependencies succeeded", and the held steps are exactly the gated ones whose dependencies all succeeded |
| `PlaybookTheorems.CompletedIff` | packages/playbook-sdk/blueteam_playbook/engine.py:187-200 | the status of a run that is not cut short is completed if and only if nothing is gated, every dependency names a step and the dependency relation is acyclic |
| `PlaybookTheorems.IncompleteRunsAreDagFailures` | packages/playbook-sdk/blueteam_playbook/engine.py:189-198 | a run that is not cut short, has no gates and does not complete ends with exactly one extra entry, the dag failure |
| `PlaybookTheorems.OrderDoesNotMatter` | packages/playbook-sdk/blueteam_playbook/engine.py:118-203 | listing the steps in another order, or another executor, changes neither the succeeded nor the held steps nor the status, as long as neither run is cut short |
| `PlaybookTheorems.NonFailingRunsThrough` | packages/playbook-sdk/blueteam_playbook/engine.py:159-173 | an executor that raises nothing cuts no run short if every step has a known tier |
| `PlaybookEngines.PlaybookEngine.ExecuteStep` | packages/playbook-sdk/blueteam_playbook/engine.py:148-183 | the calls made and the entry recorded are those RetryOutcome and RetryCalls characterise |
| `PlaybookEngines.PlaybookEngine.Pass` | packages/playbook-sdk/blueteam_playbook/engine.py:121-184 | one pass over a snapshot; it made progress exactly if fewer steps are pending |
| `PlaybookEngines.PlaybookEngine.Drive` | packages/playbook-sdk/blueteam_playbook/engine.py:118-186 | the scheduling loop terminates with the outcome of the scheduling semantics |
| `PlaybookEngines.PlaybookEngine.Run` | packages/playbook-sdk/blueteam_playbook/engine.py:95-203 | a run, including the idempotency shortcut, the stored record and the key, equals one step of the engine model and keeps the index coherent |
| `PlaybookEngines.PlaybookEngine.Approve` | packages/playbook-sdk/blueteam_playbook/engine.py:205-217 | an approval releases the approved run's key and runs under the derived key, or raises for an unknown id |
| `PlaybookEngines.PlaybookEngine.Store` | packages/playbook-sdk/blueteam_playbook/engine.py:222-224 | the run is stored under its id and its key leads to it; everything else stays |
| `PlaybookEngines.KeysPointToTheirRuns` | packages/playbook-sdk/blueteam_playbook/engine.py:104-107 | over any interleaving of run and approve, every key leads to a stored run carrying that key |
| `PlaybookEngines.HistoryIsStable` | packages/playbook-sdk/blueteam_playbook/engine.py:222-224 | stored runs are never altered, and all calls ever made stay within the retry allowances of what was asked |
| `PlaybookEngines.LiveKeyReturnsTheSameRun` | packages/playbook-sdk/blueteam_playbook/engine.py:104-107 | while no run with the key is approved, asking for the key again returns the same run, calls nothing and changes nothing, whatever happened in between |
| `PlaybookEngines.ApprovalRepeats` | packages/playbook-sdk/blueteam_playbook/engine.py:205-217 | repeating an approval at once returns the same run without a call, and the approved run's own key is no longer live |
| `PlaybookEngines.ApprovalCompletesIff` | packages/playbook-sdk/blueteam_playbook/engine.py:205-217 | a first-time approval completes if and only if the ids given now and those the run waited for cover every gated step, and the dependencies exist and are acyclic |
| `PlaybookEngines.StepwiseApprovalGoesRoundInCircles` | packages/playbook-sdk/blueteam_playbook/engine.py:209-216 | approving two chained gates one after the other leaves the first waiting again: earlier approvals do not accumulate |
| `PlaybookKeys.ReturnedRunsCanBeFetched` | packages/playbook-sdk/blueteam_playbook/engine.py:219-224 | a run that was returned is found under its id ever after, unchanged |
| `PlaybookKeys.DefaultRunIsTheOneAskedForIff` | packages/playbook-sdk/blueteam_playbook/engine.py:104-107 | after any runs under default keys, the run returned is of the playbook and for the tenant asked for, if and only if neither id contains a colon |
| `PlaybookKeys.GivenKeysCrossTenants` | packages/playbook-sdk/blueteam_playbook/engine.py:104-107 | a given key used again by another tenant returns the first tenant's run |
| `PlaybookKeys.ApprovalsShareAKeyIff` | packages/playbook-sdk/blueteam_playbook/engine.py:205-217 | non-empty approvals of one run with comma-free ids share a key, so that the second gets the run of the first, exactly if they name the same ids equally often, in any order |
| `PlaybookKeys.CommasConfuseApprovals` | packages/playbook-sdk/blueteam_playbook/engine.py:215 | a comma in an id confuses it with two ids, and no approval is confused with that of a blank id |
| `PlaybookRecords.GatedIff` | packages/playbook-sdk/blueteam_playbook/policy.py:16-38 | a step waits at the gate exactly in a live run, if it is not approved and is of tier 1 or 2 or one of the eleven listed actions |
| `PlaybookRecords.ExecutorIsAsked` | packages/playbook-sdk/blueteam_playbook/engine.py:118-158 | for any executor, every call of a run is for a step of the playbook, with its action, its parameters and the run's dry-run flag, and in a live run for a step that is approved or may run unattended |
| `PlaybookRecords.EntriesTellTheReplies` | packages/playbook-sdk/blueteam_playbook/engine.py:126-184 | for any executor, each entry has the id, action and rollback of its step and is either a hold at the gate or told by the replies to the calls made for it: attempts, status, outputs and error |
| `PlaybookRecords.StatusTellsTheEntries` | packages/playbook-sdk/blueteam_playbook/engine.py:159-203 | a run failed iff an entry did, waits iff none failed and ids are waiting, and has completed only with an entry for every step; the ids waiting are those of the entries held; the only extra entry is the dag failure, at the end |
| `PlaybookOrder.StepsAreTakenInTurn` | packages/playbook-sdk/blueteam_playbook/engine.py:120-126 | in every run each step taken is the first one ready, looking on from the one taken before in the order of the playbook and round again |
| `PlaybookOrder.PendingKeepsPlaces` | packages/playbook-sdk/blueteam_playbook/engine.py:119 | the steps of a run come in the order in which the playbook first lists their ids |
| `PlaybookHistories.RunCarriesTheRequest` | packages/playbook-sdk/blueteam_playbook/engine.py:95-203 | a live key answers with its run; otherwise one run is stored under its key with the playbook, tenant and dry-run flag asked for and the status, entries and approvals of the execution |
| `PlaybookHistories.ApprovalCarriesOver` | packages/playbook-sdk/blueteam_playbook/engine.py:205-217 | an approval releases the key and runs for the approved run's tenant with its dry-run flag, and steps that need approval are asked for only if given now or waited for then |
| `PlaybookHistories.EveryCallIsDue` | packages/playbook-sdk/blueteam_playbook/engine.py:95-217 | over any history of runs and approvals, every call ever made is due to one operation: live for a step that needs approval only if that operation had it approved |
| `PlaybookHistories.LeqIsOrder` | packages/playbook-sdk/blueteam_playbook/engine.py:215 | approved ids are sorted by code points |
| `PlaybookHistories.ApprovalKeyText` | packages/playbook-sdk/blueteam_playbook/engine.py:215 | the ids b, c, a make the key end in :approved:a,b,c |
| `BlueQLLexer.Lexer.MoreValues` | packages/blueql/blueteam_blueql/engine.py:151-156 | the loop over further IN values reads what the parsing function reads |
| `BlueQLLexer.Lexer.List` | packages/blueql/blueteam_blueql/engine.py:146-160 | an IN list, with its three errors |
| `BlueQLLexer.Lexer.Comparison` | packages/blueql/blueteam_blueql/engine.py:161-169 | a comparator and a literal |
| `BlueQLLexer.Lexer.Primary` | packages/blueql/blueteam_blueql/engine.py:134-169 | NOT, parentheses, IN and comparisons |
| `BlueQLLexer.Lexer.AndExpr` | packages/blueql/blueteam_blueql/engine.py:127-131 | the AND loop, left associated |
| `BlueQLLexer.Lexer.OrExpr` | packages/blueql/blueteam_blueql/engine.py:120-124 | the OR loop, left associated |
| `BlueQLLexer.Lexer.DurationClause` | packages/blueql/blueteam_blueql/engine.py:110-117 | a duration in seconds |
| `BlueQLLexer.Lexer.EntityForm` | packages/blueql/blueteam_blueql/engine.py:89-94 | FROM entity WHERE predicate |
| `BlueQLLexer.Lexer.StepsForm` | packages/blueql/blueteam_blueql/engine.py:96-103 | FOLLOWED_BY steps with an optional WITHIN |
| `BlueQLLexer.ParseQuery` | packages/blueql/blueteam_blueql/engine.py:87-107 | the cursor parser terminates and returns what the parsing function returns, on every token string |
| `BlueQLGrammar.DerivationIsParsed` | packages/blueql/blueteam_blueql/engine.py:87-169 | completeness: the token string of any derivation is accepted with the tree it denotes |
| `BlueQLGrammar.ParsedIsDerived` | packages/blueql/blueteam_blueql/engine.py:87-169 | soundness: an accepted token string has a derivation denoting the returned tree |
| `BlueQLGrammar.ParserDecidesGrammar` | packages/blueql/blueteam_blueql/engine.py:87-169 | the parser accepts exactly the grammar's token strings, each with the one tree it denotes |
| `BlueQLGrammar.GrammarIsUnambiguous` | packages/blueql/blueteam_blueql/engine.py:87-169 | no token string denotes two trees |
| `BlueQLGrammar.PrintThenParse` | packages/blueql/blueteam_blueql/engine.py:87-169 | printing any tree the parser can return with minimal parentheses and parsing again gives that tree |
| `BlueQLGrammar.ParsedIsProper` | packages/blueql/blueteam_blueql/engine.py:146-160 | whatever is returned has no empty IN list and no empty step list, so it is within the round trip |
| `BlueQLGrammar.PrintIsShortest` | packages/blueql/blueteam_blueql/engine.py:87-169 | no token string for the same query is shorter than the printed one |
| `BlueQLErrors.RejectionHasItsReason` | packages/blueql/blueteam_blueql/engine.py:60-169 | every rejection names what is missing at some token, after the tokens that ask for it |
| `BlueQLSearch.FilterRowsSpec` | packages/blueql/blueteam_blueql/engine.py:232-237 | a filter keeps exactly the events its predicate holds of, in order, and raises exactly when evaluation raises on some event |
| `BlueQLSearch.Filtered` | packages/blueql/blueteam_blueql/engine.py:234-237 | the rows FilterRowsSpec characterises |
| `BlueQLSearch.Scan` | packages/blueql/blueteam_blueql/engine.py:256-266 | the inner scan: the first later candidate inside the window where the step holds |
| `BlueQLSearch.TryStart` | packages/blueql/blueteam_blueql/engine.py:250-269 | the match from one start, as MatchIffEarliestChain characterises it, having looked at exactly LooksFrom candidates |
| `BlueQLSearch.Sequence` | packages/blueql/blueteam_blueql/engine.py:243-279 | the rows of the whole search, having looked at exactly Looks candidates |
| `BlueQLSearch.LooksFromBound` | packages/blueql/blueteam_blueql/engine.py:254-269 | one start looks at no more candidates than come after it, however many steps there are |
| `BlueQLSearch.LooksBound` | packages/blueql/blueteam_blueql/engine.py:247-271 | the whole search looks at no more than n(n-1)/2 candidates |
| `BlueQLSearch.Dedupe` | packages/blueql/blueteam_blueql/engine.py:272-279 | hits without repeated ids, first hit first |
| `BlueQLSearch.Execute` | packages/blueql/blueteam_blueql/engine.py:232-240 | a query parsed and run as its form asks |
| `BlueQLSearch.MatchIsEarliestChain` | packages/blueql/blueteam_blueql/engine.py:247-271 | a match is a chain from its start: positions strictly increasing, each step true at its position, each gap within the window, and each later position the earliest possible |
| `BlueQLSearch.MatchIffEarliestChain` | packages/blueql/blueteam_blueql/engine.py:247-271 | the search reports a chain from a start if and only if it is the chain of earliest positions |
| `BlueQLSearch.TwoStepsComplete` | packages/blueql/blueteam_blueql/engine.py:247-271 | with at most two steps, every start of some chain is reported |
| `BlueQLExamples.GreedyMissesAChain` | packages/blueql/blueteam_blueql/engine.py:254-269 | with three or more steps a chain can be missed: A at 0 s, B at 1 s and 9 s, C at 15 s, window 10 s, and longer variants |
| `BlueQLExamples.CompleteIffAtMostTwoSteps` | packages/blueql/blueteam_blueql/engine.py:247-271 | with the fields and comparisons of the source, the search is complete over all queries that do not raise exactly for at most two steps |
| `BlueQLSearch.MatchSurvivesWidening` | packages/blueql/blueteam_blueql/engine.py:254-269 | the match found under a window is the match found under any wider one |
| `BlueQLSearch.SequenceRowsAreSound` | packages/blueql/blueteam_blueql/engine.py:243-279 | rows are events of the input, no id twice, each on a chain |
| `BlueQLSearch.ReportedIsInRows` | packages/blueql/blueteam_blueql/engine.py:270-279 | every event of a reported match is in the rows, by id |
| `BlueQLRaising.TwoStepStartsAreInRows` | packages/blueql/blueteam_blueql/engine.py:247-279 | a two-step query that raises nowhere comes back with rows, and every event that starts a chain is among them, by id |
| `BlueQLRaising.MatchRaisesIff` | packages/blueql/blueteam_blueql/engine.py:247-266 | one start raises exactly if its own step raises there, or some later step raises at a candidate inside the window before it holds anywhere, the steps before it matched as early as possible |
| `BlueQLRaising.SequenceRaisesIff` | packages/blueql/blueteam_blueql/engine.py:243-271 | the search raises exactly if the first step raises on some event or some start raises on its way |
| `BlueQLRaising.RaisingSurvivesWidening` | packages/blueql/blueteam_blueql/engine.py:254-266 | a search that raises under a window raises under every wider one |
| `BlueQLRaising.WideningKeepsRows` | packages/blueql/blueteam_blueql/engine.py:244-279 | widening the effective window keeps every row, for any number of steps, exactly if the wider search does not raise, which is so whenever no step raises on any event; no window and zero both mean 600 seconds |
| `BlueQLExamples.WideningLosesRows` | packages/blueql/blueteam_blueql/engine.py:254-266 | a query with two rows at ten seconds raises, and loses both, at sixty |
| `BlueQLValues.InIsDisjunction` | packages/blueql/blueteam_blueql/engine.py:220-222 | an IN list means the disjunction of its equalities, errors included |
| `BlueQLValues.InSelectsAsDisjunction` | packages/blueql/blueteam_blueql/engine.py:213-235 | rewriting an IN list to that disjunction changes no answer |
| `BlueQLValues.NegationIff` | packages/blueql/blueteam_blueql/engine.py:193-219 | negating a comparison is the opposite comparison, errors included, except exactly for an ordering of a missing value, which fails either way |
| `BlueQLValues.MissingEqualsNone` | packages/blueql/blueteam_blueql/engine.py:194-197 | a missing value equals the text none in any case, and no other text |
| `BlueQLValues.LiteralsSelectAlikeIff` | packages/blueql/blueteam_blueql/engine.py:194-196 | two literals select the same events by every boolean field if and only if both or neither mean true: True, "true", 1 and 1.0 are one class, all others the other |
| `BlueQLMeaning.EvalDecides` | packages/blueql/blueteam_blueql/engine.py:213-219 | the connectives are those of logic, parts being looked at from the left only as far as needed; evaluation raises if neither truth nor falsity comes out |
| `BlueQLMeaning.FlagIsSet` | packages/blueql/blueteam_blueql/engine.py:183-188 | the flags told from the event: destination outside the private ranges, successful login, change of privileges |
| `BlueQLMeaning.FailuresAreCounted` | packages/blueql/blueteam_blueql/engine.py:184 | auth.failures is one for an authentication that failed and zero otherwise |
| `BlueQLMeaning.NumbersAreOrdered` | packages/blueql/blueteam_blueql/engine.py:202-209 | an ordering of a computed field selects exactly the events whose reading is so ordered to the literal, in arithmetic |
| `BlueQLMeaning.TextsAreOrdered` | packages/blueql/blueteam_blueql/engine.py:200-209 | an ordering of a stored field selects exactly the events whose text comes before or after the literal by code points; an event without the field never |
| `BlueQLMeaning.ComparisonRaisesIff` | packages/blueql/blueteam_blueql/engine.py:189-209 | a comparison raises on an event exactly for an unknown field or an ordering of text with a number or flag |
| `BlueQLMeaning.TextEquals` | packages/blueql/blueteam_blueql/engine.py:194-197 | equality of a stored field is equality of words but for case, a missing field having the word None |
| `BlueQLMeaning.FlagEquals` | packages/blueql/blueteam_blueql/engine.py:195-196 | a flag equals TRUE, "true", 1 and 1.0 when set and anything else when not |
| `BlueQLMeaning.FailuresEqual` | packages/blueql/blueteam_blueql/engine.py:197 | auth.failures = n selects by the count |
| `BlueQLMeaning.UnequalIsNotEqual` | packages/blueql/blueteam_blueql/engine.py:198-199 | inequality is the complement of equality |
| `BlueQLRows.QueriesAnswer` | packages/blueql/blueteam_blueql/engine.py:232-240 | entity queries and queries of one step select the events the predicate holds of, as given, or raise if it is neither true nor false of one; longer ones search; what does not parse is refused |
| `BlueQLRows.RowsAreFirstReports` | packages/blueql/blueteam_blueql/engine.py:243-279 | the rows are the events of all reported chains, start after start and step after step, each id where it comes first |
| `BlueQLRows.NoWindowMeansTenMinutes` | packages/blueql/blueteam_blueql/engine.py:244 | no window and a window of zero are one of 600 seconds |
| `BlueQLRows.HuntIsParsed` | packages/blueql/blueteam_blueql/engine.py:87-169 | auth.failures > 0 FOLLOWED_BY privilege.change = true WITHIN 10m is two steps within 600 seconds |
| `BlueQLRows.HuntFinds` | packages/blueql/blueteam_blueql/engine.py:232-279 | that query never raises, returns only failed logins and changes of privileges, and every failed login that a later change of privileges follows within ten minutes |
| `BlueQLSafety.LeafNeverRaisesIff` | packages/blueql/blueteam_blueql/engine.py:172-225 | a comparison or IN raises on no event exactly if its field is known and an ordering compares stored text with text or computed numbers and flags with numbers and flags |
| `BlueQLSafety.SafeIff` | packages/blueql/blueteam_blueql/engine.py:213-225 | a predicate none of whose parts raises on any event is exactly one whose leaves are all of that kind |
| `BlueQLSafety.ShortCircuitHidesALeaf` | packages/blueql/blueteam_blueql/engine.py:213-218 | a predicate can raise on no event although one of its leaves would, behind a part that never holds |
| `BlueQLSafety.SafeQueriesKeepRows` | packages/blueql/blueteam_blueql/engine.py:243-279 | a sequence of safe steps returns rows on any events, and widening its window loses none |
| `Detection.QueryWindow` | packages/detection-sdk/blueteam_detection/context.py:13-47 | exactly the events of the tenant, time span and filters, in order; an empty filter does not restrict |
| `Detection.QueryKeeps` | packages/detection-sdk/blueteam_detection/context.py:26-47 | a query keeps, in order, the tenant's events between both times, included, that have what each filter asks for; a blank filter asks for nothing |
| `Detection.DetectionRegistry.Register` | packages/detection-sdk/blueteam_detection/registry.py:14-15 | registering replaces the rule of that id in place, or adds it at the end |
| `Detection.RegisterReplaces` | packages/detection-sdk/blueteam_detection/registry.py:14-18 | afterwards the id leads to the new rule and every other id to what it led to before; the registry grows only for a new id |
| `Detection.RegisterKeepsPlaces` | packages/detection-sdk/blueteam_detection/registry.py:14-15 | a rule whose id is registered again is replaced where it is, every other stays where it was, and a new id goes to the end |
| `Detection.DetectionRegistry.Evaluate` | packages/detection-sdk/blueteam_detection/registry.py:23-32 | the findings of the rules that run in this mode, in registry order |
| `StoreFindings.RulesAreEvaluatedInOrder` | packages/detection-sdk/blueteam_detection/registry.py:23-32 | the findings come rule after rule: a sweep leaves out rules of realtime execution, an arrival those on schedule |
| `Detection.RunScenario` | packages/blue-range/blueteam_range/runner.py:22-29 | the findings of the batch semantics, every event against the whole window with what was found before open |
| `Detection.OpenAll` | packages/blue-range/blueteam_range/runner.py:27-28 | every produced fingerprint is open afterwards |
| `Detection.SprayIsDisciplined` | detections/python/identity/password_spray.py:31-60 | the password-spray rule reads the window only through events_in_window, cites only what it saw and never reports an open fingerprint |
| `Detection.SprayFiresIff` | detections/python/identity/password_spray.py:31-47 | it fires exactly on a failed login with an address when at least five named accounts failed from it in the ten minutes before, unless that minute's fingerprint is open |
| `Detection.SprayReports` | detections/python/identity/password_spray.py:47-60 | the one finding is of the tenant, under rule, tenant, address and minute, cites the failures around it in order, itself in front unless among them, and names address and account |
| `Store.Database.RegisterEventEvidence` | services/api/app/services/evidence.py:14-70 | an existing row is reused, a missing source raises and changes nothing, otherwise a row with the source's hash is added |
| `Store.Database.RegisterEvents` | services/api/app/services/detection.py:84-93 | evidence for each cited event in order |
| `Store.Database.StoreFindings` | services/api/app/services/detection.py:72-125 | suppressed findings and known fingerprints are skipped, the others stored with their evidence |
| `Store.Database.EvaluateStored` | services/api/app/services/detection.py:22-32 | one event evaluated against the stored window |
| `Store.Database.SweepEvent` | services/api/app/services/detection.py:62-63 | one event of the sweep: what it stored is open for the next |
| `Store.Database.Scheduled` | services/api/app/services/detection.py:51-64 | the scheduled sweep over the whole window, with fingerprints opened as findings are stored |
| `Store.Database.Settle` | services/api/app/services/ingestion.py:28-85 | acting on the verdict about one payload, about which OnePayloadIsTaken speaks |
| `Store.Database.IngestPayloads` | services/api/app/services/ingestion.py:16-99 | a batch leaves tables and report as the ingest semantics say, about which the accounting and resubmission lemmas speak |
| `StoreFindings.StoresTheNew` | services/api/app/services/detection.py:70-123 | of a list of findings exactly those are stored, in order, that are neither suppressed nor known to the tenant nor already stored for an earlier one |
| `StoreFindings.ArrivalIsAnswered` | services/api/app/services/detection.py:22-32 | an event that arrives is answered: every unsuppressed finding of a rule that runs on arrival is known afterwards, and every row added is such a finding, not known before |
| `StoreFindings.ScheduledAnswersTheWindow` | services/api/app/services/detection.py:51-64 | a sweep answers every event of the window in turn, given the whole window and what is known by then, with the rules that run on schedule; it adds nothing else and counts exactly what it added |
| `StoreFindings.WindowIsTheTenants` | services/api/app/services/ingestion.py:114-120 | the window is the tenant's events in time order, those of one moment as they were stored |
| `IngestSteps.OnePayloadIsTaken` | services/api/app/services/ingestion.py:28-85 | what one payload does to tables and report: rejected, a repeat of the event with its key or id, a collision, or accepted with its own id and time or those drawn, its raw hash, and the findings that answer it |
| `IngestSteps.BatchTakesItsPayloads` | services/api/app/services/ingestion.py:23-99 | a batch starts with an empty report and takes its payloads so, one after the other |
| `IngestSteps.EvidenceIsRegistered` | services/api/app/services/evidence.py:14-70 | evidence of the tenant for the event is reused; else one row with the raw hash of the tenant's event and the collector; else nothing |
| `StoreProofs.IngestAccountsForEveryPayload` | services/api/app/services/ingestion.py:23-99 | a batch never fails, accepted + duplicates + rejected = batch size, dead letters grow by the rejected and events by the accepted, and no row of another tenant is added or changed |
| `StoreProofs.IngestReportsWhatItDid` | services/api/app/services/ingestion.py:23-99 | accepted ids are those of the added event rows and rejections the added dead letters, both in order, duplicates name stored events of the tenant, and findings_created counts the added findings |
| `StoreProofs.SweepKeeps` | services/api/app/services/detection.py:51-64 | a sweep keeps the store sound and only adds evidence and findings of its tenant |
| `StoreProofs.ReachableStoresAreSound` | services/api/app/services/detection.py:67-125 | in every state reached by ingests and sweeps of any tenants, evidence ids match event ids position by position with rows of the tenant whose source is stored with the same hash, fingerprints are unique per tenant, and no operation failed for a missing evidence source |
| `StoreProofs.FindingEvidenceVerifies` | services/api/app/services/evidence.py:110-123 | in every such state the evidence of every finding verifies as intact |
| `StoreProofs.VerifyEvidenceIff` | services/api/app/services/evidence.py:110-123 | intact is answered exactly for evidence of the tenant whose source is stored, in the tenant, with the same hash |
| `Resubmission.SettledIff` | services/api/app/services/ingestion.py:43-59 | with a new id at hand, a payload is accepted exactly if it normalises and neither its own id nor, within the tenant, its key is stored |
| `Resubmission.IngestSettlesAll` | services/api/app/services/ingestion.py:28-85 | after a batch, no payload of it that carries its own id or yields a key would be accepted again |
| `Resubmission.ResubmittedIsAcceptedIff` | services/api/app/services/ingestion.py:28-85 | submitted again at any later time, a payload is accepted a second time iff it normalises, carries no id of its own and yields no key |
| `Resubmission.ResubmissionChangesNothingIff` | services/api/app/services/ingestion.py:23-99 | submitting a batch again accepts exactly its payloads of that kind; so nothing iff there are none, and then no finding is created and no row added but dead letters |
| `Resubmission.SyslogLineIsAcceptedTwice` | packages/ingest-adapters/blueteam_ingest/syslog.py:60-77 | a syslog line, which always gets a new id and no key, is accepted each time it is submitted |
| `Replay.IngestIsStreaming` | services/api/app/services/detection.py:22-32 | ingesting a scenario, event times in any order, accepts every payload and stores exactly the streaming run's findings |
| `Replay.StreamKeepsFirsts` | packages/blue-range/blueteam_range/runner.py:22-29 | with strictly increasing times the streaming run keeps, of the batch run's findings, the first of each fingerprint |
| `Replay.BatchNoRepeats` | packages/blue-range/blueteam_range/runner.py:22-29 | under rules that report once under fingerprints of their own, a batch run repeats no fingerprint |
| `Replay.ReplayAgreesIff` | packages/detection-sdk/blueteam_detection/context.py:64-76 | for single-tenant events with distinct ids, batch and streaming report the same findings under every disciplined rule set if and only if event times strictly increase |
| `Replay.ReplayEqualsIngest` | services/api/app/services/detection.py:67-125 | for such scenarios and rules, ingesting stores exactly the findings of run_scenario, in order and citing the same events, and counts them |
| `Replay.ReplayEqualsIngestIff` | packages/blue-range/blueteam_range/runner.py:22-29 | without asking that rules report once, the two agree exactly if the batch run repeats no fingerprint |
| `GraphBuilding.GraphBuilder.UpsertEntity` | packages/entity-graph/blueteam_graph/engine.py:54-76 | one upsert adds exactly its sighting to what the graph summarises |
| `GraphBuilding.GraphBuilder.RelateEntities` | packages/entity-graph/blueteam_graph/engine.py:78-92 | one relate adds exactly its tie |
| `GraphBuilding.GraphBuilder.Observe` | packages/entity-graph/blueteam_graph/engine.py:94-146 | one event adds exactly its sightings and ties |
| `GraphBuilding.BuildEntities` | packages/entity-graph/blueteam_graph/engine.py:51-146 | the loop yields the entities and relations of all sightings and ties |
| `GraphIds.KeyTellsEntity` | packages/entity-graph/blueteam_graph/engine.py:31-33 | within a tenant, an entity id belongs to one kind and key |
| `GraphIds.KeyTellsRelation` | packages/entity-graph/blueteam_graph/engine.py:36-38 | within a tenant, a relation id belongs to one relation between one pair of entities |
| `GraphIds.IdsCollideIff` | packages/entity-graph/blueteam_graph/engine.py:31-33 | entities of two tenants can share an id exactly if one tenant name is the other followed by a bar, a kind name and then nothing or a bar and lower-case text |
| `GraphIds.RelationKeysNeverCollide` | packages/entity-graph/blueteam_graph/engine.py:36-38 | relations of two tenants never share an id |
| `GraphTheorems.MentionsIffNamed` | packages/entity-graph/blueteam_graph/engine.py:94-146 | the upserts of an event are exactly for the users, hosts, processes, parents, addresses, domains and cloud resources it names |
| `GraphTheorems.ShowsIffJoins` | packages/entity-graph/blueteam_graph/engine.py:113-146 | the relations of an event are exactly those whose two ends it joins |
| `GraphNames.MentionsIffNames` | packages/entity-graph/blueteam_graph/engine.py:94-146 | field by field: users by name, hosts by id or else name, processes by name and number with zero read as none, addresses, domains, cloud resources by id or else account, all in small letters; a parent only beside a process |
| `GraphNames.ShowsIffRelates` | packages/entity-graph/blueteam_graph/engine.py:113-146 | field by field, which ends each of the six relations joins |
| `GraphNames.FirstEventNamesIt` | packages/entity-graph/blueteam_graph/engine.py:57-71 | display name and attributes are those the first event naming the entity gives it, empty values left out |
| `GraphNames.IdsAreMadeOf` | packages/entity-graph/blueteam_graph/engine.py:31-38 | the texts that are hashed for entity and relation ids |
| `GraphTheorems.EntitiesAreWhatWasObserved` | packages/entity-graph/blueteam_graph/engine.py:54-76 | an entity exists iff some event mentions it; its event ids are those of the mentioning events, each once; first and last seen are the min and max of their times |
| `GraphTheorems.FirstMentionWins` | packages/entity-graph/blueteam_graph/engine.py:57-71 | event ids are in order of first mention, display name and attributes are those of the first mention |
| `GraphTheorems.RelationsAreWhatWasObserved` | packages/entity-graph/blueteam_graph/engine.py:78-92 | a relation exists iff some event shows it, with the ids of the events that do, each once |
| `GraphTheorems.RelationsHaveTheirEnds` | packages/entity-graph/blueteam_graph/engine.py:78-146 | both ends are entities, and each event id of the relation is on both |
| `GraphOrder.BuildIgnoresOrderIff` | packages/entity-graph/blueteam_graph/engine.py:41-158 | the same events and findings in another order build the same entities, relations and scores if and only if the first event is of the same tenant or no event names anything |
| `GraphOrder.DifferentHeadsShareNothing` | packages/entity-graph/blueteam_graph/engine.py:50-92 | if the first events are of different tenants, the graphs have no relation in common, and no entity unless one tenant name extends the other with a kind name |
| `GraphOrder.ExtendedTenantSharesAnId` | packages/entity-graph/blueteam_graph/engine.py:31-50 | two events of two such tenants whose order decides whether one id is a user or an address |
| `GraphOrder.SwappingTenantsChangesTheGraph` | packages/entity-graph/blueteam_graph/engine.py:50 | two events of two tenants whose order decides in which graph the user is |
| `GraphRisk.ApplyRisk` | packages/entity-graph/blueteam_graph/engine.py:161-195 | the counted findings, components and score of an entity, about which ComponentsAddUp speaks |
| `GraphRisk.ComponentsAddUp` | packages/entity-graph/blueteam_graph/engine.py:161-195 | in exact hundredths the components sum to raw times factor and the score is that sum capped at one hundred |
| `GraphRisk.MoreFindingsNeverLower` | packages/entity-graph/blueteam_graph/engine.py:161-195 | adding a finding anywhere never lowers the score |
| `GraphRisk.RaisingCriticalityNeverLowers` | packages/entity-graph/blueteam_graph/engine.py:182-194 | raising criticality never lowers the score |
| `GraphRisk.RateAll` | packages/entity-graph/blueteam_graph/engine.py:148-151 | every entity is rated, unknown criticality by default |
| `GraphObserved.BuildGraph` | packages/entity-graph/blueteam_graph/engine.py:41-158 | the whole graph and its scores: exactly what was observed, filed under the first event's tenant, and empty for no events |
| `GraphConcerns.RisksAreTold` | packages/entity-graph/blueteam_graph/engine.py:148-212 | in every graph built, findings, components and score of an entity are told from the findings that concern it: of its tenant, and citing an event that names it or having it among their attributes |
| `GraphConcerns.CitedEntitiesAreConcerned` | packages/entity-graph/blueteam_graph/engine.py:161-212 | a finding is listed for an entity iff it is of the tenant and cites an event naming the entity or has it among its attributes |
| `GraphConcerns.OneFindingScores` | packages/entity-graph/blueteam_graph/engine.py:14-21 | alone, at unknown criticality, a finding scores 40, 25, 12, 5 or 1 |
| `Fabric.InMemoryFabric.PublishMessage` | packages/event-fabric/blueteam_fabric/memory.py:27-34 | publishing appends, counts and updates lag, or raises for an unknown topic |
| `Fabric.InMemoryFabric.ConsumeMessages` | packages/event-fabric/blueteam_fabric/memory.py:36-56 | the consuming loop: skip known keys, deliver the rest up to the limit |
| `Fabric.InMemoryFabric.DeadLetterMessage` | packages/event-fabric/blueteam_fabric/memory.py:58-68 | the poisoned copy is published to the dead-letter topic |
| `Fabric.FabricInvariant` | packages/event-fabric/blueteam_fabric/memory.py:27-68 | over any interleaving: published = removed ++ queued in order on every topic, lag is queue length, consumed keys = sum of offsets = deliveries, no composite key delivered twice, drops only of delivered composite keys |
| `Fabric.EachKeyOncePerGroup` | packages/event-fabric/blueteam_fabric/memory.py:47-54 | each group gets each idempotency key at most once |
| `Fabric.DroppedOnlyIfAlreadyGiven` | packages/event-fabric/blueteam_fabric/memory.py:49-51 | when no group name extends another with a colon, a message is dropped only if the group had been given its key |
| `Fabric.KeysCollideIff` | packages/event-fabric/blueteam_fabric/memory.py:49 | composite keys of two groups can collide exactly when the names are equal or one is the other followed by a colon and more |
| `Fabric.ExtendingGroupLosesMessages` | packages/event-fabric/blueteam_fabric/memory.py:49-51 | a group whose name extends another with a colon can lose a message it was never given, for any two such names |
| `Fabric.GroupsLoseNothingIff` | packages/event-fabric/blueteam_fabric/memory.py:36-56 | for any set of group names, nothing is dropped but what its group had been given, whatever is published and consumed, if and only if no name extends another with a colon |
| `FabricBatches.ConsumeHandsOver` | packages/event-fabric/blueteam_fabric/memory.py:36-56 | a group is given from the front of a topic what is new to it, in order, each key once, until it has max_records or the topic is empty; the rest is dropped on the way and its counter for the topic grows by the messages given |
| `Pipeline.EventPipeline.Collect` | packages/event-fabric/blueteam_fabric/pipeline.py:67-74 | the chunked drain terminates and hands over what ConsumeAllSpec characterises |
| `Pipeline.EventPipeline.HandleMessage` | packages/event-fabric/blueteam_fabric/pipeline.py:47-64 | one message: normalised and published, dead-lettered, or republished |
| `Pipeline.EventPipeline.HandleBatch` | packages/event-fabric/blueteam_fabric/pipeline.py:46-64 | the batch is handled message by message, and the counts are of those normalised and dead-lettered |
| `Pipeline.EventPipeline.Drain` | packages/event-fabric/blueteam_fabric/pipeline.py:43-65 | one drain leaves fabric, normalised list and counts as DrainSplits says |
| `Pipeline.ConsumeAllSpec` | packages/event-fabric/blueteam_fabric/pipeline.py:67-74 | draining empties the topic and hands over exactly its fresh messages, first copies of unconsumed keys |
| `Pipeline.ReachableFabricsAreRouted` | packages/event-fabric/blueteam_fabric/memory.py:16-34 | every reachable fabric has the topics of the stage and only raw messages on the raw queue |
| `Pipeline.DrainSplits` | packages/event-fabric/blueteam_fabric/pipeline.py:43-65 | the fresh messages split exactly into normalised (same tenant), dead-lettered and retried; afterwards the raw queue holds just the retries |
| `Pipeline.RetriesAreLost` | packages/event-fabric/blueteam_fabric/pipeline.py:62-64 | a second drain right after the first discards every retry: nothing is normalised or dead-lettered and the raw queue is empty |
| `PipelineFates.RetriesNeverGetAnAttempt` | packages/event-fabric/blueteam_fabric/pipeline.py:62-64 | whatever is published, consumed, dead-lettered or drained afterwards, no drain for the group handles a key again that one of its drains has handled |
| `PipelineFates.EachMessageHasOneFate` | packages/event-fabric/blueteam_fabric/pipeline.py:46-64 | of each handled message: its event is in the normalised list iff well formed; otherwise a dead letter has its key iff its attempts are used up, and it is back on the raw queue iff they are not |
| `PipelineFates.NothingIsLostIff` | packages/event-fabric/blueteam_fabric/pipeline.py:59-64 | whatever the normaliser does, a drain loses no message if and only if each of them has used up its attempts on this first handling |
| `PipelineFates.OneAttemptMeansNothingIsLost` | packages/event-fabric/blueteam_fabric/pipeline.py:59-64 | with at most one attempt, every distinct unconsumed key ends in exactly one of the normalised list and the dead letters, and the raw queue is empty |
| `PipelineMessages.DrainPublishes` | packages/event-fabric/blueteam_fabric/pipeline.py:43-65 | the very messages a drain publishes: one announcement for each well-formed message, a copy that says why and where from for each failing one whose attempts are used up, and each other one again with one attempt more |
| `PipelineMessages.TopicsOfAFabric` | packages/event-fabric/blueteam_fabric/topics.py:5-23 | whatever is done with a fabric, it has just the eight topics |
| `Audit.AuditLog.Write` | services/api/app/services/audit.py:24-68 | one record with the next number, the latest hash and the chained hash is appended |
| `Audit.AuditLog.Verify` | services/api/app/services/audit.py:71-95 | the loop answers what VerificationIsExact characterises, on any table |
| `Audit.VerificationIsExact` | services/api/app/services/audit.py:71-95 | success exactly when every record continues the chain; a failure names the first that does not |
| `Audit.WriteLinks` | services/api/app/services/audit.py:41-68 | a record written to a numbered, linked log gets the next number and continues the chain |
| `Audit.WrittenLogsVerify` | services/api/app/services/audit.py:14-68 | every log built by writes is numbered 1..n, in order, and verifies |
| `Audit.LastHashPinsTheLog` | services/api/app/services/audit.py:71-95 | with an injective hash that omits genesis, two verifying logs with the same last hash agree on every covered field at every position |
| `Audit.RemovalUnnoticedIff` | services/api/app/services/audit.py:71-95 | with an injective hash that omits genesis, what is left of a verifying log after removing records verifies if and only if they were removed from its end |
| `Audit.TruncationGoesUnnoticed` | services/api/app/services/audit.py:71-95 | whatever the hash, cutting records off the end of a verifying log leaves one that verifies |
| `AuditFields.RecordCarriesItsAction` | services/api/app/services/audit.py:24-68 | a record carries the action it was given, field by field, absent states as empty, the number after the highest and the hash of the row that has it |
| `AuditFields.LastHashPinsEveryField` | services/api/app/services/audit.py:71-95 | with an injective hash that omits genesis, two verifying logs with the same last hash agree on number, every one of the thirteen fields and both hashes, record by record |
| `AuditFields.HashStandsForOneRecord` | services/api/app/services/audit.py:71-95 | over all verifying logs, a record hash stands for one number, one action and one predecessor |
| `AuditFields.ChangeBreaksAtItsRow` | services/api/app/services/audit.py:71-95 | changing any field of the action in one row of a verifying log makes verification break at that row's number |
| `Correlation.ApplyCorrelationRules` | packages/correlation/blueteam_correlation/rules.py:52-97 | the stories of every rule in rule order, each as StoryIff says |
| `Correlation.ApplyRule` | packages/correlation/blueteam_correlation/rules.py:54-61 | the stories of one rule, as StoryIff characterises them, through the early check and the groups dict |
| `Correlation.TellStories` | packages/correlation/blueteam_correlation/rules.py:62-96 | one story for each group that covers, is large enough and is within the window, in group order |
| `Correlation.EarlyCheckChangesNothing` | packages/correlation/blueteam_correlation/rules.py:56-57 | the check before grouping never changes the result |
| `Correlation.CountingMeansCovering` | packages/correlation/blueteam_correlation/rules.py:56-64 | counting rule ids says that the rule names none twice and each it requires is present |
| `Correlation.StoryIff` | packages/correlation/blueteam_correlation/rules.py:52-97 | a story about an entity is told iff its matched findings cover every required rule, are at least min_findings and span at most the window; it is made of exactly those findings |
| `Correlation.OneStoryPerEntity` | packages/correlation/blueteam_correlation/rules.py:62-96 | a rule tells at most one story about an entity |
| `Correlation.StoryIsOrdered` | packages/correlation/blueteam_correlation/rules.py:67-95 | stages are the group sorted by time, each finding once, those of equal times in the order of the findings; start and end are its min and max |
| `StoryContents.StoryTellsItsFindings` | packages/correlation/blueteam_correlation/rules.py:52-96 | which stories there are and what each says, told from the findings by required rules about the entity: its key's attribute or else the source address |
| `StoryContents.RulesAreAppliedInOrder` | packages/correlation/blueteam_correlation/rules.py:54 | the stories come rule after rule, in the order of the rules |
| `StoryContents.StoriesInOrder` | packages/correlation/blueteam_correlation/rules.py:58-62 | the stories of a rule come in the order in which their entities first have a finding |
| `Sessions.FillBuckets` | packages/network-adapters/blueteam_network/normalize.py:175-189 | every event with both addresses is filed under its key, in order, and no other |
| `Sessions.Summarise` | packages/network-adapters/blueteam_network/normalize.py:190-218 | one session for each bucket, in order |
| `Sessions.BuildSessions` | packages/network-adapters/blueteam_network/normalize.py:175-218 | the sessions that SessionsPartitionEvents, SessionSpan and SessionsConserveTraffic speak about |
| `Sessions.SessionsPartitionEvents` | packages/network-adapters/blueteam_network/normalize.py:176-189 | each event with both addresses is in exactly one session |
| `Sessions.SessionSpan` | packages/network-adapters/blueteam_network/normalize.py:192-206 | start and end are the min and max of the session's events, and the duration is their distance |
| `Sessions.SessionsConserveTraffic` | packages/network-adapters/blueteam_network/normalize.py:207-209 | bytes out, bytes in and packets over the sessions are the totals over the events with both addresses |
| `Sessions.SharesOnlyItsConversationIff` | packages/network-adapters/blueteam_network/normalize.py:176-189 | an event with both addresses shares its session with no event of another conversation if and only if tenant and protocol contain no bar and each address contains none or is a single bar; a conversation is tenant, addresses, protocol and port, where no port is port zero |
| `Sessions.BarsMergeConversations` | packages/network-adapters/blueteam_network/normalize.py:180-188 | two receivable events between different addresses in one session |
| `SessionContents.SessionTellsItsEvents` | packages/network-adapters/blueteam_network/normalize.py:175-218 | a session is read off its events in time order: tenant, addresses and protocol from the first, times from the ends, traffic, names, references and risk from all |
| `SessionContents.SessionsInOrder` | packages/network-adapters/blueteam_network/normalize.py:175-191 | sessions come in the order in which their first events are listed |
| `Grouping.GroupsInFirstSeenOrder` | packages/correlation/blueteam_correlation/rules.py:58-61 | groups come in the order in which their keys are first seen |
| `Grouping.GroupsPartition` | packages/correlation/blueteam_correlation/rules.py:58-61 | a dict of lists has distinct keys, each list exactly the items of its key in order, and a list for every item |
| `Grouping.GroupingConserves` | packages/network-adapters/blueteam_network/normalize.py:207-208 | what is added up over the groups is what is added up over the items |

## Left out

- The character level of BlueQL: tokens are given, keywords are tokens apart from identifiers, and the forbidden-token
  check on the raw text is not modelled. String literals keep their escapes as they stand, so they are plain text here.
- The search theorems hold for arbitrary leaves (a function of predicate and event that holds, fails or raises);
  `BlueQLValues` is the one the source has. `explain` and error texts with excerpts of the input are absent.
- Floating point: literals are reals whose text is a parameter, and risk is in exact hundredths, where the rounding of
  the source changes nothing.
- SHA-256, JSON encoding, UUIDs and the clock: hashes are functions (injective and without bars where stated), new ids
  and clock times are parameters.
- The playbook's timestamps, name, description and catalogue, and the default executor. A run record is a value, so a
  caller changing a returned record is not modelled. The DENY branch is dead, as `EvaluateAction` shows.
- The position of the cursor after a failed parse.
- Loops nested in the source are one method each here, with the same order of effects.
- Suppression is an arbitrary fixed predicate of tenant and finding; alerts, retention, chain-of-custody appends, intel
  sightings, projections and incident creation after ingestion are absent.
- A stored event with an empty idempotency key meets a uniqueness constraint of the database, which is not modelled; the
  code itself does not look such keys up.
- Replay.ReplayEqualsIngest: is about scenarios without suppressed findings and without two events of one id or one
  non-empty idempotency key, since suppressed findings and duplicates never reach the store.
- Resubmission.ResubmittedIsAcceptedIff: takes the ids still to be drawn to be new to the store and the payloads.
- The assertions, latency and expected counts of a Blue Range result, straight-line sums over the findings.
- Detection.SprayFiresIff: the minute of an event is its number rather than its ISO text; explanation and evidence roles
  of a finding are not modelled.
- The graph's list order (by score) and `manufactured` flags.
- Lower-casing beyond ASCII.
- GraphOrder.BuildIgnoresOrderIff: event ids are compared as sets and names and attributes are not compared, since
  those are first-mention and do depend on order.
- The envelope's fallback for an empty event id, schema and partition fields; locks, since each fabric operation is
  atomic; the Kafka fabric.
- `run_once`, `drain_normalized` and `publish_health`, which only call what is modelled; findings there are not
  deduplicated across messages.
- PipelineFates.OneAttemptMeansNothingIsLost: is about messages whose attempt counter is not negative, as all published
  envelopes are.
- The session id, a hash of the key, and the sorting of its name lists, which are sets here.
- `incident_fingerprint`, the built-in storylines, vendor normalisers and enrichment: record building.
- HTTP routes, authentication, settings, the user interface, brokers and policy tables: plumbing or case analysis.
