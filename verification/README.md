# Chat turn engine and Closet composition: verified models

The project models the two parts of the backend that carry the most state, and proves what they
promise over whole runs.

**The chat turn.** One user turn is a bounded loop: a budget gate, a provider call read frame by
frame, and either an ending or a round of tool executions whose answers are appended to the message
list. `Turn` has it twice, as a state machine over values (`Step`, `Run`) and as the loop itself
(`RunTurn`), which drives a gateway, a set of executors and a gate held as objects. The loop is proved
equal to the machine, logs included, and the theorems are about the machine. Everything outside is
arbitrary: the provider's answers, the executors' answers, the instant at which the turn's context
dies and of what, the encoders and decoders. What a turn leaves behind (audit rows, receipts, the frozen account,
the context report) is what later turns read, so the budgeted selections that rebuild a context from
those records are modelled as well, down to the text of their blocks, together with the two management
pages that show what the next turn will carry.

**The Closet.** A look is an ordered list of pieces over six slots with capacities. The class edits
its list in place (placing, evicting, removing, clearing, an insertion sort, renumbering) and the
server replays a client's ids through it.

Modules, in the order they build on each other:

| module | what it holds |
|---|---|
| `Sequences` | folds, sums, filters, interleavings and subsequences |
| `Tools`, `ToolExecution`, `Receipts` | the tool boundary, the four gates, the audit row, both receipts |
| `Estimator`, `Accounting`, `Budget` | tokens, the account of a turn, the gate |
| `Stream`, `Report`, `Turn` | one provider call, the context report, the loop |
| `TurnProperties`, `TurnTheorems` | invariants of the loop and the theorems over whole runs |
| `TurnEndings` | which finish a turn is stored with, and what becomes of a context that dies |
| `Transcript` | what the model is told against what the audit records |
| `Invocations` | which executor invocation a record stands for, and which writes count as done |
| `UsageReport`, `Day` | the daily fold and a day of turns, resumes, consolidations and truncations |
| `Selection`, `Pages`, `Conversation`, `Consolidation` | selection under a budget and what uses it |
| `Evidence`, `ExecutionRecord`, `Resume`, `Redaction`, `Scoping` | what a later turn is told |
| `NextTurn` | a turn as a later turn and a resume are told of it |
| `Context`, `ContextProperties` | the builder and what its report promises |
| `Composition`, `CompositionProperties`, `Compose` | the Closet |

Conventions. Text is a sequence of characters, money and rates are reals, counts are unbounded
integers. Prompt wording and headers are constants of arbitrary but fixed value, so every length
statement holds whatever they say. Repository paths below start at the repository root.

Where the code is narrower than its own comments, the code is modelled, and the exact condition is
proved together with a witness:

- a stream that breaks or whose reader leaves loses the tool calls it had delivered
  (`DeliveredCallsAreKeptIffStreamCompletes`, witness `BrokenStreamLosesCall`);
- a write whose executor succeeded but gave back more than the ceiling, or something that cannot be
  encoded, is filed as failed and loses the identity of what it touched, and a resume lists it as
  still to be done (`WriteIsDoneIffItsAnswerFits`, `ResumeListsWhatFitted`, witness
  `OversizedWriteIsPending`);
- a truncation deletes the turn rows the daily gate sums, so a day that was shut opens again and what
  was really spent is bounded only together with what was cut (`ReachedLimitHoldsUntilCut`,
  `BoughtIsWithinOneCallAndTheCuts`, witness `TruncationReopensTheDay`);
- a context that dies while tools run is named by nobody, and the turn ends as an error
  (`DeathIsNamedIffSeen`, `DeathDuringToolsIsAnError`, witness `DeadlineDuringToolsIsAnError`);
- `AddedCharacters` is cumulative, while its comment calls it a per-round delta; the two agree at the
  second call of a turn and at no later one (`AddedCharactersAreCumulative`, witness
  `ThirdCallReportsBothRounds`);
- a piece moved to another slot can leave a gap in the slot it came from
  (`SourceStaysDenseIffLastMoved`, witness `MovedAccessoryLeavesGap`); `compose`, the only caller of
  `Place`, places every piece where its category says and never meets it, as `ComposeIsFifo` shows;
- a resume of a resume can end the message list on the earlier attempt (`ReplayEndsOnQuestionIff`,
  witness `ChainedResumeEndsOnTheEarlierAttempt`);
- one reference to a provider may expand past the sixteen references a message holds
  (`RecordFitsIff`, `GroupOverflowsIff`, witness `SeventeenOverflow`);
- a gateway can itself say `tool_round_limit`, `deadline` or `aborted` of a finished answer and is
  believed, so the finish alone does not prove that the runtime stopped the turn (`StoredFinishIff`,
  witness `GatewaySaysRoundLimit`).

## Model

| member | source | states |
|---|---|---|
| TurnTheorems.NoRequestedToolDisappears | backend/internal/chat/app/send.go:577-773 | in every run, the audit log is the list of calls requested by the streams that ended cleanly, each once, in order, with its round; and the calls logged as having run are exactly the executor invocations, in order |
| TurnTheorems.DeliveredCallsAreKeptIffStreamCompletes | backend/internal/chat/app/send.go:622-632 | every call delivered by any stream is on record if and only if the last stream ended cleanly or had delivered none |
| TurnTheorems.BrokenStreamLosesCall | backend/internal/chat/app/send.go:622-632 | the witness: one frame asking for a tool, then a read error, leaves no record of that call |
| TurnTheorems.ReceiptProvesExecution | backend/internal/chat/app/send.go:1286-1369 | over every run, through execution, persistence and receipt: Executed + Failed is the number of executor invocations of write capabilities, Refused the write calls requested and never run |
| TurnTheorems.WireProtocol | backend/internal/chat/app/send.go:597-606 | at every provider call the list is the built one extended round by round with one ask and one answer per asked call, same order and ids; each list extends the previous; the recorded added characters measure exactly the suffix beyond the built list |
| TurnTheorems.AddedCharactersAreCumulative | backend/internal/chat/domain/context_report.go:320-327 | each round's figure is the previous one plus what this round added; once calls have names, which the gateway's adapter sees to, it is the per-round delta of the comment exactly at the second call |
| TurnTheorems.ThirdCallReportsBothRounds | backend/internal/chat/app/send.go:597-606 | the witness: the third call of a turn that asked twice reports more than the delta |
| TurnTheorems.ReportCountsTheExchange | backend/internal/chat/app/send.go:785-791 | if the builder's report measured the built list, the closed report measures the whole list the turn ended with, tool exchange included |
| TurnTheorems.TurnIsBounded | backend/internal/chat/app/send.go:577-773 | one to four provider calls; every round but the last handled all its calls, at least one; a fourth round runs nothing; the ceiling's error exactly when a fourth clean stream asks for more, all of whose calls are refused with that code; a stored finish is never `tool_calls` and never empty |
| TurnEndings.StoredFinishIff | backend/internal/chat/app/send.go:613-720 | over every run, when the stored finish is `tool_round_limit`, `deadline`, `aborted` or `error`, each if and only if, from the last call, the number of calls and the context after that call |
| TurnEndings.GatewaySaysRoundLimit | backend/internal/chat/app/send.go:634-651 | the witness: one call whose gateway says `tool_round_limit` is stored with it, without an error |
| TurnEndings.CallHonoured | backend/internal/chat/app/send.go:933-1033 | a gateway that opens nothing in a dead context and names no cause but the context's own makes calls of which the same holds |
| TurnEndings.DeathIsNamedIffSeen | backend/internal/chat/app/send.go:613-720 | over every run whose context dies in a round it reaches: no further call unless tools were running, then at most one, unopened; stored as `deadline` or `aborted` if and only if, in the round of the death, the stream was stopped, or it asked for tools before the fourth call and the context was over when looked at, or the gateway said one of the two words of a finished answer |
| TurnEndings.DeathDuringToolsIsAnError | backend/internal/chat/app/send.go:613-621 | the complementary case, at any round and under any budget: a death while tools run ends the turn as `error`, by the budget or by a call that does not open |
| TurnEndings.DeadlineDuringToolsIsAnError | backend/internal/chat/app/send.go:613-621 | the witness: an expired deadline during the first tool is stored as an error |
| Transcript.ModelIsToldTheAudit | backend/internal/chat/app/send.go:722-772 | at every provider call the list sent is the built one followed, per earlier round, by the model's ask and the content of every outcome the audit recorded for that round, in order and under its call's id |
| Invocations.ExecutedMeansItFitted | backend/internal/chat/app/toolexec.go:155-194 | over every run, a receipt's executed count is the number of executor invocations of write capabilities that succeeded with an output that can be encoded and kept within the ceiling, and its failed count the number of the other invocations of such |
| Invocations.WriteIsDoneIffItsAnswerFits | backend/internal/chat/app/toolexec.go:155-194 | record by record: one that ran stands for one invocation on the log, of its own call; it is filed as executed if and only if that invocation's answer fits, as failed otherwise, and keeps the reported identity only then |
| NextTurn.EvidenceProvesExecution | backend/internal/chat/app/execution.go:167-252 | wherever a later turn's execution evidence carries a turn, its executed count is the number of invocations of write capabilities whose answer fits, its failed count the number of the others, and its refused count the write calls never run |
| NextTurn.ResumeListsWhatFitted | backend/internal/chat/app/resume.go:242-294 | the resume block of a turn lists a write as done if and only if it ran and the answer of its own invocation fits, and as pending otherwise; the done ones are as many as such invocations, both together as many as were asked for |
| NextTurn.OversizedWriteIsPending | backend/internal/chat/app/toolexec.go:230-249 | the witness: a write that succeeded with an output over the ceiling is filed as failed without its identity, and is what the resume block lists as pending |
| NextTurn.EvidenceIsWhatTheModelWasTold | backend/internal/chat/app/evidence.go:279-336 | every carried item is read off the newest usable record of its call; where that record is a row of a given turn, the item is the beginning of the content that turn's model was given for that very call, whole but for the cut it marks, in every list sent after the call's round |
| TurnTheorems.GateAgreesWithStatement | backend/internal/chat/app/send.go:598-611 | after any run of an agent with limits, the gate's tokens and cost are those of the frozen account, and the stored reply is what the rounds streamed |
| Turn.RunTurn | backend/internal/chat/app/send.go:550-806 | the loop over real objects ends where the state machine does, with the same lists sent, executors invoked and spend, and a report extended by exactly what was added |
| Turn.DriveTurn | backend/internal/chat/app/send.go:577-773 | the loop alone: final state, both logs and the gate's tally equal the machine's |
| Turn.RunRound | backend/internal/chat/app/send.go:577-632 | one iteration is one step of the machine, for gateway, executors and gate together |
| Turn.CallProvider | backend/internal/chat/app/send.go:597-611 | one call: the list is sent, the stream read, the gate told exactly when it opened |
| Turn.FinishRound | backend/internal/chat/app/send.go:613-772 | after a reply, the ending or the tool round the machine prescribes, in that order of precedence |
| Turn.RunToolRound | backend/internal/chat/app/send.go:722-772 | the model's ask and then every answer, as one tool round of the machine |
| Turn.RunRequestedTools | backend/internal/chat/app/send.go:722-772 | every requested call in order, executed or answered with its refusal, with messages, measure, records and the executors' log advanced together |
| Turn.RefuseRequestedCalls | backend/internal/chat/app/send.go:857-887 | one NOT_EXECUTED record per requested call, in order, nothing executed |
| Turn.CloseReport | backend/internal/chat/app/send.go:785-791 | the report is untouched when nothing was added, else one block grows by the tool items and characters and the whole stays balanced |
| Stream.StreamOneCall | backend/internal/chat/app/send.go:933-1033 | reading frame by frame gives the outcome of the recursive reading, and both running texts grow by exactly what this call streamed |
| Stream.Forward | backend/internal/chat/app/send.go:933-1033 | one frame: reasoning goes to the reader before the answer, and a reader who is gone stops the call there |
| Stream.CompleteCallCarriesEverything | backend/internal/chat/app/send.go:933-1033 | a call that ended cleanly holds all the text of all its frames and the last usage, finish and tool calls any frame carried |
| ToolExecution.ExecuteToolCall | backend/internal/chat/app/toolexec.go:76-194 | the four gates in order; the executor is invoked exactly when the first three pass |
| ToolExecution.OutcomeMeaning | backend/internal/chat/app/toolexec.go:76-194 | NOT_EXECUTED exactly when no executor ran; a failure exactly without success; a payload only on success and within the ceiling; an identity only on success and well formed; whatever ran was registered, authorized and fit its schema |
| Tools.ValidateArguments | backend/internal/chat/domain/tool.go:403-440 | accepted exactly when size, shape, names and types fit; a refusal names a real fault of the first kind there is, in the order size, shape, unknown, missing, type |
| Tools.IsAuthorized | backend/internal/chat/app/tools.go:206-213 | a definition of that name exactly when the turn's authorized list has one |
| Tools.ValidRef | backend/internal/chat/domain/tool.go:815-820 | an identity passes, unchanged, if and only if it is well formed |
| Receipts.PersistToolCalls | backend/internal/chat/app/send.go:1286-1369 | one row per call in order, effect, provenance and redaction taken from the registered definition |
| Receipts.NewWriteReceipt | backend/internal/chat/domain/tool.go:772-806 | the counting loop gives the recursive receipt |
| Receipts.ReceiptIsItsList | backend/internal/chat/domain/tool.go:772-806 | the receipt's writes are the write records in order, and each counter is the number of writes of that status |
| Receipts.NewReadReceipt | backend/internal/chat/domain/read_receipt.go:138-177 | the precedence read off the counters is the one over the readings: any success verifies, else any reading fails, else none |
| Receipts.VerifiableMeansRead | backend/internal/chat/domain/read_receipt.go:138-177 | verifiable if and only if some external call succeeded |
| Receipts.TallyMeaning | backend/internal/chat/domain/read_receipt.go:138-177 | every external call is counted once, verified or failed |
| Report.Recompute | backend/internal/chat/app/context.go:1127-1141 | every block estimated from its characters, every total the sum over blocks, nothing else changed |
| Report.AddToBlock | backend/internal/chat/app/context.go:1102-1125 | the first block of the kind grows or a new one is appended, the report is balanced again, and its wire characters grow by exactly the addition |
| Report.GrowthIsCounted | backend/internal/chat/app/context.go:1102-1125 | growing one block grows the sum over the wire blocks by the same amount |
| Estimator.TokensMonotone | backend/internal/chat/app/context.go:374-402 | more characters never estimate to fewer tokens |
| Accounting.AggregateTurn | backend/internal/chat/app/accounting.go:229-310 | the loop gives the recursive total of the opened rounds and one report per round, opened or not, with the provider's own detail |
| Accounting.RoundUsageOf | backend/internal/chat/app/accounting.go:318-333 | absent exactly when the provider reported nothing beyond its two counts |
| Accounting.TotalsAreSums | backend/internal/chat/app/accounting.go:392-434 | prompt, completion, cache, reasoning and cost are sums; an optional total is absent exactly when every part is; the total is an estimate exactly when some part is |
| Accounting.TurnStatement | backend/internal/chat/app/accounting.go:229-310 | over the rounds: unknown exactly when none opened, provider exactly when some opened and all that opened reported usage, no cost exactly without a price or without an opened round |
| Accounting.OneCallStatement | backend/internal/chat/app/accounting.go:105-149 | a turn of one opened call is stored exactly as that call is accounted |
| Accounting.BilledCalls | backend/internal/chat/app/accounting.go:229-310 | the billed calls are the opened rounds: none exactly when none opened, each priced exactly when there is a price, estimated exactly when a usage is missing |
| Accounting.InputCostPartition | backend/internal/chat/app/accounting.go:174-203 | full, read and creation tokens partition the prompt; never a negative charge; without cache rates the charge is max(prompt, read + creation) at the input rate |
| Accounting.CountsNeverNegative | backend/internal/chat/app/accounting.go:392-434 | whatever a gateway reports, no accounted count is negative |
| Budget.DimensionOf | backend/internal/chat/domain/budget.go:281-305 | a dimension blocks exactly when its limit is not positive or is reached, and what remains is never negative |
| Budget.LetThrough | backend/internal/chat/domain/budget.go:229-279 | a turn is let through exactly when every configured limit is positive and strictly unreached, and a cost limit has a price to be checked with |
| Budget.CeilingNeverRefuses | backend/internal/chat/domain/budget.go:229-305 | no ceiling changes what is refused or why |
| Budget.TurnGate.constructor | backend/internal/chat/app/budget.go:188-205 | a gate starts with nothing spent |
| Budget.TurnGate.Evaluate | backend/internal/chat/app/budget.go:211-221 | blocked exactly when the day plus this turn's spend reaches a limit, or a cost limit has no price |
| Budget.TurnGate.Record | backend/internal/chat/app/budget.go:233-250 | an opened round of an agent with limits adds its accounted tokens and cost; any other round adds nothing |
| Budget.GateMatchesStatement | backend/internal/chat/app/budget.go:233-250 | over any rounds the gate's tally is the statement's total, and its cost the statement's cost once a price is held and a round opened |
| UsageReport.BuildUsageReport | backend/internal/chat/app/usage.go:164-212 | the report's totals, cache and reasoning figures among them, are the sums over the store's groups, and it is priced exactly when nothing is unpriced |
| UsageReport.ReadDailyUsage | backend/internal/chat/app/budget.go:113-132 | the gate reads the day's rows themselves, whatever groups and order the store returned |
| UsageReport.GroupingConserves | backend/internal/chat/adapters/repo/messages.go:239-311 | any figure summed over the groups, in any order, is its sum over the rows |
| UsageReport.GroupingConservesCost | backend/internal/chat/adapters/repo/messages.go:239-311 | the same for cost |
| UsageReport.SourcesPartitionMessages | backend/internal/chat/adapters/repo/messages.go:239-245 | measured, estimated and unknown turns partition the messages |
| Day.TurnOvershootsByOneCall | backend/internal/chat/app/send.go:585-611 | from anywhere in a turn, if no call is accounted more than C, what the turn spends keeps the day strictly below every limit plus C |
| Day.RowIsWhatTheGateCharged | backend/internal/chat/app/send.go:1373-1378 | the row an event leaves, priced late or not, holds exactly what its gate charged |
| Day.DayStaysWithinOneCall | backend/internal/chat/app/budget.go:255-299 | over any sequence of turns, resumes, consolidations and truncations in one day, refused ones included, the day's stored total stays strictly below every limit plus one call |
| Day.StoredAndLostAreBought | backend/internal/chat/adapters/repo/messages.go:181-202 | over any such day, what is stored and what truncations have taken add up, figure by figure, to all that was ever accounted |
| Day.BoughtIsWithinOneCallAndTheCuts | backend/internal/chat/adapters/repo/messages.go:181-202 | what was ever accounted stays strictly below every limit plus one call plus what the truncations took |
| Day.NonNegativeDaysOnlyLower | backend/internal/chat/app/accounting.go:105-197 | with no negative row, estimate or rate to start from, no row is ever negative and no truncation raises the day |
| Day.LetThroughIffNotReached | backend/internal/chat/app/budget.go:255-299 | whatever the rows, the next event is let through if and only if no limit is zero or reached by them and a cost limit has a price |
| Day.ReachedLimitHoldsUntilCut | backend/internal/chat/app/conversations.go:189-212 | while a limit stays reached by what truncations have left of the first rows, nothing spends and only the truncations change the day; the next event is let through exactly when those rows reach no limit |
| Day.ReachedLimitHolds | backend/internal/chat/app/budget.go:255-299 | once a limit is reached, no later event of that day leaves a row as long as none is a truncation |
| Day.TruncationReopensTheDay | backend/internal/chat/adapters/repo/messages.go:181-202 | the witness: a day shut by one turn is open again once that turn's row is cut, and stays shut if the row is a receipt |
| Composition.Capacity | backend/internal/closet/domain/catalog.go:79-86 | every known slot and no other has a capacity, at least one |
| Composition.Composition.constructor | backend/internal/closet/domain/look.go:113-118 | stored rows come out sorted |
| Composition.Composition.Place | backend/internal/closet/domain/look.go:145-185 | an unknown slot is an error that changes nothing; otherwise the list and what was displaced are those of the placement rule |
| Composition.Composition.Evict | backend/internal/closet/domain/look.go:168-176 | the front of the slot leaves, as many as make room for one |
| Composition.Composition.Remove | backend/internal/closet/domain/look.go:192-202 | found exactly when the piece is there; its slot is renumbered; otherwise nothing changes |
| Composition.Composition.ClearSlot | backend/internal/closet/domain/look.go:206-218 | exactly the slot's entries leave, and their number is reported |
| Composition.Composition.RenumberSlot | backend/internal/closet/domain/look.go:245-254 | one pass numbers the slot from zero and touches no other |
| Composition.Composition.Sort | backend/internal/closet/domain/look.go:259-282 | the in-place insertion sort is the recursive one |
| CompositionProperties.SortSorts | backend/internal/closet/domain/look.go:259-282 | the result is in canonical order and a permutation |
| CompositionProperties.OrderedIsFixed | backend/internal/closet/domain/look.go:259-282 | an ordered list is left as it is |
| CompositionProperties.OrderedMeans | backend/internal/closet/domain/look.go:256-282 | the recursive invariant is unique ids plus canonical order, read off the indexes |
| CompositionProperties.PlaceKeeps | backend/internal/closet/domain/look.go:145-185 | the list stays ordered, its ids are the old ones less the displaced plus the new, the target slot is dense and within capacity, what was displaced is what eviction took, every other slot only lost the moved piece |
| CompositionProperties.SourceStaysDenseIffLastMoved | backend/internal/closet/domain/look.go:156-183 | a cross-slot move leaves its source slot dense if and only if the piece was the last of it |
| CompositionProperties.MovedAccessoryLeavesGap | backend/internal/closet/domain/look.go:156-183 | the witness: of two accessories, moving the first leaves the second at position one |
| CompositionProperties.RemoveKeeps | backend/internal/closet/domain/look.go:192-202 | removal takes exactly one id out, keeps the order and closes the gap |
| CompositionProperties.ClearKeeps | backend/internal/closet/domain/look.go:206-218 | clearing keeps order, capacity and density of every slot |
| CompositionProperties.OpKeeps | backend/internal/closet/domain/look.go:113-282 | one operation keeps order, uniqueness and capacity, and the density of every slot nothing is moved out of |
| CompositionProperties.OpsKeep | backend/internal/closet/domain/look.go:113-282 | over any sequence of operations ids stay unique, the order canonical and slots within capacity |
| CompositionProperties.OpsKeepDense | backend/internal/closet/domain/look.go:113-282 | over any sequence, a slot nothing is moved out of keeps dense positions |
| CompositionProperties.StoredRowsAreOrdered | backend/internal/closet/domain/look.go:112-118 | rows with unique ids become an ordered composition of the same ids, with as many pieces in every slot |
| CompositionProperties.StoredLookKeeps | backend/internal/closet/domain/look.go:112-282 | from rows with unique ids, through the constructor and any operations, ids stay unique, the order canonical and slots stored within capacity within it |
| Compose.MaxLookItems | backend/internal/closet/app/app.go:572-578 | the sum of the capacities, nine |
| Compose.ComposeLook | backend/internal/closet/app/app.go:593-643 | too many pieces are refused first, then the first unusable piece in order, else the composition of the ids |
| Compose.UsableMeansEachIs | backend/internal/closet/app/app.go:625-638 | nothing is refused exactly when no single piece is |
| Compose.PlaceIsEnqueue | backend/internal/closet/domain/look.go:145-185 | one placement is one step of the queue of its slot and of no other |
| Compose.ComposeIsFifo | backend/internal/closet/app/app.go:593-643 | for any usable ids, each slot holds the FIFO of the slot's capacity over that slot's ids alone, skipping an id that is present, ordered, dense and within capacity |
| Compose.SameIdsSameList | backend/internal/closet/app/app.go:593-643 | two compositions with the same ids in every slot are the same list but for their dates |
| Compose.ReplayGivesTheSameLook | backend/internal/closet/app/app.go:593-643 | replaying a look's own ids gives the same look but for its dates, and is never refused |
| Selection.SelectWithinBudget | backend/internal/chat/app/context.go:767-782 | the loop selects and drops what the recursive selection does |
| Selection.SelectionSplits | backend/internal/chat/app/context.go:767-782 | selected and dropped interleave to the input, in order |
| Selection.SelectionFits | backend/internal/chat/app/context.go:767-782 | what is used is overhead plus the costs, within the budget once anything is selected |
| Selection.NothingDroppedFits | backend/internal/chat/app/context.go:767-782 | no dropped item fits beside the final selection |
| Selection.SelectionIsOnline | backend/internal/chat/app/context.go:767-782 | selecting over a prefix gives a prefix of selecting over the whole |
| Selection.OnlyCostsDecide | backend/internal/chat/app/context.go:767-782 | lists with the same costs are selected alike, whatever else the items hold |
| Selection.NewestThatFitIsWhole | backend/internal/chat/app/consolidation.go:411-436 | consumed from its end, a list gives whole items in reading order, within the budget |
| Selection.NewestComeFirst | backend/internal/chat/app/consolidation.go:411-436 | older items never displace what the newer ones put in |
| Pages.FlattenLines | backend/internal/chat/app/context.go:822-828 | no line break is left and the length is kept |
| Pages.WriteMemoryBlock | backend/internal/chat/app/context.go:809-820 | header, then one bullet per memory |
| Pages.MemoryBlockFits | backend/internal/chat/app/context.go:791-828 | the rendered block is exactly as long as what selection charged, and within its budget |
| Pages.WriteSourcesBlock | backend/internal/chat/app/context.go:949-959 | header, then title and text of each source |
| Pages.SourcesBlockFits | backend/internal/chat/app/context.go:892-959 | for loaded sources the rendered block is exactly as long as what selection charged, and within its budget |
| Pages.OversizedIffNoListAdmits | backend/internal/chat/app/context.go:923-933 | a source is oversized if and only if no list, in any order, admits it |
| Pages.ListSources | backend/internal/chat/app/sources.go:143-194 | rows are marked in place by the selection over the enabled ones, and the used characters are what the selection was charged |
| Pages.SourcePageTellsTheTruth | backend/internal/chat/app/sources.go:143-194 | over content-free rows of a truncated list, a source is marked exactly when the next turn carries it |
| Pages.SourcePageTotalIsTheBlock | backend/internal/chat/app/sources.go:166-177 | when the page holds every source, its total is the length of the block the turn will be sent |
| Pages.ListMemories | backend/internal/chat/app/memories.go:214-258 | rows are marked in place, and the used characters are the length of the block itself |
| Pages.MemoryPageTellsTheTruth | backend/internal/chat/app/memories.go:214-258 | a memory of a truncated page is marked exactly when the next turn carries it |
| Consolidation.SelectConsolidationWindow | backend/internal/chat/app/consolidation.go:411-436 | filter, reverse, select, reverse: the newest messages with content that fit |
| Consolidation.WindowIsWholeAndFits | backend/internal/chat/app/consolidation.go:411-443 | a subsequence of the conversation, within the budget, beside which nothing left out would fit |
| Consolidation.RecentMessagesComeFirst | backend/internal/chat/app/consolidation.go:411-436 | the window of the recent part ends the window of the whole |
| Evidence.SelectEvidence | backend/internal/chat/app/evidence.go:279-336 | the backward walk, with its set and counters, computes the newest-copy rule |
| Evidence.Consider | backend/internal/chat/app/evidence.go:286-328 | one record: failed, superseded, dropped or carried, in that order of question |
| Evidence.EveryRecordIsAccountedFor | backend/internal/chat/app/evidence.go:279-336 | the failed count is the number of unusable records, the superseded count the number of usable ones a later record repeats, and each of the others, the newest copies, is either carried or left out by the budget, never both; the four add up to the records |
| Evidence.LastOfMeans | backend/internal/chat/app/evidence.go:279-336 | the reference: the last usable record of a key has no usable record of that key after it |
| Evidence.CandidatesAreNewest | backend/internal/chat/app/evidence.go:279-336 | what may be carried is exactly the newest usable record of each call; an older copy never stands in |
| Evidence.CandidatesInOrder | backend/internal/chat/app/evidence.go:330-336 | in the order things happened |
| Evidence.CarriedEvidence | backend/internal/chat/app/evidence.go:279-353 | what is carried is a chronological subsequence of those, its rendered block fits, and nothing left out would fit beside it |
| Evidence.NoCallIsCarriedTwice | backend/internal/chat/app/evidence.go:279-336 | carried items have pairwise distinct tool and arguments |
| Evidence.CarriedItemHasARecord | backend/internal/chat/app/evidence.go:293-336 | every carried item comes from the newest successful, unredacted record of its call, its text a prefix of the result with the cut counted |
| Evidence.KeyIsTheCall | backend/internal/chat/app/evidence.go:279-336 | the joined key identifies tool and arguments |
| Evidence.TruncateRunes | backend/internal/chat/app/evidence.go:357-372 | a prefix within the ceiling, and what was cut |
| Evidence.WriteEvidenceBlock | backend/internal/chat/app/evidence.go:446-461 | header, then marker, call, result and cut note of each item |
| Evidence.EvidenceBlockLength | backend/internal/chat/app/evidence.go:344-353 | the block is exactly as long as the header plus what its items were charged |
| Evidence.DropReadingsOfSubjects | backend/internal/chat/app/evidence.go:171-198 | the records whose arguments mention no subject, in order |
| Evidence.SubjectsAreNeverReplayed | backend/internal/chat/app/evidence.go:171-198 | after that filter no carried item names a subject |
| ExecutionRecord.ExecutionTurnFor | backend/internal/chat/app/execution.go:223-252 | the fold with its index computes the recursive one |
| ExecutionRecord.FoldConserves | backend/internal/chat/app/execution.go:223-252 | the counts of a status add up to the writes of that status |
| ExecutionRecord.TurnConservesItsReceipt | backend/internal/chat/app/execution.go:223-252 | a carried turn's counts are its receipt's Executed, Failed and Refused |
| ExecutionRecord.EntriesAreGroups | backend/internal/chat/app/execution.go:223-252 | each entry is the group of writes of its key, keys are distinct, and every write has an entry |
| ExecutionRecord.RefsAreDistinctAndComplete | backend/internal/chat/app/execution.go:291-301 | a group's identities are exactly the valid ones its writes touched, each once |
| ExecutionRecord.ExecutionBlockLength | backend/internal/chat/app/execution.go:310-358 | the block is exactly as long as the header plus what its turns were charged |
| ExecutionRecord.GroupByMessage | backend/internal/chat/app/execution.go:167-180 | the map holds every message's records, in order |
| ExecutionRecord.SelectExecutionEvidence | backend/internal/chat/app/execution.go:167-207 | the backward walk carries the newest writing turns that fit |
| ExecutionRecord.CarriedExecution | backend/internal/chat/app/execution.go:167-207 | carried turns are a subsequence of the history order, all wrote something, the block fits, nothing left out would fit beside it |
| Resume.FindResumeTarget | backend/internal/chat/app/resume.go:194-220 | found exactly when the named turn is last, an answer, resumable and has a question before it; then the question is the last user turn before it |
| Resume.WithoutInterruptedTurn | backend/internal/chat/app/send.go:511-523 | the history without the interrupted turn |
| Resume.OnlyTheAttemptIsDropped | backend/internal/chat/app/send.go:511-523 | with one entry per id, exactly the last entry is dropped |
| Resume.ReplayEndsOnQuestionIff | backend/internal/chat/app/resume.go:194-220 | what is replayed ends on the question if and only if nothing was said between it and the interrupted turn; the attempt is never in it |
| Resume.ChainedResumeEndsOnTheEarlierAttempt | backend/internal/chat/app/resume.go:214-218 | the witness: resumed twice, the replay ends on the first attempt |
| Resume.WriteResumeBlock | backend/internal/chat/app/resume.go:242-294 | two sections written from the split receipt |
| Resume.ResumeBlockListsEveryWriteOnce | backend/internal/chat/app/resume.go:242-294 | every write of the receipt is listed once, in order within its section, as done exactly when EXECUTED |
| Redaction.PayloadIsInvisible | backend/internal/chat/app/evidence.go:100-114 | records differing only in payloads and redaction give the same write receipt, read receipt, execution evidence and resume block |
| Redaction.ConfidentialityIsInvisible | backend/internal/chat/app/send.go:1311-1358 | two turns differing only in which capabilities are confidential run identically and file the same rows but for payloads |
| Redaction.ConfidentialRowsAreEmpty | backend/internal/chat/app/send.go:1340-1358 | a row is redacted exactly when its capability is confidential, and then holds no payload |
| Redaction.RedactedIsNeverCarried | backend/internal/chat/app/evidence.go:293-296 | a redacted record is never among what evidence may carry |
| Scoping.ValidateTurnReferences | backend/internal/chat/domain/reference.go:137-148 | valid exactly when at most sixteen and each is well formed; otherwise the first fault |
| Scoping.IntegrationTools | backend/internal/chat/app/references.go:119-147 | the authorized capabilities of the provider, or why there are none |
| Scoping.AssertSelectableTool | backend/internal/chat/app/references.go:154-167 | accepted when authorized, else unauthorized if registered, else unknown |
| Scoping.ScopeTools | backend/internal/chat/app/references.go:42-101 | the loops with their set compute the scope rule, first error first |
| Scoping.AcceptedExactlyWhenGranted | backend/internal/chat/app/references.go:42-101 | accepted if and only if well formed and every reference names something already authorized |
| Scoping.ScopeOnlyNarrows | backend/internal/chat/app/references.go:42-101 | a subsequence of the authorized tools, exactly those some reference names, non-empty once anything is selected |
| Scoping.MoreReferencesNeverShrink | backend/internal/chat/app/references.go:42-101 | a larger accepted selection declares at least as much |
| Scoping.RecordReplaysIff | backend/internal/chat/app/references.go:85-101 | feeding the frozen record back gives the same scope and record if and only if it has at most sixteen entries with a name and a label that fits |
| Scoping.GroupOverflowsIff | backend/internal/chat/app/send.go:299-308 | one provider reference is accepted, and its expansion refused for its length, exactly when the agent holds more than sixteen of its capabilities |
| Scoping.RecordFitsIff | backend/internal/chat/domain/reference.go:118-148 | the record of any accepted selection may be carried by a message if and only if it has at most sixteen entries with a name and a label that fits |
| Scoping.SeventeenOverflow | backend/internal/chat/app/send.go:299-308 | the witness: seventeen capabilities of one provider |
| Context.BuildContext | backend/internal/chat/app/context.go:176-229 | the messages, tools, report and breakpoint of the fold of all producers' emissions, in order |
| Context.ContextAssembler.constructor | backend/internal/chat/app/context.go:437-443 | a fresh assembler holds nothing |
| Context.ContextAssembler.BlockFor | backend/internal/chat/app/context.go:456-465 | one block per kind, appended on first use, found by the index afterwards |
| Context.ContextAssembler.Append | backend/internal/chat/app/context.go:467-472 | one message and its measure, together |
| Context.ContextAssembler.ExcludeN | backend/internal/chat/app/context.go:485-497 | exclusions of one reason accumulate in one entry |
| Context.ContextAssembler.AddInstructions | backend/internal/chat/app/context.go:520-532 | grounding policy if there are capabilities, then the trimmed prompt if any |
| Context.ContextAssembler.AddTools | backend/internal/chat/app/context.go:565-580 | declarations are counted and put no message on the wire |
| Context.ContextAssembler.AddContextReferences | backend/internal/chat/app/context.go:630-645 | one message, counted by subjects |
| Context.ContextAssembler.AddReferenceState | backend/internal/chat/app/context.go:671-694 | one message, with unauthorized and unavailable readings excluded by count |
| Context.ContextAssembler.AddMemory | backend/internal/chat/app/context.go:704-723 | the selected block, every dropped memory excluded, unavailability said |
| Context.ContextAssembler.AddSources | backend/internal/chat/app/context.go:839-866 | the selected block, every dropped source excluded as too large or over budget |
| Context.ContextAssembler.AddExecution | backend/internal/chat/app/context.go:999-1020 | the execution block counted by turns, dropped turns excluded |
| Context.ContextAssembler.AddEvidence | backend/internal/chat/app/context.go:1040-1067 | the evidence block and one exclusion per reason that applies |
| Context.ContextAssembler.AddConversation | backend/internal/chat/app/context.go:1075-1088 | every turn with text replayed under its role, empty ones excluded |
| Context.ContextAssembler.AddResume | backend/internal/chat/app/context.go:969-979 | the resume block, after the conversation |
| Context.ContextAssembler.MarkStablePrefix | backend/internal/chat/app/context.go:271-284 | the last instruction message is marked when there is one |
| Context.Finish | backend/internal/chat/app/context.go:1127-1141 | a balanced report over the same blocks |
| ContextProperties.NothingUnaccountedReachesTheWire | backend/internal/chat/app/context.go:176-229 | for every input, the characters of the blocks other than tool declarations sum to those of the built messages, and both totals are sums over blocks |
| ContextProperties.WholeTurnIsAccounted | backend/internal/chat/app/send.go:785-791 | composed with any turn that starts from it, the closed report measures the final message list |
| ContextProperties.EachBlockIsItsMessages | backend/internal/chat/app/context.go:456-497 | kind by kind, the finished report charges exactly what was said under that kind, and what was said, in order, is the built message list but for its mark |
| ContextProperties.InstructionsLead | backend/internal/chat/app/context.go:176-229 | instructions emitted first are the leading messages, and all that is said later follows them, in order |
| ContextProperties.OneBreakpoint | backend/internal/chat/app/context.go:271-284 | at most one message carries a cache breakpoint: the last instruction, preceded by instructions only, exactly when caching is asked for and there is one |
| ContextProperties.ResumeContinuesTheQuestionIff | backend/internal/chat/app/context.go:1075-1088 | of a resume, the last message not from the system is the last thing said before the attempt, which is the question if and only if nothing was said since; the attempt itself is absent |

## Left out

- Float rounding and integer overflow: reals and unbounded integers stand for 64-bit floats and integers.
- Receipts.PersistToolCalls: the limits the code states in bytes (provider call ids, arguments, error messages) are counted in characters here, and a cut never splits a character; the same holds of the ceiling on a tool's result.
- Scoping.ValidateTurnReferences: the length of a label is counted in characters, where the code counts bytes.
- Concurrency of turns: turns of one agent follow one another; two turns open at once may each overshoot by one call.
- Clocks and durations: the closet's moments are ordered integers, a day is a sequence of events, a context dies at one of four instants of a round, and within a stream the instant of its death is not placed among the frames.
- Storage: a store is a sequence of rows, and every write succeeds; the SQL is not part of this model, beyond grouping by model.
- HTTP, server-sent events, the provider adapter, JSON encoding and decoding, UUID parsing, price lookup: inputs of the model.
- Tools.ValidateArguments: values are seen at the granularity the schema looks at, so the decoded values handed to the executor are not modelled.
- Wording of prompts, headers and error messages: fixed constants of arbitrary value.
- Context.ContextAssembler.AddTools: the character cost of one declaration (`toolDeclarationChars`) is an arbitrary function of the definition.
- Context.ContextAssembler.AddContextReferences: the rendered text is an input of the builder, whatever it says.
- Context.ContextAssembler.AddReferenceState: the rendered text and its three counts are inputs of the builder.
- UsageReport.BuildUsageReport: the unit rates a line shows when its rows agree on them are not carried.
- The bodies of tool executors, which are arbitrary answers by position.
- Evidence.KeyIsTheCall: asks that a tool name holds no NUL character, which the registry's name rule guarantees.
- ExecutionRecord.ExecutionTurnFor: groups by the triple of capability, status and code, where the code joins the three into one string.
- Pages.SourcesBlockFits: asks that the stored size of a source is the size of its text, which is how the store fills it.
- Pages.SourcePageTellsTheTruth: asks for distinct ids and for the same stored sizes.
- Day.DayStaysWithinOneCall: supposes that no truncation takes rows that add up to less than nothing, which `NonNegativeDaysOnlyLower` shows wherever no rate is negative; the code does not check the rates it is given.
- Truncations that are refused (an unknown message, or one not from the user): they change no row.
- TurnEndings.DeathIsNamedIffSeen: supposes that a dead context opens no call and that a stop names the context's own cause, which is what the HTTP client does.
- Resume.ReplayEndsOnQuestionIff: asks for distinct message ids and for a question with text, which a user message must have.
- Authorization grants (`authorizedTools`), agent and memory and source editing, image ordering of closet items, duplicate marking of memory candidates: short members that would add nothing harder.
- Log lines, metrics and request tracing.
