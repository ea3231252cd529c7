/** What is true of every context the builder makes: nothing reaches the wire that the report does
    not account for, and the one cache breakpoint stands where nothing has to move for it. */
module ContextProperties {
  import opened Sequences
  import opened Estimator
  import opened Report
  import opened Conversation
  import opened Context
  import Pages
  import Turn
  import TurnTheorems
  import Resume

  /** What every producer respects: the tool declaration is never said as a message, and the
      instructions are counted by their messages alone. */
  predicate Orderly(e: Emission) {
    match e
    case Says(kind, _, _) => !kind.ToolDeclarations?
    case LeavesOut(kind, _, _, _) => !kind.Instructions?
    case Counts(kind, _) => !kind.Instructions?
    case Declares(_, _) => true
  }

  predicate IsInstruction(e: Emission) { e.Says? && e.kind.Instructions? }

  predicate Material(e: Emission) { Orderly(e) && !IsInstruction(e) }

  /* ---- the emissions ---- */

  lemma AlsoEvery(p: Emission -> bool, s: seq<Emission>, when: bool, e: Emission)
    requires Every(p, s) && (when ==> p(e))
    ensures Every(p, Also(s, when, e))
  {
    if when {
      assert (s + [e])[..|s|] == s;
    }
  }

  lemma {:induction false} ApplyEvery<T>(p: Emission -> bool, f: T -> Emission, s: seq<T>)
    requires forall x :: x in s ==> p(f(x))
    ensures Every(p, Apply(f, s))
  {
    if s != [] {
      ApplyEvery(p, f, s[..|s| - 1]);
      assert s[|s| - 1] in s;
      assert Apply(f, s)[..|s| - 1] == Apply(f, s[..|s| - 1]);
    }
  }

  lemma TwoEvery(p: Emission -> bool, a: Emission, b: Emission)
    requires p(a) && p(b)
    ensures Every(p, [a, b]) && Every(p, [a])
  {
    assert [a, b][..1] == [a] && [a][..0] == [];
  }

  lemma ToolsAreMaterial(x: ContextInput)
    ensures Every(Material, ToolEmissions(x.tools, x.declared, x.toolsWithheld))
  {
    var d := Declares(|x.tools|, SumBy(x.declared, x.tools));
    TwoEvery(Material, d, d);
    AlsoEvery(Material, [d], x.toolsWithheld > 0, LeavesOut(ToolDeclarations, NotSelected, x.toolsWithheld, 0));
  }

  lemma SubjectsAreMaterial(s: Subjects)
    ensures Every(Material, ReferenceEmissions(s)) && Every(Material, StateEmissions(s))
  {
    TwoEvery(Material, Says(ContextReferences, System, s.text), Counts(ContextReferences, s.count));
    TwoEvery(Material, Says(ReferenceState, System, s.stateText), Counts(ReferenceState, s.stateItems));
    var said := [Says(ReferenceState, System, s.stateText), Counts(ReferenceState, s.stateItems)];
    var refused := LeavesOut(ReferenceState, Unauthorized, s.unauthorized, 0);
    AlsoEvery(Material, said, s.unauthorized > 0, refused);
    AlsoEvery(Material, Also(said, s.unauthorized > 0, refused), s.unavailable > 0,
              LeavesOut(ReferenceState, Unavailable, s.unavailable, 0));
  }

  lemma MemoryIsMaterial(x: ContextInput)
    ensures Every(Material, MemoryEmissions(x.memories, x.memoryUnavailable))
  {
    var s := Pages.SelectMemories(x.memories, Pages.MEMORY_BUDGET);
    var u := LeavesOut(BlockKind.Memory, Unavailable, 1, 0);
    TwoEvery(Material, u, u);
    ApplyEvery(Material, MemoryLeftOut, s.dropped);
    AlsoEvery(Material, Apply(MemoryLeftOut, s.dropped), s.selected != [],
              Says(BlockKind.Memory, System, Pages.RenderMemoryBlock(s.selected)));
  }

  lemma SourcesAreMaterial(x: ContextInput)
    ensures Every(Material, SourceEmissions(x.sources, x.sourcesUnavailable))
  {
    var s := Pages.SelectSources(x.sources, Pages.SOURCES_BUDGET);
    var u := LeavesOut(Sources, Unavailable, 1, 0);
    TwoEvery(Material, u, u);
    ApplyEvery(Material, SourceLeftOut, s.dropped);
    AlsoEvery(Material, Apply(SourceLeftOut, s.dropped), s.selected != [],
              Says(Sources, System, Pages.RenderSourcesBlock(s.selected)));
  }

  lemma ExecutionIsMaterial(x: ContextInput)
    ensures Every(Material, ExecutionEmissions(x.execution, x.evidenceUnavailable))
  {
    var ev := x.execution;
    var u := LeavesOut(ExecutionEvidence, Unavailable, 1, 0);
    TwoEvery(Material, u, u);
    var dropped := LeavesOut(ExecutionEvidence, OverBudget, ev.droppedTurns, ev.droppedChars);
    AlsoEvery(Material, [], ev.droppedTurns > 0, dropped);
    var says := Says(ExecutionEvidence, System, ExecutionRecord.RenderExecutionBlock(ev.turns));
    TwoEvery(Material, says, Counts(ExecutionEvidence, |ev.turns|));
    EveryConcat(Material, Also([], ev.droppedTurns > 0, dropped), [says, Counts(ExecutionEvidence, |ev.turns|)]);
  }

  lemma EvidenceIsMaterial(x: ContextInput)
    ensures Every(Material, EvidenceEmissions(x.evidence, x.evidenceUnavailable))
  {
    var sel := x.evidence;
    var u := LeavesOut(ToolEvidence, Unavailable, 1, 0);
    TwoEvery(Material, u, u);
    var s1 := Also([], sel.failedItems > 0, LeavesOut(ToolEvidence, FailedCall, sel.failedItems, 0));
    AlsoEvery(Material, [], sel.failedItems > 0, LeavesOut(ToolEvidence, FailedCall, sel.failedItems, 0));
    var s2 := Also(s1, sel.supersededItems > 0, LeavesOut(ToolEvidence, Superseded, sel.supersededItems, 0));
    AlsoEvery(Material, s1, sel.supersededItems > 0, LeavesOut(ToolEvidence, Superseded, sel.supersededItems, 0));
    var s3 := Also(s2, sel.droppedItems > 0, LeavesOut(ToolEvidence, OverBudget, sel.droppedItems, sel.droppedChars));
    AlsoEvery(Material, s2, sel.droppedItems > 0,
              LeavesOut(ToolEvidence, OverBudget, sel.droppedItems, sel.droppedChars));
    var cut := LeavesOut(ToolEvidence, ExclusionReason.Truncated, 0, sel.truncatedChars);
    var s4 := Also(s3, sel.truncatedChars > 0, cut);
    AlsoEvery(Material, s3, sel.truncatedChars > 0, cut);
    AlsoEvery(Material, s4, sel.items != [], Says(ToolEvidence, System, Evidence.RenderEvidenceBlock(sel.items)));
  }

  lemma ConversationIsMaterial(x: ContextInput)
    ensures Every(Material, ConversationEmissions(x.history, x.current)) && Every(Material, ResumeEmissions(x.resume))
  {
    ApplyEvery(Material, Replaying(x.current), x.history);
    if x.resume.Some? {
      TwoEvery(Material, Says(BlockKind.Resume, System, Resume.RenderResumeBlock(x.resume.value)),
               Counts(BlockKind.Resume, 1));
    }
  }

  lemma MaterialIsMaterial(x: ContextInput)
    ensures Every(Material, MaterialEmissions(x))
  {
    ToolsAreMaterial(x);
    SubjectsAreMaterial(x.subjects);
    MemoryIsMaterial(x);
    SourcesAreMaterial(x);
    ExecutionIsMaterial(x);
    EvidenceIsMaterial(x);
    var e1 := ToolEmissions(x.tools, x.declared, x.toolsWithheld);
    var e2 := e1 + ReferenceEmissions(x.subjects);
    var e3 := e2 + StateEmissions(x.subjects);
    var e4 := e3 + MemoryEmissions(x.memories, x.memoryUnavailable);
    var e5 := e4 + SourceEmissions(x.sources, x.sourcesUnavailable);
    var e6 := e5 + ExecutionEmissions(x.execution, x.evidenceUnavailable);
    EveryConcat(Material, e1, ReferenceEmissions(x.subjects));
    EveryConcat(Material, e2, StateEmissions(x.subjects));
    EveryConcat(Material, e3, MemoryEmissions(x.memories, x.memoryUnavailable));
    EveryConcat(Material, e4, SourceEmissions(x.sources, x.sourcesUnavailable));
    EveryConcat(Material, e5, ExecutionEmissions(x.execution, x.evidenceUnavailable));
    EveryConcat(Material, e6, EvidenceEmissions(x.evidence, x.evidenceUnavailable));
  }

  lemma LaterIsMaterial(x: ContextInput)
    ensures Every(Material, Later(x))
  {
    MaterialIsMaterial(x);
    ConversationIsMaterial(x);
    var m, c := MaterialEmissions(x), ConversationEmissions(x.history, x.current);
    EveryConcat(Material, m, c);
    EveryConcat(Material, m + c, ResumeEmissions(x.resume));
  }

  lemma FirstAreInstructions(x: ContextInput)
    ensures Every(IsInstruction, First(x))
  {
    var policy := Says(Instructions, System, GROUNDING_POLICY);
    AlsoEvery(IsInstruction, [], |x.tools| > 0, policy);
    AlsoEvery(IsInstruction, Also([], |x.tools| > 0, policy), PromptOf(x.agent) != "",
              Says(Instructions, System, PromptOf(x.agent)));
  }

  /* ---- nothing unaccounted ---- */

  predicate Accounted(a: Assembly) {
    SumBy(WireCharactersOf, a.blocks) == SumBy(MessageCharacters, a.messages)
  }

  lemma UpdateAccounts(blocks: seq<Block>, e: Emission)
    requires Orderly(e)
    ensures SumBy(WireCharactersOf, UpdateBlock(blocks, e)) ==
            SumBy(WireCharactersOf, blocks) + (if e.Says? then |e.content| else 0)
  {
    var all := WithBlock(blocks, KindOf(e));
    var i := IndexOf(all, KindOf(e));
    SumAfterUpdate(WireCharactersOf, all, i, BlockAfter(all[i], e));
  }

  lemma EmitAccounts(a: Assembly, e: Emission)
    requires Orderly(e) && Accounted(a)
    ensures Accounted(Emit(a, e))
  {
    UpdateAccounts(a.blocks, e);
    if e.Says? {
    }
  }

  lemma {:induction false} AssembleAccounts(emissions: seq<Emission>)
    requires Every(Orderly, emissions)
    ensures Accounted(Assemble(NOTHING, emissions))
  {
    if emissions != [] {
      AssembleAccounts(emissions[..|emissions| - 1]);
      EmitAccounts(Assemble(NOTHING, emissions[..|emissions| - 1]), emissions[|emissions| - 1]);
    }
  }

  lemma {:induction false} EveryWeaker<T>(p: T -> bool, q: T -> bool, s: seq<T>)
    requires Every(p, s) && forall x :: x in s && p(x) ==> q(x)
    ensures Every(q, s)
  {
    if s != [] {
      EveryWeaker(p, q, s[..|s| - 1]);
      assert s[|s| - 1] in s;
    }
  }

  lemma EmissionsAreOrderly(x: ContextInput)
    ensures Every(Orderly, EmissionsOf(x))
  {
    FirstAreInstructions(x);
    LaterIsMaterial(x);
    EveryWeaker(IsInstruction, Orderly, First(x));
    EveryWeaker(Material, Orderly, Later(x));
    EveryConcat(Orderly, First(x), Later(x));
  }

  /** The mark weighs nothing. */
  lemma MarkWeighsNothing(a: Assembly)
    requires Accounted(a)
    ensures Accounted(Marked(a))
  {
    if Markable(a) {
      var last := InstructionItems(a) - 1;
      SumAfterUpdate(MessageCharacters, a.messages, last, a.messages[last].(cacheBreakpoint := true));
    }
  }

  /** Every character of every message built is in the report: what its blocks say reached the
      message list is exactly what the list measures, and its totals are the sums of its blocks. */
  lemma NothingUnaccountedReachesTheWire(x: ContextInput, built: BuiltContext)
    requires IsBuilt(x, built)
    ensures SumBy(WireCharactersOf, built.report.blocks) == SumBy(MessageCharacters, built.messages)
    ensures built.report.totalCharacters == SumBy(CharactersOf, built.report.blocks)
    ensures built.report.totalEstimatedTokens == SumBy(TokensOf, built.report.blocks)
  {
    var a := Composed(x);
    EmissionsAreOrderly(x);
    AssembleAccounts(EmissionsOf(x));
    MarkWeighsNothing(a);
    FinishedAccounts(built, if x.promptCache then Marked(a) else a, EstimatorFor(ModelOf(x.agent)),
                     if x.promptCache && Markable(a) then Some(Instructions) else None);
  }

  /** A finished report of an accounted assembly is as accounted. */
  lemma FinishedAccounts(built: BuiltContext, a: Assembly, est: TokenEstimator, breakpoint: Option<BlockKind>)
    requires Finished(built, a, est, breakpoint) && Accounted(a)
    ensures SumBy(WireCharactersOf, built.report.blocks) == SumBy(MessageCharacters, built.messages)
    ensures built.report.totalCharacters == SumBy(CharactersOf, built.report.blocks)
    ensures built.report.totalEstimatedTokens == SumBy(TokensOf, built.report.blocks)
  {
    SameCharacters(a.blocks, built.report.blocks);
  }

  /** And it stays so through the whole turn: once the tool exchange is added, the finished report
      accounts for every character of the last message list. */
  lemma WholeTurnIsAccounted(x: ContextInput, built: BuiltContext, input: Turn.TurnInput, report: ContextReport)
    requires IsBuilt(x, built) && input.built == built.messages && input.report == built.report
    requires Turn.Reported(input, TurnTheorems.LastOf(input), report)
    ensures SumBy(WireCharactersOf, report.blocks) == SumBy(MessageCharacters, TurnTheorems.LastOf(input).messages)
  {
    NothingUnaccountedReachesTheWire(x, built);
    TurnTheorems.ReportCountsTheExchange(input, report);
  }

  /* ---- block by block ---- */

  function CharactersOfKind(blocks: seq<Block>, kind: BlockKind): int {
    var i := IndexOf(blocks, kind);
    if i < |blocks| then blocks[i].characters else 0
  }

  function Weight(kind: BlockKind): Emission -> int {
    (e: Emission) => if e.Says? && e.kind == kind then |e.content| else 0
  }

  lemma PlaceAfterUpdate(blocks: seq<Block>, e: Emission, kind: BlockKind)
    ensures var after := UpdateBlock(blocks, e);
            IndexOf(after, kind) ==
            if IndexOf(blocks, kind) < |blocks| then IndexOf(blocks, kind)
            else if kind == KindOf(e) then |blocks| else |after|
  {
    var all := WithBlock(blocks, KindOf(e));
    if IndexOf(blocks, KindOf(e)) == |blocks| {
    }
    SamePlaces(all, IndexOf(all, KindOf(e)), BlockAfter(all[IndexOf(all, KindOf(e))], e), kind);
  }

  lemma KindAfterUpdate(blocks: seq<Block>, e: Emission, kind: BlockKind)
    requires !kind.ToolDeclarations?
    ensures CharactersOfKind(UpdateBlock(blocks, e), kind) == CharactersOfKind(blocks, kind) + Weight(kind)(e)
  {
    PlaceAfterUpdate(blocks, e, kind);
  }

  lemma {:induction false} KindIsItsMessages(emissions: seq<Emission>, kind: BlockKind)
    requires !kind.ToolDeclarations?
    ensures CharactersOfKind(Assemble(NOTHING, emissions).blocks, kind) == SumBy(Weight(kind), emissions)
  {
    if emissions != [] {
      var init := emissions[..|emissions| - 1];
      KindIsItsMessages(init, kind);
      KindAfterUpdate(Assemble(NOTHING, init).blocks, emissions[|emissions| - 1], kind);
    }
  }

  /* ---- the message list ---- */

  predicate IsSaid(e: Emission) { e.Says? }

  function Spoken(e: Emission): ChatMessage {
    if e.Says? then Plain(e.role, e.content) else Plain(System, "")
  }

  function SaidIn(emissions: seq<Emission>): seq<ChatMessage> {
    Apply(Spoken, Keep(IsSaid, emissions))
  }

  lemma {:induction false} MessagesAreWhatIsSaid(emissions: seq<Emission>)
    ensures Assemble(NOTHING, emissions).messages == SaidIn(emissions)
  {
    if emissions != [] {
      var init, e := emissions[..|emissions| - 1], emissions[|emissions| - 1];
      MessagesAreWhatIsSaid(init);
      ApplySnoc(Spoken, Keep(IsSaid, init), e);
    }
  }

  lemma {:induction false} ApplyConcat<S, T>(f: S -> T, a: seq<S>, b: seq<S>)
    ensures Apply(f, a + b) == Apply(f, a) + Apply(f, b)
  {
  }

  lemma SaidConcat(a: seq<Emission>, b: seq<Emission>)
    ensures SaidIn(a + b) == SaidIn(a) + SaidIn(b)
  {
    KeepConcat(IsSaid, a, b);
    ApplyConcat(Spoken, Keep(IsSaid, a), Keep(IsSaid, b));
  }

  lemma {:induction false} KeepEvery<T>(p: T -> bool, q: T -> bool, s: seq<T>)
    requires Every(q, s) && forall x :: x in s && q(x) ==> p(x)
    ensures Keep(p, s) == s
  {
    if s != [] {
      KeepEvery(p, q, s[..|s| - 1]);
      assert s[|s| - 1] in s;
      assert s == s[..|s| - 1] + [s[|s| - 1]];
    }
  }

  /** Instructions emitted first are the leading messages, and what is said later follows them. */
  lemma InstructionsLead(first: seq<Emission>, later: seq<Emission>)
    requires Every(IsInstruction, first)
    ensures Assemble(NOTHING, first + later).messages == Apply(Spoken, first) + SaidIn(later)
  {
    MessagesAreWhatIsSaid(first + later);
    SaidConcat(first, later);
    KeepEvery(IsSaid, IsInstruction, first);
  }

  lemma InstructionsAfterUpdate(a: Assembly, e: Emission)
    requires Orderly(e)
    ensures InstructionItems(Emit(a, e)) == InstructionItems(a) + (if IsInstruction(e) then 1 else 0)
  {
    PlaceAfterUpdate(a.blocks, e, Instructions);
  }

  lemma {:induction false} InstructionsAreCounted(emissions: seq<Emission>)
    requires Every(Orderly, emissions)
    ensures InstructionItems(Assemble(NOTHING, emissions)) == |Keep(IsInstruction, emissions)|
  {
    if emissions != [] {
      var init := emissions[..|emissions| - 1];
      InstructionsAreCounted(init);
      InstructionsAfterUpdate(Assemble(NOTHING, init), emissions[|emissions| - 1]);
    }
  }

  lemma InstructionCount(first: seq<Emission>, later: seq<Emission>)
    requires Every(IsInstruction, first) && Every(Material, later) && Every(Orderly, first + later)
    ensures InstructionItems(Assemble(NOTHING, first + later)) == |first|
    ensures Assemble(NOTHING, first + later).messages == Apply(Spoken, first) + SaidIn(later)
  {
    InstructionsAreCounted(first + later);
    KeepConcat(IsInstruction, first, later);
    KeepEvery(IsInstruction, IsInstruction, first);
    KeepNone(IsInstruction, Material, later);
    InstructionsLead(first, later);
  }

  predicate MarkedOnlyAt(messages: seq<ChatMessage>, k: int) {
    forall i :: 0 <= i < |messages| ==> (messages[i].cacheBreakpoint <==> i == k)
  }

  /** The messages without their marks. */
  predicate SameBut(marked: seq<ChatMessage>, plain: seq<ChatMessage>) {
    |marked| == |plain| && forall i :: 0 <= i < |plain| ==> marked[i].(cacheBreakpoint := false) == plain[i]
  }

  lemma MarkStandsAt(a: Assembly)
    requires 0 <= InstructionItems(a) <= |a.messages| && MarkedOnlyAt(a.messages, -1)
    ensures MarkedOnlyAt(Marked(a).messages, InstructionItems(a) - 1)
    ensures SameBut(Marked(a).messages, a.messages)
  {
  }

  lemma {:induction false} NothingIsMarked(emissions: seq<Emission>)
    ensures MarkedOnlyAt(SaidIn(emissions), -1)
  {
  }

  /** The mark of a list led by its instructions: on the last of them, if it is made at all. */
  lemma MarkStandsOnTheLast(first: seq<Emission>, later: seq<Emission>)
    requires Every(IsInstruction, first) && Every(Material, later) && Every(Orderly, first + later)
    ensures var a := Assemble(NOTHING, first + later);
            && (Markable(a) <==> first != [])
            && MarkedOnlyAt(a.messages, -1) && MarkedOnlyAt(Marked(a).messages, |first| - 1)
            && SameBut(a.messages, Apply(Spoken, first) + SaidIn(later))
            && SameBut(Marked(a).messages, Apply(Spoken, first) + SaidIn(later))
  {
    InstructionCount(first, later);
    MessagesAreWhatIsSaid(first + later);
    NothingIsMarked(first + later);
    MarkStandsAt(Assemble(NOTHING, first + later));
  }

  /** At most one message carries a cache breakpoint: the last of the instructions, when caching is
      on and there are any. Only instructions stand before it, the report names their block exactly
      when the mark is there, and the mark is all it changes. */
  lemma OneBreakpoint(x: ContextInput, built: BuiltContext)
    requires IsBuilt(x, built)
    ensures MarkedOnlyAt(built.messages, if x.promptCache then |First(x)| - 1 else -1)
    ensures SameBut(built.messages, Apply(Spoken, First(x)) + SaidIn(Later(x)))
    ensures Every(IsInstruction, First(x)) && Every(Material, Later(x))
    ensures built.report.cacheBreakpointAfter == if x.promptCache && First(x) != [] then Some(Instructions) else None
  {
    FirstAreInstructions(x);
    LaterIsMaterial(x);
    EmissionsAreOrderly(x);
    MarkStandsOnTheLast(First(x), Later(x));
  }

  lemma {:induction false} SamePlace(a: seq<Block>, b: seq<Block>, kind: BlockKind)
    requires |a| == |b| && forall i :: 0 <= i < |a| ==> a[i].kind == b[i].kind
    ensures IndexOf(a, kind) == IndexOf(b, kind)
  {
    if a != [] {
      SamePlace(a[..|a| - 1], b[..|b| - 1], kind);
    }
  }

  /** The blocks of a finished report are those that were assembled, estimated. */
  lemma FinishedBlocks(emissions: seq<Emission>, built: BuiltContext, a: Assembly, est: TokenEstimator,
                       breakpoint: Option<BlockKind>, kind: BlockKind)
    requires Finished(built, a, est, breakpoint) && a.blocks == Assemble(NOTHING, emissions).blocks
    requires !kind.ToolDeclarations?
    ensures CharactersOfKind(built.report.blocks, kind) == SumBy(Weight(kind), emissions)
  {
    KindIsItsMessages(emissions, kind);
    SamePlace(built.report.blocks, a.blocks, kind);
  }

  /** What is said, in order, is the message list, marked or not. */
  lemma ListIsWhatIsSaid(first: seq<Emission>, later: seq<Emission>)
    requires Every(IsInstruction, first) && Every(Material, later) && Every(Orderly, first + later)
    ensures var a := Assemble(NOTHING, first + later);
            SameBut(a.messages, SaidIn(first + later)) && SameBut(Marked(a).messages, SaidIn(first + later))
  {
    MarkStandsOnTheLast(first, later);
    InstructionsLead(first, later);
    MessagesAreWhatIsSaid(first + later);
  }

  /** Block by block: what the finished report charges a kind is what was said under that kind, and
      what was said, in order and but for the mark, is the message list. */
  lemma EachBlockIsItsMessages(x: ContextInput, built: BuiltContext, kind: BlockKind)
    requires IsBuilt(x, built) && !kind.ToolDeclarations?
    ensures CharactersOfKind(built.report.blocks, kind) == SumBy(Weight(kind), EmissionsOf(x))
    ensures SameBut(built.messages, SaidIn(EmissionsOf(x)))
  {
    var a := Composed(x);
    FinishedBlocks(EmissionsOf(x), built, if x.promptCache then Marked(a) else a, EstimatorFor(ModelOf(x.agent)),
                   if x.promptCache && Markable(a) then Some(Instructions) else None, kind);
    FirstAreInstructions(x);
    LaterIsMaterial(x);
    EmissionsAreOrderly(x);
    ListIsWhatIsSaid(First(x), Later(x));
  }

  /* ---- a resumed turn ---- */

  /** The last message that is not the system's: what a provider that hoists system messages sees
      last. */
  function LastSpoken(messages: seq<ChatMessage>): Option<ChatMessage> {
    if messages == [] then None
    else if messages[|messages| - 1].role.System? then LastSpoken(messages[..|messages| - 1])
    else Some(messages[|messages| - 1].(cacheBreakpoint := false))
  }

  function AsWire(m: Message): ChatMessage { Plain(m.role, m.content) }

  lemma {:induction false} ConversationIsReplayed(history: seq<Message>, current: Option<int>)
    ensures SaidIn(ConversationEmissions(history, current)) == Apply(AsWire, Keep(Resume.HasText, history))
  {
    if history != [] {
      var init, m := history[..|history| - 1], history[|history| - 1];
      ConversationIsReplayed(init, current);
      var said := ConversationEmissions(init, current);
      assert ConversationEmissions(history, current)[..|history| - 1] == said;
      if Resume.HasText(m) {
        ApplySnoc(Spoken, Keep(IsSaid, said), Replayed(m, current));
        ApplySnoc(AsWire, Keep(Resume.HasText, init), m);
      }
    }
  }

  lemma {:induction false} MarkedSpeaksTheSame(messages: seq<ChatMessage>, i: nat)
    requires i < |messages|
    ensures LastSpoken(messages[i := messages[i].(cacheBreakpoint := true)]) == LastSpoken(messages)
  {
    var n := |messages| - 1;
    var marked := messages[i := messages[i].(cacheBreakpoint := true)];
    if i < n {
      assert marked[..n] == messages[..n][i := messages[i].(cacheBreakpoint := true)];
      MarkedSpeaksTheSame(messages[..n], i);
    } else {
      assert marked[..n] == messages[..n];
    }
  }

  lemma LastSpokenAfterSystem(messages: seq<ChatMessage>, m: ChatMessage)
    requires m.role.System?
    ensures LastSpoken(messages + [m]) == LastSpoken(messages)
  {
    assert (messages + [m])[..|messages|] == messages;
  }

  lemma Regroup<T>(a: seq<T>, b: seq<T>, c: seq<T>, d: seq<T>)
    ensures a + (b + c + d) == a + b + c + d
  {
  }

  /** What a resumed turn says before its conversation. */
  function Preamble(x: ContextInput): seq<ChatMessage> {
    SaidIn(First(x)) + SaidIn(MaterialEmissions(x))
  }

  /** The list a resumed turn sends: the preamble, the conversation, and the resume block last. */
  lemma ResumedList(x: ContextInput)
    requires x.resume.Some?
    ensures Composed(x).messages ==
            Preamble(x) + Apply(AsWire, Keep(Resume.HasText, x.history))
            + [Plain(System, Resume.RenderResumeBlock(x.resume.value))]
  {
    var m, c, r := MaterialEmissions(x), ConversationEmissions(x.history, x.current), ResumeEmissions(x.resume);
    MessagesAreWhatIsSaid(EmissionsOf(x));
    SaidConcat(First(x), Later(x));
    SaidConcat(m + c, r);
    SaidConcat(m, c);
    Regroup(SaidIn(First(x)), SaidIn(m), SaidIn(c), SaidIn(r));
    ConversationIsReplayed(x.history, x.current);
    ResumeIsSaid(x.resume.value);
  }

  /** What a resumed turn replays of the conversation. */
  function SaidBefore(x: ContextInput): seq<Message> {
    Keep(Resume.HasText, x.history)
  }

  lemma ResumedListEndsOn(x: ContextInput)
    requires x.resume.Some? && SaidBefore(x) != [] && !SaidBefore(x)[|SaidBefore(x)| - 1].role.System?
    ensures LastSpoken(Composed(x).messages) == Some(AsWire(SaidBefore(x)[|SaidBefore(x)| - 1]))
  {
    var said := SaidBefore(x);
    ResumedList(x);
    LastSpokenAfterSystem(Preamble(x) + Apply(AsWire, said), Plain(System, Resume.RenderResumeBlock(x.resume.value)));
    EndOfConversation(Preamble(x), said);
  }

  lemma ResumeIsSaid(rc: Resume.ResumeContext)
    ensures SaidIn(ResumeEmissions(Some(rc))) == [Plain(System, Resume.RenderResumeBlock(rc))]
  {
    var says := Says(BlockKind.Resume, System, Resume.RenderResumeBlock(rc));
    assert [says, Counts(BlockKind.Resume, 1)][..1] == [says] && [says][..0] == [];
    assert Keep(IsSaid, [says]) == [says];
    assert Keep(IsSaid, ResumeEmissions(Some(rc))) == [says];
  }

  lemma MarkSpeaksTheSame(a: Assembly)
    ensures LastSpoken(Marked(a).messages) == LastSpoken(a.messages)
  {
    if Markable(a) {
      MarkedSpeaksTheSame(a.messages, InstructionItems(a) - 1);
    }
  }

  lemma BuiltSpeaksTheSame(x: ContextInput, built: BuiltContext)
    requires IsBuilt(x, built)
    ensures LastSpoken(built.messages) == LastSpoken(Composed(x).messages)
  {
    MarkSpeaksTheSame(Composed(x));
  }

  lemma SaidByPeople(history: seq<Message>, rc: Resume.ResumeContext)
    requires forall m :: m in history ==> !m.role.System?
    ensures var said := Keep(Resume.HasText, Resume.WithoutInterrupted(history, Some(rc)));
            forall i :: 0 <= i < |said| ==> !said[i].role.System?
  {
    var others := Resume.WithoutInterrupted(history, Some(rc));
    KeepSound(Resume.HasText, others);
    KeepSound(Resume.OtherThan(rc.messageId), history);
    forall i | 0 <= i < |Keep(Resume.HasText, others)| ensures !Keep(Resume.HasText, others)[i].role.System? {
      assert Keep(Resume.HasText, others)[i] in others;
    }
  }

  ghost predicate Resumes(x: ContextInput, history: seq<Message>, rc: Resume.ResumeContext) {
    && x.resume == Some(rc) && x.history == Resume.WithoutInterrupted(history, Some(rc))
    && Resume.TargetOf(history, rc.messageId).Found? && Distinct(Resume.MessageId, history)
    && Resume.HasText(Resume.TargetOf(history, rc.messageId).question)
    && forall m :: m in history ==> !m.role.System?
  }

  lemma ResumedListEndsOnLastSaid(x: ContextInput, history: seq<Message>, rc: Resume.ResumeContext)
    requires Resumes(x, history, rc)
    ensures SaidBefore(x) != []
    ensures LastSpoken(Composed(x).messages) == Some(AsWire(SaidBefore(x)[|SaidBefore(x)| - 1]))
  {
    LastSaidByAPerson(x, history, rc);
    ResumedListEndsOn(x);
  }

  lemma LastSaidByAPerson(x: ContextInput, history: seq<Message>, rc: Resume.ResumeContext)
    requires Resumes(x, history, rc)
    ensures SaidBefore(x) != [] && !SaidBefore(x)[|SaidBefore(x)| - 1].role.System?
  {
    Resume.ReplayEndsOnQuestionIff(history, rc.messageId, rc);
    SaidByPeople(history, rc);
  }

  /** Whether the last thing said before the interrupted attempt was its question. */
  predicate EndsOnQuestion(x: ContextInput, history: seq<Message>, rc: Resume.ResumeContext)
    requires Resume.TargetOf(history, rc.messageId).Found? && SaidBefore(x) != []
  {
    SaidBefore(x)[|SaidBefore(x)| - 1] == Resume.TargetOf(history, rc.messageId).question
  }

  predicate NothingSaidSince(history: seq<Message>, rc: Resume.ResumeContext)
    requires Resume.TargetOf(history, rc.messageId).Found?
  {
    Resume.SilentBetween(history, Resume.TargetOf(history, rc.messageId).at, |history| - 1)
  }

  lemma QuestionIsLastSaidIff(x: ContextInput, history: seq<Message>, rc: Resume.ResumeContext)
    requires Resumes(x, history, rc)
    ensures SaidBefore(x) != [] && Resume.TargetOf(history, rc.messageId).target !in SaidBefore(x)
    ensures EndsOnQuestion(x, history, rc) <==> NothingSaidSince(history, rc)
  {
    Resume.ReplayEndsOnQuestionIff(history, rc.messageId, rc);
  }

  /** A resumed turn continues the same question. The interrupted attempt is not replayed, and what a
      provider sees last, system messages aside, is the last thing said before it: the question
      itself, if and only if nothing said between the question and the attempt has any text. */
  lemma ResumeContinuesTheQuestionIff(x: ContextInput, built: BuiltContext, history: seq<Message>,
      rc: Resume.ResumeContext)
    requires IsBuilt(x, built) && Resumes(x, history, rc)
    ensures SaidBefore(x) != [] && Resume.TargetOf(history, rc.messageId).target !in SaidBefore(x)
    ensures LastSpoken(built.messages) == Some(AsWire(SaidBefore(x)[|SaidBefore(x)| - 1]))
    ensures EndsOnQuestion(x, history, rc) <==> NothingSaidSince(history, rc)
  {
    QuestionIsLastSaidIff(x, history, rc);
    ResumedListEndsOnLastSaid(x, history, rc);
    BuiltSpeaksTheSame(x, built);
  }

  lemma EndOfConversation(before: seq<ChatMessage>, said: seq<Message>)
    requires said != [] && !said[|said| - 1].role.System?
    ensures LastSpoken(before + Apply(AsWire, said)) == Some(AsWire(said[|said| - 1]))
  {
    var all := before + Apply(AsWire, said);
    assert all[|all| - 1] == AsWire(said[|said| - 1]);
  }
}
