/** The Context Builder: ten producers, one list of messages and one account of it. What every
    producer does is an emission, and a context is the fold of its emissions. */
module Context {
  import opened Sequences
  import opened Estimator
  import opened Tools
  import opened Report
  import opened Conversation
  import opened Selection
  import opened Pages
  import Evidence
  import ExecutionRecord
  import Resume

  /* ---- the input ---- */

  datatype Agent = Agent(model: string, systemPrompt: string)

  /** What the turn is about and what it read about it: the rendered texts, and the counts the
      report keeps of them. */
  datatype Subjects = Subjects(
    count: nat, text: string,
    hydrated: nat, stateText: string, stateItems: nat, unauthorized: nat, unavailable: nat)

  datatype ContextInput = ContextInput(
    agent: Option<Agent>,
    tools: seq<ToolDefinition>,
    declared: ToolDefinition -> int,
    toolsWithheld: int,
    subjects: Subjects,
    memories: seq<Memory>,
    memoryUnavailable: bool,
    sources: seq<Source>,
    sourcesUnavailable: bool,
    execution: ExecutionRecord.ExecutionEvidence,
    evidence: Evidence.EvidenceSelection,
    evidenceUnavailable: bool,
    history: seq<Message>,
    current: Option<int>,
    resume: Option<Resume.ResumeContext>,
    promptCache: bool)

  // The grounding policy: arbitrary, but fixed.
  const GROUNDING_POLICY: string

  /* ---- emissions ---- */

  datatype Emission =
    | Says(kind: BlockKind, role: Role, content: string)
    | LeavesOut(kind: BlockKind, reason: ExclusionReason, count: int, size: int)
    | Counts(kind: BlockKind, count: int)
    | Declares(count: int, size: int)

  function KindOf(e: Emission): BlockKind {
    if e.Declares? then ToolDeclarations else e.kind
  }

  datatype Assembly = Assembly(messages: seq<ChatMessage>, blocks: seq<Block>)

  const NOTHING := Assembly([], [])

  function ExclusionAt(exclusions: seq<Exclusion>, reason: ExclusionReason): (i: nat)
    ensures i <= |exclusions| && (i < |exclusions| ==> exclusions[i].reason == reason)
  {
    if exclusions == [] then 0
    else
      var n := |exclusions| - 1;
      var i := ExclusionAt(exclusions[..n], reason);
      if i < n then i else if exclusions[n].reason == reason then n else n + 1
  }

  function AddExclusion(exclusions: seq<Exclusion>, reason: ExclusionReason, count: int, size: int): seq<Exclusion> {
    var i := ExclusionAt(exclusions, reason);
    if i < |exclusions| then
      exclusions[i := Exclusion(reason, exclusions[i].items + count, exclusions[i].characters + size)]
    else exclusions + [Exclusion(reason, count, size)]
  }

  function BlockAfter(b: Block, e: Emission): Block {
    match e
    case Says(_, _, content) => b.(items := b.items + 1, characters := b.characters + |content|)
    case LeavesOut(_, reason, count, size) => b.(exclusions := AddExclusion(b.exclusions, reason, count, size))
    case Counts(_, count) => b.(items := count)
    case Declares(count, size) => b.(items := count, characters := b.characters + size)
  }

  /** The blocks with one of that kind among them: appended on first use, so that the order of the
      report is the order of composition. */
  function WithBlock(blocks: seq<Block>, kind: BlockKind): (r: seq<Block>)
    ensures IndexOf(r, kind) < |r|
  {
    if IndexOf(blocks, kind) < |blocks| then blocks
    else
      var r := blocks + [Block(kind, 0, 0, 0, [])];
      assert r[..|blocks|] == blocks;
      r
  }

  function UpdateBlock(blocks: seq<Block>, e: Emission): seq<Block> {
    var all := WithBlock(blocks, KindOf(e));
    var i := IndexOf(all, KindOf(e));
    all[i := BlockAfter(all[i], e)]
  }

  function Emit(a: Assembly, e: Emission): Assembly {
    Assembly(if e.Says? then a.messages + [Plain(e.role, e.content)] else a.messages, UpdateBlock(a.blocks, e))
  }

  function Assemble(a: Assembly, emissions: seq<Emission>): Assembly {
    Fold(Emit, a, emissions)
  }

  /* ---- the producers, as what they emit ---- */

  function Also(s: seq<Emission>, when: bool, e: Emission): seq<Emission> {
    if when then s + [e] else s
  }

  function PromptOf(agent: Option<Agent>): string {
    if agent.None? then "" else Trim(agent.value.systemPrompt)
  }

  function InstructionEmissions(agent: Option<Agent>, hasCapabilities: bool): seq<Emission> {
    Also(Also([], hasCapabilities, Says(Instructions, System, GROUNDING_POLICY)),
         PromptOf(agent) != "", Says(Instructions, System, PromptOf(agent)))
  }

  function ToolEmissions(tools: seq<ToolDefinition>, declared: ToolDefinition -> int, withheld: int): seq<Emission> {
    if tools == [] && withheld == 0 then []
    else Also([Declares(|tools|, SumBy(declared, tools))],
              withheld > 0, LeavesOut(ToolDeclarations, NotSelected, withheld, 0))
  }

  function ReferenceEmissions(s: Subjects): seq<Emission> {
    if s.count == 0 || s.text == "" then []
    else [Says(ContextReferences, System, s.text), Counts(ContextReferences, s.count)]
  }

  function StateEmissions(s: Subjects): seq<Emission> {
    if s.hydrated == 0 || s.stateText == "" then []
    else Also(Also([Says(ReferenceState, System, s.stateText), Counts(ReferenceState, s.stateItems)],
                   s.unauthorized > 0, LeavesOut(ReferenceState, Unauthorized, s.unauthorized, 0)),
              s.unavailable > 0, LeavesOut(ReferenceState, Unavailable, s.unavailable, 0))
  }

  function MemoryLeftOut(m: Memory): Emission {
    LeavesOut(BlockKind.Memory, OverBudget, 1, |m.content|)
  }

  function MemoryEmissions(memories: seq<Memory>, unavailable: bool): seq<Emission> {
    if unavailable then [LeavesOut(BlockKind.Memory, Unavailable, 1, 0)]
    else
      var s := SelectMemories(memories, MEMORY_BUDGET);
      Also(Apply(MemoryLeftOut, s.dropped),
           s.selected != [], Says(BlockKind.Memory, System, RenderMemoryBlock(s.selected)))
  }

  function SourceLeftOut(s: Source): Emission {
    LeavesOut(Sources, if SourceExceedsBudget(s, SOURCES_BUDGET) then TooLarge else OverBudget, 1, SourceCost(s))
  }

  function SourceEmissions(sources: seq<Source>, unavailable: bool): seq<Emission> {
    if unavailable then [LeavesOut(Sources, Unavailable, 1, 0)]
    else
      var s := SelectSources(sources, SOURCES_BUDGET);
      Also(Apply(SourceLeftOut, s.dropped),
           s.selected != [], Says(Sources, System, RenderSourcesBlock(s.selected)))
  }

  function ExecutionEmissions(ev: ExecutionRecord.ExecutionEvidence, unavailable: bool): seq<Emission> {
    if unavailable then [LeavesOut(ExecutionEvidence, Unavailable, 1, 0)]
    else
      var said := Also([], ev.droppedTurns > 0,
                       LeavesOut(ExecutionEvidence, OverBudget, ev.droppedTurns, ev.droppedChars));
      if ev.turns == [] then said
      else said + [Says(ExecutionEvidence, System, ExecutionRecord.RenderExecutionBlock(ev.turns)),
                   Counts(ExecutionEvidence, |ev.turns|)]
  }

  function EvidenceEmissions(sel: Evidence.EvidenceSelection, unavailable: bool): seq<Emission> {
    if unavailable then [LeavesOut(ToolEvidence, Unavailable, 1, 0)]
    else
      Also(Also(Also(Also(Also([],
        sel.failedItems > 0, LeavesOut(ToolEvidence, FailedCall, sel.failedItems, 0)),
        sel.supersededItems > 0, LeavesOut(ToolEvidence, Superseded, sel.supersededItems, 0)),
        sel.droppedItems > 0, LeavesOut(ToolEvidence, OverBudget, sel.droppedItems, sel.droppedChars)),
        sel.truncatedChars > 0, LeavesOut(ToolEvidence, ExclusionReason.Truncated, 0, sel.truncatedChars)),
        sel.items != [], Says(ToolEvidence, System, Evidence.RenderEvidenceBlock(sel.items)))
  }

  function Replayed(m: Message, current: Option<int>): Emission {
    var kind := if current == Some(m.id) then CurrentMessage else History;
    if m.content == "" then LeavesOut(kind, EmptyTurn, 1, 0) else Says(kind, m.role, m.content)
  }

  function Replaying(current: Option<int>): Message -> Emission {
    (m: Message) => Replayed(m, current)
  }

  function ConversationEmissions(history: seq<Message>, current: Option<int>): seq<Emission> {
    Apply(Replaying(current), history)
  }

  function ResumeEmissions(rc: Option<Resume.ResumeContext>): seq<Emission> {
    if rc.None? then []
    else [Says(BlockKind.Resume, System, Resume.RenderResumeBlock(rc.value)), Counts(BlockKind.Resume, 1)]
  }

  /** Everything after the instructions and before the conversation. */
  function MaterialEmissions(x: ContextInput): seq<Emission> {
    ToolEmissions(x.tools, x.declared, x.toolsWithheld)
    + ReferenceEmissions(x.subjects)
    + StateEmissions(x.subjects)
    + MemoryEmissions(x.memories, x.memoryUnavailable)
    + SourceEmissions(x.sources, x.sourcesUnavailable)
    + ExecutionEmissions(x.execution, x.evidenceUnavailable)
    + EvidenceEmissions(x.evidence, x.evidenceUnavailable)
  }

  /** The instructions, which come first. */
  function First(x: ContextInput): seq<Emission> {
    InstructionEmissions(x.agent, |x.tools| > 0)
  }

  /** Everything after them. */
  function Later(x: ContextInput): seq<Emission> {
    MaterialEmissions(x) + ConversationEmissions(x.history, x.current) + ResumeEmissions(x.resume)
  }

  function EmissionsOf(x: ContextInput): seq<Emission> {
    First(x) + Later(x)
  }

  /* ---- the assembler ---- */

  lemma AssembleOne(a: Assembly, e: Emission)
    ensures Assemble(a, [e]) == Emit(a, e)
  {
    FoldOne(Emit, a, e);
  }

  lemma AssembleAlso(a: Assembly, s: seq<Emission>, when: bool, e: Emission)
    ensures Assemble(a, Also(s, when, e)) == if when then Emit(Assemble(a, s), e) else Assemble(a, s)
  {
    if when {
      FoldSnoc(Emit, a, s, e);
    }
  }

  /** `contextAssembler`: messages and their account, accumulated together. */
  class ContextAssembler {
    var messages: seq<ChatMessage>
    var blocks: seq<Block>
    var index: map<BlockKind, nat>
    var cacheBreakpointAfter: Option<BlockKind>
    const est: TokenEstimator

    ghost function State(): Assembly
      reads this
    {
      Assembly(messages, blocks)
    }

    /** The index finds every block there is. */
    ghost predicate Valid()
      reads this
    {
      forall k :: if k in index then index[k] == IndexOf(blocks, k) < |blocks| else IndexOf(blocks, k) == |blocks|
    }

    constructor (est: TokenEstimator)
      ensures Valid() && State() == NOTHING && cacheBreakpointAfter.None? && this.est == est
    {
      messages, blocks, index, cacheBreakpointAfter := [], [], map[], None;
      this.est := est;
    }

    /** The accumulator of a kind, created on first use. */
    method BlockFor(kind: BlockKind) returns (i: nat)
      requires Valid()
      modifies this`blocks, this`index
      ensures Valid() && blocks == WithBlock(old(blocks), kind) && i == IndexOf(blocks, kind) < |blocks|
    {
      if kind in index {
        return index[kind];
      }
      blocks := blocks + [Block(kind, 0, 0, 0, [])];
      index := index[kind := |blocks| - 1];
      return |blocks| - 1;
    }

    /** Every change to a block goes through here. */
    method Change(e: Emission)
      requires Valid()
      modifies this`blocks, this`index
      ensures Valid() && blocks == UpdateBlock(old(blocks), e)
    {
      var i := BlockFor(KindOf(e));
      ChangeMovesNothing(blocks, i, BlockAfter(blocks[i], e));
      blocks := blocks[i := BlockAfter(blocks[i], e)];
    }

    method Append(kind: BlockKind, role: Role, content: string)
      requires Valid()
      modifies this`messages, this`blocks, this`index
      ensures Valid() && State() == Emit(old(State()), Says(kind, role, content))
    {
      messages := messages + [Plain(role, content)];
      Change(Says(kind, role, content));
    }

    method ExcludeN(kind: BlockKind, reason: ExclusionReason, count: int, size: int)
      requires Valid()
      modifies this`blocks, this`index
      ensures Valid() && State() == Emit(old(State()), LeavesOut(kind, reason, count, size))
    {
      Change(LeavesOut(kind, reason, count, size));
    }

    method SetItems(kind: BlockKind, count: int)
      requires Valid()
      modifies this`blocks, this`index
      ensures Valid() && State() == Emit(old(State()), Counts(kind, count))
    {
      Change(Counts(kind, count));
    }

    method AddInstructions(agent: Option<Agent>, hasCapabilities: bool)
      requires Valid()
      modifies this`messages, this`blocks, this`index
      ensures Valid() && State() == Assemble(old(State()), InstructionEmissions(agent, hasCapabilities))
    {
      ghost var start := State();
      AssembleAlso(start, [], hasCapabilities, Says(Instructions, System, GROUNDING_POLICY));
      AssembleAlso(start, Also([], hasCapabilities, Says(Instructions, System, GROUNDING_POLICY)),
                   PromptOf(agent) != "", Says(Instructions, System, PromptOf(agent)));
      if hasCapabilities {
        Append(Instructions, System, GROUNDING_POLICY);
      }
      if agent.None? {
        return;
      }
      var prompt := Trim(agent.value.systemPrompt);
      if prompt == "" {
        return;
      }
      Append(Instructions, System, prompt);
    }

    method AddTools(tools: seq<ToolDefinition>, declared: ToolDefinition -> int, withheld: int)
      requires Valid()
      modifies this`blocks, this`index
      ensures Valid() && State() == Assemble(old(State()), ToolEmissions(tools, declared, withheld))
    {
      ghost var start := State();
      if |tools| == 0 && withheld == 0 {
        return;
      }
      var characters := 0;
      for i := 0 to |tools|
        invariant characters == SumBy(declared, tools[..i])
      {
        assert tools[..i + 1][..i] == tools[..i];
        characters := characters + declared(tools[i]);
      }
      assert tools[..|tools|] == tools;
      AssembleOne(start, Declares(|tools|, characters));
      AssembleAlso(start, [Declares(|tools|, characters)], withheld > 0,
                   LeavesOut(ToolDeclarations, NotSelected, withheld, 0));
      Change(Declares(|tools|, characters));
      if withheld > 0 {
        ExcludeN(ToolDeclarations, NotSelected, withheld, 0);
      }
    }

    /** A block of one message that counts something else than its message. */
    method AppendCounted(kind: BlockKind, content: string, count: int)
      requires Valid()
      modifies this`messages, this`blocks, this`index
      ensures Valid()
      ensures State() == Assemble(old(State()), [Says(kind, System, content), Counts(kind, count)])
    {
      ghost var start := State();
      AssembleOne(start, Says(kind, System, content));
      FoldSnoc(Emit, start, [Says(kind, System, content)], Counts(kind, count));
      assert [Says(kind, System, content)] + [Counts(kind, count)]
          == [Says(kind, System, content), Counts(kind, count)];
      Append(kind, System, content);
      SetItems(kind, count);
    }

    method AddContextReferences(s: Subjects)
      requires Valid()
      modifies this`messages, this`blocks, this`index
      ensures Valid() && State() == Assemble(old(State()), ReferenceEmissions(s))
    {
      if s.count == 0 {
        return;
      }
      if s.text == "" {
        return;
      }
      AppendCounted(ContextReferences, s.text, s.count);
    }

    method AddReferenceState(s: Subjects)
      requires Valid()
      modifies this`messages, this`blocks, this`index
      ensures Valid() && State() == Assemble(old(State()), StateEmissions(s))
    {
      ghost var start := State();
      if s.hydrated == 0 || s.stateText == "" {
        return;
      }
      ghost var said := [Says(ReferenceState, System, s.stateText), Counts(ReferenceState, s.stateItems)];
      ghost var refused := LeavesOut(ReferenceState, Unauthorized, s.unauthorized, 0);
      AssembleAlso(start, said, s.unauthorized > 0, refused);
      AssembleAlso(start, Also(said, s.unauthorized > 0, refused), s.unavailable > 0,
                   LeavesOut(ReferenceState, Unavailable, s.unavailable, 0));
      AppendCounted(ReferenceState, s.stateText, s.stateItems);
      if s.unauthorized > 0 {
        ExcludeN(ReferenceState, Unauthorized, s.unauthorized, 0);
      }
      if s.unavailable > 0 {
        ExcludeN(ReferenceState, Unavailable, s.unavailable, 0);
      }
    }

    method ExcludeMemories(dropped: seq<Memory>)
      requires Valid()
      modifies this`blocks, this`index
      ensures Valid() && State() == Assemble(old(State()), Apply(MemoryLeftOut, dropped))
    {
      ghost var start := State();
      for i := 0 to |dropped|
        invariant Valid() && State() == Assemble(start, Apply(MemoryLeftOut, dropped[..i]))
      {
        assert dropped[..i + 1] == dropped[..i] + [dropped[i]];
        ApplySnoc(MemoryLeftOut, dropped[..i], dropped[i]);
        FoldSnoc(Emit, start, Apply(MemoryLeftOut, dropped[..i]), MemoryLeftOut(dropped[i]));
        ExcludeN(BlockKind.Memory, OverBudget, 1, |dropped[i].content|);
      }
      assert dropped[..|dropped|] == dropped;
    }

    method AddMemory(memories: seq<Memory>, unavailable: bool)
      requires Valid()
      modifies this`messages, this`blocks, this`index
      ensures Valid() && State() == Assemble(old(State()), MemoryEmissions(memories, unavailable))
    {
      ghost var start := State();
      if unavailable {
        AssembleOne(start, LeavesOut(BlockKind.Memory, Unavailable, 1, 0));
        ExcludeN(BlockKind.Memory, Unavailable, 1, 0);
        return;
      }
      var selected, dropped := SelectWithinBudget(memories, MEMORY_BUDGET, |MEMORY_HEADER|, MemoryCost);
      ExcludeMemories(dropped);
      AssembleAlso(start, Apply(MemoryLeftOut, dropped), selected != [],
                   Says(BlockKind.Memory, System, RenderMemoryBlock(selected)));
      if |selected| == 0 {
        return;
      }
      var text := WriteMemoryBlock(selected);
      Append(BlockKind.Memory, System, text);
    }

    method ExcludeSources(dropped: seq<Source>)
      requires Valid()
      modifies this`blocks, this`index
      ensures Valid() && State() == Assemble(old(State()), Apply(SourceLeftOut, dropped))
    {
      ghost var start := State();
      for i := 0 to |dropped|
        invariant Valid() && State() == Assemble(start, Apply(SourceLeftOut, dropped[..i]))
      {
        assert dropped[..i + 1] == dropped[..i] + [dropped[i]];
        ApplySnoc(SourceLeftOut, dropped[..i], dropped[i]);
        FoldSnoc(Emit, start, Apply(SourceLeftOut, dropped[..i]), SourceLeftOut(dropped[i]));
        var reason := OverBudget;
        if SourceExceedsBudget(dropped[i], SOURCES_BUDGET) {
          reason := TooLarge;
        }
        ExcludeN(Sources, reason, 1, SourceCost(dropped[i]));
      }
      assert dropped[..|dropped|] == dropped;
    }

    method AddSources(sources: seq<Source>, unavailable: bool)
      requires Valid()
      modifies this`messages, this`blocks, this`index
      ensures Valid() && State() == Assemble(old(State()), SourceEmissions(sources, unavailable))
    {
      ghost var start := State();
      if unavailable {
        AssembleOne(start, LeavesOut(Sources, Unavailable, 1, 0));
        ExcludeN(Sources, Unavailable, 1, 0);
        return;
      }
      var selected, dropped := SelectWithinBudget(sources, SOURCES_BUDGET, |SOURCES_HEADER|, SourceCost);
      ExcludeSources(dropped);
      AssembleAlso(start, Apply(SourceLeftOut, dropped), selected != [],
                   Says(Sources, System, RenderSourcesBlock(selected)));
      if |selected| == 0 {
        return;
      }
      var text := WriteSourcesBlock(selected);
      Append(Sources, System, text);
    }

    method AddExecution(ev: ExecutionRecord.ExecutionEvidence, unavailable: bool)
      requires Valid()
      modifies this`messages, this`blocks, this`index
      ensures Valid() && State() == Assemble(old(State()), ExecutionEmissions(ev, unavailable))
    {
      ghost var start := State();
      if unavailable {
        AssembleOne(start, LeavesOut(ExecutionEvidence, Unavailable, 1, 0));
        ExcludeN(ExecutionEvidence, Unavailable, 1, 0);
        return;
      }
      ghost var dropped := LeavesOut(ExecutionEvidence, OverBudget, ev.droppedTurns, ev.droppedChars);
      ghost var said := Also([], ev.droppedTurns > 0, dropped);
      AssembleAlso(start, [], ev.droppedTurns > 0, dropped);
      if ev.droppedTurns > 0 {
        ExcludeN(ExecutionEvidence, OverBudget, ev.droppedTurns, ev.droppedChars);
      }
      if |ev.turns| == 0 {
        return;
      }
      var text := ExecutionRecord.RenderExecutionBlock(ev.turns);
      FoldConcat(Emit, start, said, [Says(ExecutionEvidence, System, text), Counts(ExecutionEvidence, |ev.turns|)]);
      AppendCounted(ExecutionEvidence, text, |ev.turns|);
    }

    method AddEvidence(sel: Evidence.EvidenceSelection, unavailable: bool)
      requires Valid()
      modifies this`messages, this`blocks, this`index
      ensures Valid() && State() == Assemble(old(State()), EvidenceEmissions(sel, unavailable))
    {
      ghost var start := State();
      if unavailable {
        AssembleOne(start, LeavesOut(ToolEvidence, Unavailable, 1, 0));
        ExcludeN(ToolEvidence, Unavailable, 1, 0);
        return;
      }
      ghost var log := [];
      log := NoteIf(start, log, sel.failedItems > 0, FailedCall, sel.failedItems, 0);
      log := NoteIf(start, log, sel.supersededItems > 0, Superseded, sel.supersededItems, 0);
      log := NoteIf(start, log, sel.droppedItems > 0, OverBudget, sel.droppedItems, sel.droppedChars);
      log := NoteIf(start, log, sel.truncatedChars > 0, ExclusionReason.Truncated, 0, sel.truncatedChars);
      AssembleAlso(start, log, sel.items != [], Says(ToolEvidence, System, Evidence.RenderEvidenceBlock(sel.items)));
      if |sel.items| == 0 {
        return;
      }
      var text := Evidence.WriteEvidenceBlock(sel.items);
      Append(ToolEvidence, System, text);
    }

    /** One conditional exclusion of the evidence block. */
    method NoteIf(ghost start: Assembly, ghost log: seq<Emission>, when: bool, reason: ExclusionReason, count: int,
        size: int)
      returns (ghost next: seq<Emission>)
      requires Valid() && State() == Assemble(start, log)
      modifies this`blocks, this`index
      ensures next == Also(log, when, LeavesOut(ToolEvidence, reason, count, size))
      ensures Valid() && State() == Assemble(start, next)
    {
      next := Also(log, when, LeavesOut(ToolEvidence, reason, count, size));
      AssembleAlso(start, log, when, LeavesOut(ToolEvidence, reason, count, size));
      if when {
        ExcludeN(ToolEvidence, reason, count, size);
      }
    }

    method AddConversation(history: seq<Message>, current: Option<int>)
      requires Valid()
      modifies this`messages, this`blocks, this`index
      ensures Valid() && State() == Assemble(old(State()), ConversationEmissions(history, current))
    {
      ghost var start := State();
      for i := 0 to |history|
        invariant Valid() && State() == Assemble(start, ConversationEmissions(history[..i], current))
      {
        assert history[..i + 1] == history[..i] + [history[i]];
        ApplySnoc(Replaying(current), history[..i], history[i]);
        FoldSnoc(Emit, start, ConversationEmissions(history[..i], current), Replayed(history[i], current));
        var kind := History;
        if current == Some(history[i].id) {
          kind := CurrentMessage;
        }
        if history[i].content == "" {
          ExcludeN(kind, EmptyTurn, 1, 0);
        } else {
          Append(kind, history[i].role, history[i].content);
        }
      }
      assert history[..|history|] == history;
    }

    method AddResume(rc: Option<Resume.ResumeContext>)
      requires Valid()
      modifies this`messages, this`blocks, this`index
      ensures Valid() && State() == Assemble(old(State()), ResumeEmissions(rc))
    {
      if rc.None? {
        return;
      }
      var text := Resume.WriteResumeBlock(rc.value);
      AppendCounted(BlockKind.Resume, text, 1);
    }

    /** `markStablePrefix`. */
    method MarkStablePrefix()
      requires Valid()
      modifies this`messages, this`cacheBreakpointAfter
      ensures State() == Marked(old(State()))
      ensures cacheBreakpointAfter == if Markable(old(State())) then Some(Instructions) else old(cacheBreakpointAfter)
    {
      if Instructions !in index {
        return;
      }
      var i := index[Instructions];
      if blocks[i].items == 0 {
        return;
      }
      var last := blocks[i].items - 1;
      if last < 0 || last >= |messages| {
        return;
      }
      messages := messages[last := messages[last].(cacheBreakpoint := true)];
      cacheBreakpointAfter := Some(Instructions);
    }
  }

  lemma {:induction false} SamePlaces(blocks: seq<Block>, i: nat, b: Block, k: BlockKind)
    requires i < |blocks| && b.kind == blocks[i].kind
    ensures IndexOf(blocks[i := b], k) == IndexOf(blocks, k)
  {
    var n := |blocks| - 1;
    if i < n {
      assert blocks[i := b][..n] == blocks[..n][i := b];
      SamePlaces(blocks[..n], i, b, k);
    } else {
      assert blocks[i := b][..n] == blocks[..n];
    }
  }

  lemma ChangeMovesNothing(blocks: seq<Block>, i: nat, b: Block)
    requires i < |blocks| && b.kind == blocks[i].kind
    ensures forall k :: IndexOf(blocks[i := b], k) == IndexOf(blocks, k)
  {
    forall k ensures IndexOf(blocks[i := b], k) == IndexOf(blocks, k) {
      SamePlaces(blocks, i, b, k);
    }
  }

  /* ---- the cache breakpoint ---- */

  function InstructionItems(a: Assembly): int {
    var i := IndexOf(a.blocks, Instructions);
    if i < |a.blocks| then a.blocks[i].items else 0
  }

  predicate Markable(a: Assembly) {
    1 <= InstructionItems(a) <= |a.messages|
  }

  function Marked(a: Assembly): Assembly {
    if !Markable(a) then a
    else
      var last := InstructionItems(a) - 1;
      a.(messages := a.messages[last := a.messages[last].(cacheBreakpoint := true)])
  }

  /* ---- the builder ---- */

  datatype BuiltContext = BuiltContext(messages: seq<ChatMessage>, tools: seq<ToolDefinition>, report: ContextReport)

  function ModelOf(agent: Option<Agent>): string {
    if agent.None? then "" else agent.value.model
  }

  /** What a finished context is, of what was assembled. */
  predicate Finished(built: BuiltContext, a: Assembly, est: TokenEstimator, breakpoint: Option<BlockKind>) {
    && built.messages == a.messages
    && Balanced(built.report, est)
    && built.report.cacheBreakpointAfter == breakpoint
    && |built.report.blocks| == |a.blocks|
    && forall i :: 0 <= i < |a.blocks| ==>
         built.report.blocks[i] == a.blocks[i].(estimatedTokens := est.Tokens(a.blocks[i].characters))
  }

  function Composed(x: ContextInput): Assembly {
    Assemble(NOTHING, EmissionsOf(x))
  }

  /** The seven producers between the instructions and the conversation. */
  method AddMaterial(a: ContextAssembler, x: ContextInput)
    requires a.Valid()
    modifies a`messages, a`blocks, a`index
    ensures a.Valid() && a.State() == Assemble(old(a.State()), MaterialEmissions(x))
  {
    ghost var start := a.State();
    ghost var e1 := ToolEmissions(x.tools, x.declared, x.toolsWithheld);
    a.AddTools(x.tools, x.declared, x.toolsWithheld);
    ghost var e2 := e1 + ReferenceEmissions(x.subjects);
    FoldConcat(Emit, start, e1, ReferenceEmissions(x.subjects));
    a.AddContextReferences(x.subjects);
    ghost var e3 := e2 + StateEmissions(x.subjects);
    FoldConcat(Emit, start, e2, StateEmissions(x.subjects));
    a.AddReferenceState(x.subjects);
    ghost var e4 := e3 + MemoryEmissions(x.memories, x.memoryUnavailable);
    FoldConcat(Emit, start, e3, MemoryEmissions(x.memories, x.memoryUnavailable));
    a.AddMemory(x.memories, x.memoryUnavailable);
    ghost var e5 := e4 + SourceEmissions(x.sources, x.sourcesUnavailable);
    FoldConcat(Emit, start, e4, SourceEmissions(x.sources, x.sourcesUnavailable));
    a.AddSources(x.sources, x.sourcesUnavailable);
    ghost var e6 := e5 + ExecutionEmissions(x.execution, x.evidenceUnavailable);
    FoldConcat(Emit, start, e5, ExecutionEmissions(x.execution, x.evidenceUnavailable));
    a.AddExecution(x.execution, x.evidenceUnavailable);
    FoldConcat(Emit, start, e6, EvidenceEmissions(x.evidence, x.evidenceUnavailable));
    a.AddEvidence(x.evidence, x.evidenceUnavailable);
  }

  /** The producers after the instructions, in order. */
  method AddLater(a: ContextAssembler, x: ContextInput)
    requires a.Valid()
    modifies a`messages, a`blocks, a`index
    ensures a.Valid() && a.State() == Assemble(old(a.State()), Later(x))
  {
    ghost var start := a.State();
    ghost var e1 := MaterialEmissions(x);
    AddMaterial(a, x);
    ghost var e2 := e1 + ConversationEmissions(x.history, x.current);
    FoldConcat(Emit, start, e1, ConversationEmissions(x.history, x.current));
    a.AddConversation(x.history, x.current);
    FoldConcat(Emit, start, e2, ResumeEmissions(x.resume));
    a.AddResume(x.resume);
  }

  method AddEverything(a: ContextAssembler, x: ContextInput)
    requires a.Valid() && a.State() == NOTHING
    modifies a`messages, a`blocks, a`index
    ensures a.Valid() && a.State() == Composed(x)
  {
    a.AddInstructions(x.agent, |x.tools| > 0);
    AddLater(a, x);
    FoldConcat(Emit, NOTHING, First(x), Later(x));
  }

  /** The report of a finished assembly. */
  method Finish(a: ContextAssembler, tools: seq<ToolDefinition>) returns (built: BuiltContext)
    ensures built.tools == tools
    ensures Finished(built, a.State(), a.est, a.cacheBreakpointAfter)
  {
    var report := Recompute(ContextReport(a.blocks, 0, 0, a.cacheBreakpointAfter), a.est);
    built := BuiltContext(a.messages, tools, report);
  }

  /** `built` is what the builder makes of `x`. */
  predicate IsBuilt(x: ContextInput, built: BuiltContext) {
    var a := Composed(x);
    && built.tools == x.tools
    && Finished(built, if x.promptCache then Marked(a) else a, EstimatorFor(ModelOf(x.agent)),
                if x.promptCache && Markable(a) then Some(Instructions) else None)
  }

  /** `BuildContext`. */
  method BuildContext(x: ContextInput) returns (built: BuiltContext)
    ensures IsBuilt(x, built)
  {
    var a := new ContextAssembler(EstimatorFor(ModelOf(x.agent)));
    AddEverything(a, x);
    if x.promptCache {
      a.MarkStablePrefix();
    }
    built := Finish(a, x.tools);
  }
}
