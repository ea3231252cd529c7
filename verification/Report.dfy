/** The wire message and the account of what a turn carried: blocks, exclusions and totals. */
module Report {
  import opened Sequences
  import opened Estimator
  import opened Tools

  /** `ToolRole` is the provider protocol's role for a tool result; nothing with it is stored. */
  datatype Role = System | User | Assistant | ToolRole

  datatype ChatMessage = ChatMessage(
    role: Role,
    content: string,
    toolCalls: seq<ToolCall>,
    toolCallId: string,
    cacheBreakpoint: bool)

  function Plain(role: Role, content: string): ChatMessage {
    ChatMessage(role, content, [], "", false)
  }

  function CallCharacters(c: ToolCall): int {
    |c.id| + |c.name| + |c.arguments|
  }

  /** What one message costs on the wire: its text and, for an assistant ask, the ids, names and
      arguments of its calls. */
  function MessageCharacters(m: ChatMessage): int {
    |m.content| + SumBy(CallCharacters, m.toolCalls)
  }

  datatype BlockKind =
    | Instructions
    | ToolDeclarations
    | ContextReferences
    | ReferenceState
    | Memory
    | Sources
    | ExecutionEvidence
    | ToolEvidence
    | History
    | CurrentMessage
    | Resume
    | ToolResults

  datatype ExclusionReason =
    | Unavailable
    | OverBudget
    | TooLarge
    | EmptyTurn
    | NotSelected
    | Truncated
    | Superseded
    | FailedCall
    | Unauthorized

  datatype Exclusion = Exclusion(reason: ExclusionReason, items: int, characters: int)

  datatype Block = Block(
    kind: BlockKind,
    items: int,
    characters: int,
    estimatedTokens: int,
    exclusions: seq<Exclusion>)

  datatype ContextReport = ContextReport(
    blocks: seq<Block>,
    totalCharacters: int,
    totalEstimatedTokens: int,
    cacheBreakpointAfter: Option<BlockKind>)

  function CharactersOf(b: Block): int { b.characters }
  function TokensOf(b: Block): int { b.estimatedTokens }

  /** The characters a block put into the message list: all of them, except for the tool
      declaration, which travels beside the list. */
  function WireCharactersOf(b: Block): int {
    if b.kind.ToolDeclarations? then 0 else b.characters
  }

  /** Every block estimated from its own characters, every total the sum over the blocks. */
  predicate Balanced(r: ContextReport, est: TokenEstimator) {
    && (forall i :: 0 <= i < |r.blocks| ==> r.blocks[i].estimatedTokens == est.Tokens(r.blocks[i].characters))
    && r.totalCharacters == SumBy(CharactersOf, r.blocks)
    && r.totalEstimatedTokens == SumBy(TokensOf, r.blocks)
  }

  /** `finish`'s last pass, shared with `addToBlock`: estimates and totals recomputed from the
      blocks rather than incremented. */
  method Recompute(r: ContextReport, est: TokenEstimator) returns (out: ContextReport)
    ensures Balanced(out, est)
    ensures out.cacheBreakpointAfter == r.cacheBreakpointAfter
    ensures |out.blocks| == |r.blocks|
    ensures forall i :: 0 <= i < |r.blocks| ==>
              out.blocks[i] == r.blocks[i].(estimatedTokens := est.Tokens(r.blocks[i].characters))
  {
    var blocks, characters, tokens := [], 0, 0;
    for i := 0 to |r.blocks|
      invariant |blocks| == i
      invariant forall k :: 0 <= k < i ==>
                  blocks[k] == r.blocks[k].(estimatedTokens := est.Tokens(r.blocks[k].characters))
      invariant characters == SumBy(CharactersOf, blocks) && tokens == SumBy(TokensOf, blocks)
    {
      var b := r.blocks[i].(estimatedTokens := est.Tokens(r.blocks[i].characters));
      ghost var before := blocks;
      blocks := blocks + [b];
      assert blocks[..|before|] == before;
      characters, tokens := characters + b.characters, tokens + b.estimatedTokens;
    }
    out := r.(blocks := blocks, totalCharacters := characters, totalEstimatedTokens := tokens);
  }

  /** The position of the first block of a kind, or the end when there is none. */
  function IndexOf(blocks: seq<Block>, kind: BlockKind): (i: nat)
    ensures i <= |blocks| && (i < |blocks| ==> blocks[i].kind == kind)
  {
    if blocks == [] then 0
    else
      var n := |blocks| - 1;
      var i := IndexOf(blocks[..n], kind);
      if i < n then i else if blocks[n].kind == kind then n else n + 1
  }

  lemma {:induction false} FirstOfKind(blocks: seq<Block>, kind: BlockKind, i: nat)
    requires i < |blocks| && blocks[i].kind == kind && IndexOf(blocks[..i], kind) == i
    ensures IndexOf(blocks, kind) == i
  {
    var n := |blocks| - 1;
    if i < n {
      assert blocks[..n][..i] == blocks[..i];
      FirstOfKind(blocks[..n], kind, i);
    }
  }

  /** The search of that block, from the left. */
  method FindKind(blocks: seq<Block>, kind: BlockKind) returns (i: nat)
    ensures i == IndexOf(blocks, kind)
  {
    i := 0;
    while i < |blocks| && blocks[i].kind != kind
      invariant i <= |blocks| && IndexOf(blocks[..i], kind) == i
    {
      assert blocks[..i + 1][..i] == blocks[..i];
      i := i + 1;
    }
    if i < |blocks| {
      FirstOfKind(blocks, kind, i);
    } else {
      assert blocks[..i] == blocks;
    }
  }

  /** The block of that kind grows, or is appended; no other block moves. */
  function Grow(blocks: seq<Block>, kind: BlockKind, items: int, characters: int): seq<Block> {
    var i := IndexOf(blocks, kind);
    if i < |blocks| then
      blocks[i := blocks[i].(items := blocks[i].items + items, characters := blocks[i].characters + characters)]
    else
      blocks + [Block(kind, items, characters, 0, [])]
  }

  /** What the report says reached the message list grows by exactly what was added. */
  lemma GrowthIsCounted(blocks: seq<Block>, kind: BlockKind, items: int, characters: int)
    requires !kind.ToolDeclarations?
    ensures SumBy(WireCharactersOf, Grow(blocks, kind, items, characters))
            == SumBy(WireCharactersOf, blocks) + characters
  {
    var i := IndexOf(blocks, kind);
    var grown := Grow(blocks, kind, items, characters);
    if i < |blocks| {
      SumAfterUpdate(WireCharactersOf, blocks, i, grown[i]);
    } else {
      assert grown[..|blocks|] == blocks;
    }
  }

  /** `out` is `r` with one block grown and everything re-estimated and re-summed. */
  predicate Extended(out: ContextReport, r: ContextReport, est: TokenEstimator,
                     kind: BlockKind, items: int, characters: int)
  {
    var grown := Grow(r.blocks, kind, items, characters);
    && Balanced(out, est)
    && out.cacheBreakpointAfter == r.cacheBreakpointAfter
    && |out.blocks| == |grown|
    && forall i :: 0 <= i < |grown| ==>
         out.blocks[i] == grown[i].(estimatedTokens := est.Tokens(grown[i].characters))
  }

  method GrowBlock(blocks: seq<Block>, kind: BlockKind, items: int, characters: int) returns (grown: seq<Block>)
    ensures grown == Grow(blocks, kind, items, characters)
  {
    var i := FindKind(blocks, kind);
    if i < |blocks| {
      grown := blocks[i := blocks[i].(items := blocks[i].items + items,
                                      characters := blocks[i].characters + characters)];
    } else {
      grown := blocks + [Block(kind, items, characters, 0, [])];
    }
  }

  /** `addToBlock`: content that reached the model after the builder ran. The report stays
      balanced and accounts for all of it. */
  method AddToBlock(r: ContextReport, est: TokenEstimator, kind: BlockKind, items: int, characters: int)
    returns (out: ContextReport)
    requires !kind.ToolDeclarations?
    ensures Extended(out, r, est, kind, items, characters)
    ensures SumBy(WireCharactersOf, out.blocks) == SumBy(WireCharactersOf, r.blocks) + characters
  {
    var blocks := GrowBlock(r.blocks, kind, items, characters);
    GrowthIsCounted(r.blocks, kind, items, characters);
    out := Recompute(r.(blocks := blocks), est);
    SameCharacters(blocks, out.blocks);
  }

  lemma {:induction false} SameCharacters(a: seq<Block>, b: seq<Block>)
    requires |a| == |b|
    requires forall i :: 0 <= i < |a| ==> a[i].kind == b[i].kind && a[i].characters == b[i].characters
    ensures SumBy(WireCharactersOf, a) == SumBy(WireCharactersOf, b)
  {
    if a != [] {
      SameCharacters(a[..|a| - 1], b[..|b| - 1]);
    }
  }
}
