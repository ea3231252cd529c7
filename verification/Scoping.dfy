/** Turning a user's selection into the capabilities one turn may declare: a selection only ever
    removes, and what is frozen of it can be replayed. */
module Scoping {
  import opened Sequences
  import opened Tools
  import opened Conversation

  const MAX_TURN_REFERENCES := 16
  const MAX_REFERENCE_LABEL := 120

  datatype ReferenceKind = ToolKind | IntegrationKind | OtherKind(text: string)

  datatype TurnReference = TurnReference(kind: ReferenceKind, id: string, title: string)

  datatype ReferenceError =
    | TooManyReferences
    | KindUnknown
    | IdRequired
    | LabelTooLong
    | SelectionNotAuthorized
    | SelectionUnknown

  /** What a selection resolves to: the tools to declare, and the references to freeze. */
  datatype Scope = Scope(tools: seq<ToolDefinition>, selected: seq<TurnReference>)

  datatype Outcome<+T> = Accepted(value: T) | Rejected(error: ReferenceError)

  /* ---- validation ---- */

  function Invalid(r: TurnReference): Option<ReferenceError> {
    if r.kind.OtherKind? then Some(KindUnknown)
    else if Trim(r.id) == "" then Some(IdRequired)
    else if |r.title| > MAX_REFERENCE_LABEL then Some(LabelTooLong)
    else None
  }

  function FirstInvalid(refs: seq<TurnReference>): Option<ReferenceError> {
    if refs == [] then None
    else
      var earlier := FirstInvalid(refs[..|refs| - 1]);
      if earlier.Some? then earlier else Invalid(refs[|refs| - 1])
  }

  function Validation(refs: seq<TurnReference>): Option<ReferenceError> {
    if |refs| > MAX_TURN_REFERENCES then Some(TooManyReferences) else FirstInvalid(refs)
  }

  /** `ValidateTurnReferences`. */
  method ValidateTurnReferences(refs: seq<TurnReference>) returns (error: Option<ReferenceError>)
    ensures error == Validation(refs)
    ensures error.None? <==> |refs| <= MAX_TURN_REFERENCES && forall i :: 0 <= i < |refs| ==> Invalid(refs[i]).None?
  {
    InvalidMeansSomeIs(refs);
    if |refs| > MAX_TURN_REFERENCES {
      return Some(TooManyReferences);
    }
    for i := 0 to |refs|
      invariant FirstInvalid(refs[..i]).None?
    {
      assert refs[..i + 1][..i] == refs[..i];
      if Invalid(refs[i]).Some? {
        FirstInvalidStays(refs, i);
        return Invalid(refs[i]);
      }
    }
    assert refs[..|refs|] == refs;
    return None;
  }

  lemma {:induction false} InvalidMeansSomeIs(refs: seq<TurnReference>)
    ensures FirstInvalid(refs).None? <==> forall i :: 0 <= i < |refs| ==> Invalid(refs[i]).None?
  {
    if refs != [] {
      var n := |refs| - 1;
      InvalidMeansSomeIs(refs[..n]);
      assert forall i :: 0 <= i < n ==> refs[..n][i] == refs[i];
    }
  }

  lemma {:induction false} FirstInvalidStays(refs: seq<TurnReference>, i: nat)
    requires i < |refs| && FirstInvalid(refs[..i]).None? && Invalid(refs[i]).Some?
    ensures FirstInvalid(refs) == Invalid(refs[i])
  {
    if i < |refs| - 1 {
      assert refs[..|refs| - 1][..i] == refs[..i];
      FirstInvalidStays(refs[..|refs| - 1], i);
    }
  }

  /* ---- the selection ---- */

  /** The reference points at this capability, by its name or by its provider. */
  predicate Names(r: TurnReference, d: ToolDefinition) {
    match r.kind
    case ToolKind => r.id == d.name
    case IntegrationKind => r.id == Namespace(d.name)
    case OtherKind(_) => false
  }

  predicate NamedByAny(refs: seq<TurnReference>, d: ToolDefinition) {
    exists i :: 0 <= i < |refs| && Names(refs[i], d)
  }

  predicate NamesSome(r: TurnReference, tools: seq<ToolDefinition>) {
    exists i :: 0 <= i < |tools| && Names(r, tools[i])
  }

  predicate Registered(registry: map<ToolName, ToolDefinition>, r: TurnReference) {
    if r.kind.ToolKind? then r.id in registry
    else exists n :: n in registry && Namespace(n) == r.id
  }

  /** Why a valid reference selects nothing, if it does. */
  function Refusal(authorized: seq<ToolDefinition>, registry: map<ToolName, ToolDefinition>, r: TurnReference):
      Option<ReferenceError>
  {
    if r.kind.OtherKind? then Some(KindUnknown)
    else if NamesSome(r, authorized) then None
    else if Registered(registry, r) then Some(SelectionNotAuthorized)
    else Some(SelectionUnknown)
  }

  function FirstRefusal(authorized: seq<ToolDefinition>, registry: map<ToolName, ToolDefinition>,
                        refs: seq<TurnReference>): Option<ReferenceError>
  {
    if refs == [] then None
    else
      var earlier := FirstRefusal(authorized, registry, refs[..|refs| - 1]);
      if earlier.Some? then earlier else Refusal(authorized, registry, refs[|refs| - 1])
  }

  function Selects(refs: seq<TurnReference>): ToolDefinition -> bool {
    (d: ToolDefinition) => NamedByAny(refs, d)
  }

  function Frozen(d: ToolDefinition): TurnReference {
    TurnReference(ToolKind, d.name, d.title)
  }

  function ScopeOf(authorized: seq<ToolDefinition>, registry: map<ToolName, ToolDefinition>, refs: seq<TurnReference>):
      Outcome<Scope>
  {
    if Validation(refs).Some? then Rejected(Validation(refs).value)
    else
      var refusal := FirstRefusal(authorized, registry, refs);
      if refusal.Some? then Rejected(refusal.value)
      else
        var tools := Keep(Selects(refs), authorized);
        Accepted(Scope(tools, Apply(Frozen, tools)))
  }

  /** `integrationTools`: the provider's capabilities among those authorized, or the reason there
      are none. */
  method IntegrationTools(authorized: seq<ToolDefinition>, registry: map<ToolName, ToolDefinition>, r: TurnReference)
    returns (names: Outcome<set<ToolName>>)
    requires r.kind.IntegrationKind?
    ensures names.Rejected? ==> Refusal(authorized, registry, r) == Some(names.error)
    ensures names.Accepted? ==>
              && Refusal(authorized, registry, r).None?
              && forall i :: 0 <= i < |authorized| ==> (authorized[i].name in names.value <==> Names(r, authorized[i]))
  {
    var out := {};
    for k := 0 to |authorized|
      invariant forall n :: n in out <==> exists i :: 0 <= i < k && authorized[i].name == n && Names(r, authorized[i])
    {
      if Namespace(authorized[k].name) == r.id {
        out := out + {authorized[k].name};
      }
    }
    if out != {} {
      var n :| n in out;
      return Accepted(out);
    }
    forall i | 0 <= i < |authorized| ensures !Names(r, authorized[i]) {
      assert authorized[i].name !in out;
    }
    if exists n :: n in registry && Namespace(n) == r.id {
      return Rejected(SelectionNotAuthorized);
    }
    return Rejected(SelectionUnknown);
  }

  /** `assertSelectableTool`. */
  method AssertSelectableTool(authorized: seq<ToolDefinition>, registry: map<ToolName, ToolDefinition>,
      r: TurnReference)
    returns (refusal: Option<ReferenceError>)
    requires r.kind.ToolKind?
    ensures refusal == Refusal(authorized, registry, r)
  {
    var def := IsAuthorized(authorized, r.id);
    if def.Some? {
      var i :| 0 <= i < |authorized| && authorized[i].name == r.id;
      assert Names(r, authorized[i]);
      return None;
    }
    if r.id in registry {
      return Some(SelectionNotAuthorized);
    }
    return Some(SelectionUnknown);
  }

  /** The set the selection builds holds the name of an authorized tool exactly when some reference
      points at it. */
  predicate IsWanted(wanted: set<ToolName>, authorized: seq<ToolDefinition>, refs: seq<TurnReference>) {
    forall i :: 0 <= i < |authorized| ==> (authorized[i].name in wanted <==> NamedByAny(refs, authorized[i]))
  }

  /** `scopeTools`. */
  method ScopeTools(authorized: seq<ToolDefinition>, registry: map<ToolName, ToolDefinition>, refs: seq<TurnReference>)
    returns (r: Outcome<Scope>)
    ensures r == ScopeOf(authorized, registry, refs)
  {
    var invalid := ValidateTurnReferences(refs);
    if invalid.Some? {
      return Rejected(invalid.value);
    }
    var wanted := {};
    for k := 0 to |refs|
      invariant Gathered(wanted, authorized, registry, refs[..k])
    {
      var names := Resolve(authorized, registry, refs[k]);
      if names.Rejected? {
        FirstRefusalStays(authorized, registry, refs, k);
        return Rejected(names.error);
      }
      GatherOne(wanted, names.value, authorized, registry, refs[..k], refs[k]);
      assert refs[..k + 1] == refs[..k] + [refs[k]];
      wanted := wanted + names.value;
    }
    assert refs[..|refs|] == refs;
    var scoped, selected := Collect(wanted, authorized, refs);
    return Accepted(Scope(scoped, selected));
  }

  /** After some references, none of them refused, the set holds what they point at. */
  predicate Gathered(wanted: set<ToolName>, authorized: seq<ToolDefinition>, registry: map<ToolName, ToolDefinition>,
                     refs: seq<TurnReference>)
  {
    FirstRefusal(authorized, registry, refs).None? && IsWanted(wanted, authorized, refs)
  }

  lemma GatherOne(wanted: set<ToolName>, more: set<ToolName>, authorized: seq<ToolDefinition>,
                  registry: map<ToolName, ToolDefinition>, refs: seq<TurnReference>, r: TurnReference)
    requires Gathered(wanted, authorized, registry, refs) && Refusal(authorized, registry, r).None?
    requires forall i :: 0 <= i < |authorized| ==> (authorized[i].name in more <==> Names(r, authorized[i]))
    ensures Gathered(wanted + more, authorized, registry, refs + [r])
  {
    WantedGrows(wanted, more, authorized, refs, r);
    assert (refs + [r])[..|refs|] == refs;
  }

  /** The body of the first loop: one reference, as the names it selects. */
  method Resolve(authorized: seq<ToolDefinition>, registry: map<ToolName, ToolDefinition>, r: TurnReference)
    returns (names: Outcome<set<ToolName>>)
    ensures names.Rejected? ==> Refusal(authorized, registry, r) == Some(names.error)
    ensures names.Accepted? ==>
              && Refusal(authorized, registry, r).None?
              && forall i :: 0 <= i < |authorized| ==> (authorized[i].name in names.value <==> Names(r, authorized[i]))
  {
    match r.kind {
      case ToolKind =>
        var refusal := AssertSelectableTool(authorized, registry, r);
        if refusal.Some? {
          return Rejected(refusal.value);
        }
        return Accepted({r.id});
      case IntegrationKind =>
        names := IntegrationTools(authorized, registry, r);
      case OtherKind(_) =>
        return Rejected(KindUnknown);
    }
  }

  /** The second loop: the authorized tools that are wanted, in the order they were authorized. */
  method Collect(wanted: set<ToolName>, authorized: seq<ToolDefinition>, refs: seq<TurnReference>)
    returns (scoped: seq<ToolDefinition>, selected: seq<TurnReference>)
    requires IsWanted(wanted, authorized, refs)
    ensures scoped == Keep(Selects(refs), authorized) && selected == Apply(Frozen, scoped)
  {
    scoped, selected := [], [];
    for k := 0 to |authorized|
      invariant scoped == Keep(Selects(refs), authorized[..k]) && selected == Apply(Frozen, scoped)
    {
      assert authorized[..k + 1][..k] == authorized[..k];
      if authorized[k].name in wanted {
        ApplySnoc(Frozen, scoped, authorized[k]);
        scoped := scoped + [authorized[k]];
        selected := selected + [TurnReference(ToolKind, authorized[k].name, authorized[k].title)];
      }
    }
    assert authorized[..|authorized|] == authorized;
  }

  lemma NamedByMore(refs: seq<TurnReference>, r: TurnReference, d: ToolDefinition)
    ensures NamedByAny(refs + [r], d) <==> NamedByAny(refs, d) || Names(r, d)
  {
    var all := refs + [r];
    if NamedByAny(refs, d) {
      var i :| 0 <= i < |refs| && Names(refs[i], d);
      assert Names(all[i], d);
    }
    if Names(r, d) {
      assert Names(all[|refs|], d);
    }
  }

  lemma WantedGrows(wanted: set<ToolName>, more: set<ToolName>, authorized: seq<ToolDefinition>,
                    refs: seq<TurnReference>, r: TurnReference)
    requires IsWanted(wanted, authorized, refs)
    requires forall i :: 0 <= i < |authorized| ==> (authorized[i].name in more <==> Names(r, authorized[i]))
    ensures IsWanted(wanted + more, authorized, refs + [r])
  {
    forall i | 0 <= i < |authorized|
      ensures authorized[i].name in wanted + more <==> NamedByAny(refs + [r], authorized[i])
    {
      NamedByMore(refs, r, authorized[i]);
    }
  }

  lemma {:induction false} FirstRefusalStays(
      authorized: seq<ToolDefinition>, registry: map<ToolName, ToolDefinition>, refs: seq<TurnReference>, k: nat)
    requires k < |refs| && FirstRefusal(authorized, registry, refs[..k]).None?
    requires Refusal(authorized, registry, refs[k]).Some?
    ensures FirstRefusal(authorized, registry, refs) == Refusal(authorized, registry, refs[k])
  {
    if k < |refs| - 1 {
      assert refs[..|refs| - 1][..k] == refs[..k];
      FirstRefusalStays(authorized, registry, refs[..|refs| - 1], k);
    }
  }

  /* ---- what it means ---- */

  lemma {:induction false} NoneRefused(authorized: seq<ToolDefinition>, registry: map<ToolName, ToolDefinition>,
      refs: seq<TurnReference>)
    ensures FirstRefusal(authorized, registry, refs).None? <==>
            forall i :: 0 <= i < |refs| ==> Refusal(authorized, registry, refs[i]).None?
  {
    if refs != [] {
      var n := |refs| - 1;
      NoneRefused(authorized, registry, refs[..n]);
      assert forall i :: 0 <= i < n ==> refs[..n][i] == refs[i];
    }
  }

  /** When a selection is accepted: it is well formed, and every reference in it points at something
      the agent may already use. The registry has no part in it. */
  lemma AcceptedExactlyWhenGranted(authorized: seq<ToolDefinition>, registry: map<ToolName, ToolDefinition>,
      refs: seq<TurnReference>)
    ensures ScopeOf(authorized, registry, refs).Accepted? <==>
            && |refs| <= MAX_TURN_REFERENCES
            && (forall i :: 0 <= i < |refs| ==> Invalid(refs[i]).None?)
            && (forall i :: 0 <= i < |refs| ==> NamesSome(refs[i], authorized))
  {
    InvalidMeansSomeIs(refs);
    NoneRefused(authorized, registry, refs);
    if forall i :: 0 <= i < |refs| ==> Refusal(authorized, registry, refs[i]).None? {
      forall i | 0 <= i < |refs| ensures NamesSome(refs[i], authorized) {
        assert Refusal(authorized, registry, refs[i]).None?;
      }
    }
    forall i | 0 <= i < |refs| && Invalid(refs[i]).None? && NamesSome(refs[i], authorized)
      ensures Refusal(authorized, registry, refs[i]).None?
    {
    }
  }

  /** What an accepted selection declares: exactly the authorized tools it points at, in the order
      they were authorized, and at least one of them once it says anything. */
  lemma ScopeOnlyNarrows(authorized: seq<ToolDefinition>, registry: map<ToolName, ToolDefinition>,
      refs: seq<TurnReference>)
    requires ScopeOf(authorized, registry, refs).Accepted?
    ensures var scope := ScopeOf(authorized, registry, refs).value;
            && Subsequence(scope.tools, authorized)
            && (forall d :: d in scope.tools <==> d in authorized && NamedByAny(refs, d))
            && (refs != [] ==> scope.tools != [])
            && scope.selected == Apply(Frozen, scope.tools)
  {
    KeepIsSubsequence(Selects(refs), authorized);
    KeepSound(Selects(refs), authorized);
    AcceptedExactlyWhenGranted(authorized, registry, refs);
    if refs != [] {
      assert NamesSome(refs[0], authorized);
      var i :| 0 <= i < |authorized| && Names(refs[0], authorized[i]);
      assert NamedByAny(refs, authorized[i]);
      assert authorized[i] in Keep(Selects(refs), authorized);
    }
  }

  lemma {:induction false} KeepMonotone<T>(p: T -> bool, q: T -> bool, s: seq<T>)
    requires forall x :: x in s && p(x) ==> q(x)
    ensures Subsequence(Keep(p, s), Keep(q, s))
  {
    if s != [] {
      var init, last := s[..|s| - 1], s[|s| - 1];
      KeepMonotone(p, q, init);
      assert last in s;
    }
  }

  /** Saying more never declares less. */
  lemma MoreReferencesNeverShrink(authorized: seq<ToolDefinition>, registry: map<ToolName, ToolDefinition>,
                                  refs: seq<TurnReference>, more: seq<TurnReference>)
    requires ScopeOf(authorized, registry, refs).Accepted? && ScopeOf(authorized, registry, more).Accepted?
    requires forall r :: r in refs ==> r in more
    ensures Subsequence(ScopeOf(authorized, registry, refs).value.tools,
                        ScopeOf(authorized, registry, more).value.tools)
  {
    forall d | d in authorized && NamedByAny(refs, d) ensures NamedByAny(more, d) {
      var i :| 0 <= i < |refs| && Names(refs[i], d);
      assert refs[i] in more;
      var k :| 0 <= k < |more| && more[k] == refs[i];
      assert Names(more[k], d);
    }
    KeepMonotone(Selects(refs), Selects(more), authorized);
  }

  /** The frozen form of a tool is a valid reference. */
  predicate Keepable(d: ToolDefinition) {
    Trim(d.name) != "" && |d.title| <= MAX_REFERENCE_LABEL
  }

  predicate AllKeepable(tools: seq<ToolDefinition>) {
    tools == [] || (AllKeepable(tools[..|tools| - 1]) && Keepable(tools[|tools| - 1]))
  }

  lemma {:induction false} FrozenAreValid(tools: seq<ToolDefinition>)
    ensures FirstInvalid(Apply(Frozen, tools)).None? <==> AllKeepable(tools)
  {
    if tools != [] {
      FrozenAreValid(tools[..|tools| - 1]);
      assert Apply(Frozen, tools)[..|tools| - 1] == Apply(Frozen, tools[..|tools| - 1]);
    }
  }

  /** What the frozen record selects is what was selected. */
  lemma FrozenSelectsTheSame(authorized: seq<ToolDefinition>, refs: seq<TurnReference>)
    ensures var tools := Keep(Selects(refs), authorized);
            && Keep(Selects(Apply(Frozen, tools)), authorized) == tools
            && forall i :: 0 <= i < |tools| ==> NamesSome(Apply(Frozen, tools)[i], authorized)
  {
    var tools := Keep(Selects(refs), authorized);
    var frozen := Apply(Frozen, tools);
    KeepSound(Selects(refs), authorized);
    forall d | d in authorized ensures Selects(frozen)(d) == Selects(refs)(d) {
      if i :| 0 <= i < |tools| && tools[i].name == d.name {
        assert tools[i] in tools;
      }
      if NamedByAny(refs, d) {
        assert d in tools;
        var i :| 0 <= i < |tools| && tools[i] == d;
      }
    }
    KeepSame(Selects(frozen), Selects(refs), authorized);
    forall i | 0 <= i < |tools| ensures NamesSome(frozen[i], authorized) {
      assert tools[i] in tools;
      var k :| 0 <= k < |authorized| && authorized[k] == tools[i];
      assert Names(frozen[i], authorized[k]);
    }
  }

  /** Feeding the frozen record back gives the same scope and the same record, if and only if the
      record is one a message may carry: at most sixteen entries, each with a name and a label that
      fits. */
  lemma RecordReplaysIff(authorized: seq<ToolDefinition>, registry: map<ToolName, ToolDefinition>,
      refs: seq<TurnReference>)
    requires ScopeOf(authorized, registry, refs).Accepted?
    ensures var scope := ScopeOf(authorized, registry, refs).value;
            ScopeOf(authorized, registry, scope.selected) == Accepted(scope) <==>
            |scope.tools| <= MAX_TURN_REFERENCES && AllKeepable(scope.tools)
  {
    var scope := ScopeOf(authorized, registry, refs).value;
    FrozenAreValid(scope.tools);
    FrozenSelectsTheSame(authorized, refs);
    AcceptedExactlyWhenGranted(authorized, registry, scope.selected);
    InvalidMeansSomeIs(scope.selected);
  }

  /** The record of an accepted selection may be carried by a message if and only if it has at most
      sixteen entries, each with a name and a label that fits. */
  lemma RecordFitsIff(authorized: seq<ToolDefinition>, registry: map<ToolName, ToolDefinition>,
      refs: seq<TurnReference>)
    requires ScopeOf(authorized, registry, refs).Accepted?
    ensures var scope := ScopeOf(authorized, registry, refs).value;
            Validation(scope.selected).None? <==> |scope.tools| <= MAX_TURN_REFERENCES && AllKeepable(scope.tools)
  {
    FrozenAreValid(ScopeOf(authorized, registry, refs).value.tools);
  }

  /** Where the ceiling is narrower than the selection. One reference to a provider is accepted, and
      the message that would carry its expansion refused for its length, exactly when the agent holds
      more than sixteen capabilities of that provider; it may be carried exactly when there are no
      more than sixteen and each can be kept. */
  lemma GroupOverflowsIff(authorized: seq<ToolDefinition>, registry: map<ToolName, ToolDefinition>, r: TurnReference)
    requires r.kind.IntegrationKind? && Invalid(r).None? && NamesSome(r, authorized)
    ensures ScopeOf(authorized, registry, [r]).Accepted?
    ensures var scope, group := ScopeOf(authorized, registry, [r]).value, Keep(Selects([r]), authorized);
            && (Validation(scope.selected) == Some(TooManyReferences) <==> |group| > MAX_TURN_REFERENCES)
            && (Validation(scope.selected).None? <==> |group| <= MAX_TURN_REFERENCES && AllKeepable(group))
  {
    AcceptedExactlyWhenGranted(authorized, registry, [r]);
    RecordFitsIff(authorized, registry, [r]);
    NoOtherErrorIsTooMany(ScopeOf(authorized, registry, [r]).value.selected);
  }

  /** Capabilities of one provider, told apart by a letter. */
  function OfOneProvider(base: ToolDefinition, i: nat): ToolDefinition
    requires i < 26
  {
    base.(name := "p." + [('a' as int + i) as char])
  }

  function Seventeen(base: ToolDefinition): seq<ToolDefinition> {
    seq(17, i requires 0 <= i < 17 => OfOneProvider(base, i))
  }

  /** The witness: an agent with seventeen capabilities of one provider cannot send the message that
      selects that provider. */
  lemma SeventeenOverflow(base: ToolDefinition, registry: map<ToolName, ToolDefinition>)
    ensures var r := TurnReference(IntegrationKind, "p", "");
            var outcome := ScopeOf(Seventeen(base), registry, [r]);
            outcome.Accepted? && Validation(outcome.value.selected) == Some(TooManyReferences)
  {
    var r, authorized := TurnReference(IntegrationKind, "p", ""), Seventeen(base);
    forall d | d in authorized ensures Selects([r])(d) {
      var i :| 0 <= i < 17 && d == OfOneProvider(base, i);
      assert NamespaceTo(d.name, 1) == d.name[..1] == "p";
      assert Names([r][0], d);
    }
    KeepAll(Selects([r]), authorized);
    assert authorized[0] in authorized && Names(r, authorized[0]);
    assert Trim("p") == "p";
    GroupOverflowsIff(authorized, registry, r);
  }

  lemma {:induction false} NoOtherErrorIsTooMany(refs: seq<TurnReference>)
    ensures FirstInvalid(refs) != Some(TooManyReferences)
  {
    if refs != [] {
      NoOtherErrorIsTooMany(refs[..|refs| - 1]);
    }
  }
}
