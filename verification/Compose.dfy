/** The server replaying a client's choice of pieces: `compose` drives a composition one piece at
    a time, and what comes out is, slot by slot, a first-in first-out queue. */
module Compose {
  import opened Sequences
  import opened Composition
  import opened CompositionProperties

  datatype Category =
    | Tops
    | Bottoms
    | Layers
    | Footwear
    | Watches
    | Accessories
    | UnknownCategory(name: string)

  /** The slot a category fills, looked up in the catalog. */
  function SlotOf(c: Category): Option<Slot> {
    match c
    case Tops => Some(Top)
    case Bottoms => Some(Bottom)
    case Layers => Some(Layer)
    case Footwear => Some(Shoes)
    case Watches => Some(Watch)
    case Accessories => Some(Accessory)
    case UnknownCategory(_) => None
  }

  datatype ClosetItem = ClosetItem(category: Category, archived: bool)

  datatype ComposeError = TooManyPieces(max: nat) | NoSuchPiece(id: int) | PieceArchived(id: int) | FillsNoSlot(id: int)

  datatype Result<+T> = Success(value: T) | Failure(error: ComposeError)

  const SLOT_ORDER: seq<Slot> := [Layer, Top, Bottom, Shoes, Watch, Accessory]

  /** The sum of every slot's capacity, computed rather than typed. */
  method MaxLookItems() returns (total: nat)
    ensures total == 9
  {
    total := 0;
    var sums := [0, 1, 2, 3, 4, 5, 9];
    for i := 0 to |SLOT_ORDER|
      invariant total == sums[i]
    {
      total := total + Capacity(SLOT_ORDER[i]).value;
    }
  }

  const MAX_LOOK_ITEMS := 9

  /** Why one piece cannot be put into a look, if it cannot. */
  function Refusal(closet: map<int, ClosetItem>, id: int): Option<ComposeError> {
    if id !in closet then Some(NoSuchPiece(id))
    else if closet[id].archived then Some(PieceArchived(id))
    else if SlotOf(closet[id].category).None? then Some(FillsNoSlot(id))
    else None
  }

  function FirstRefusal(closet: map<int, ClosetItem>, ids: seq<int>): Option<ComposeError> {
    if ids == [] then None
    else
      var earlier := FirstRefusal(closet, ids[..|ids| - 1]);
      if earlier.Some? then earlier else Refusal(closet, ids[|ids| - 1])
  }

  /** Every piece can be used. */
  predicate Usable(closet: map<int, ClosetItem>, ids: seq<int>) {
    FirstRefusal(closet, ids).None?
  }

  /** Nothing is refused exactly when no single piece is. */
  lemma {:induction false} UsableMeansEachIs(closet: map<int, ClosetItem>, ids: seq<int>)
    ensures Usable(closet, ids) <==> forall i :: 0 <= i < |ids| ==> Refusal(closet, ids[i]).None?
  {
    if ids != [] {
      var n := |ids| - 1;
      UsableMeansEachIs(closet, ids[..n]);
      assert forall i :: 0 <= i < n ==> ids[..n][i] == ids[i];
    }
  }

  function SlotOfId(closet: map<int, ClosetItem>, id: int): Slot
    requires Refusal(closet, id).None?
  {
    SlotOf(closet[id].category).value
  }

  /** A look under composition, and the instant the next piece will be placed at. */
  datatype Look = Look(items: seq<LookItem>, clock: int)

  /** One piece put where its category says; one that cannot be used changes nothing. */
  function PutOn(closet: map<int, ClosetItem>, look: Look, id: int): Look {
    if Refusal(closet, id).Some? then look
    else
      var slot := SlotOfId(closet, id);
      Look(PlaceIn(look.items, slot, Capacity(slot).value, id, look.clock).items, look.clock + 1)
  }

  function Putter(closet: map<int, ClosetItem>): (Look, int) -> Look {
    (look, id) => PutOn(closet, look, id)
  }

  /** The look after placing ids in order, each one instant after the other. */
  function Composed(closet: map<int, ClosetItem>, ids: seq<int>, now: int): Look {
    Fold(Putter(closet), Look([], now), ids)
  }

  /** `compose`: nothing is composed when a piece is refused, and the first one refused decides
      the answer. */
  method ComposeLook(closet: map<int, ClosetItem>, ids: seq<int>, now: int) returns (r: Result<seq<LookItem>>)
    ensures |ids| > MAX_LOOK_ITEMS ==> r == Failure(TooManyPieces(MAX_LOOK_ITEMS))
    ensures |ids| <= MAX_LOOK_ITEMS && FirstRefusal(closet, ids).Some? ==>
              r == Failure(FirstRefusal(closet, ids).value)
    ensures |ids| <= MAX_LOOK_ITEMS && Usable(closet, ids) ==> r == Success(Composed(closet, ids, now).items)
  {
    if |ids| == 0 {
      return Success([]);
    }
    var max := MaxLookItems();
    if |ids| > max {
      return Failure(TooManyPieces(max));
    }
    var composition := new Composition([]);
    ghost var look := Look([], now);
    for offset := 0 to |ids|
      invariant Usable(closet, ids[..offset])
      invariant look == Composed(closet, ids[..offset], now)
      invariant composition.items == look.items && look.clock == now + offset
    {
      assert ids[..offset + 1] == ids[..offset] + [ids[offset]];
      if Refusal(closet, ids[offset]).Some? {
        RefusalStays(closet, ids, offset);
        return Failure(Refusal(closet, ids[offset]).value);
      }
      FoldSnoc(Putter(closet), Look([], now), ids[..offset], ids[offset]);
      look := PutPiece(closet, composition, ids[offset], now + offset, look);
    }
    assert ids[..|ids|] == ids;
    return Success(composition.items);
  }

  method PutPiece(closet: map<int, ClosetItem>, composition: Composition, id: int, at: int, ghost look: Look)
    returns (ghost next: Look)
    requires Refusal(closet, id).None? && composition.items == look.items && at == look.clock
    modifies composition
    ensures next == Putter(closet)(look, id)
    ensures composition.items == next.items && next.clock == look.clock + 1
  {
    var slot := SlotOfId(closet, id);
    var replaced := composition.Place(slot, id, at);
    PutOnIsPlace(closet, look, id, slot, Capacity(slot).value, Placement(composition.items, replaced.value));
    next := PutOn(closet, look, id);
  }

  lemma PutOnIsPlace(closet: map<int, ClosetItem>, look: Look, id: int, slot: Slot, capacity: nat, placed: Placement)
    requires Refusal(closet, id).None? && slot == SlotOfId(closet, id) && Capacity(slot) == Some(capacity)
    requires capacity >= 1 && placed == PlaceIn(look.items, slot, capacity, id, look.clock)
    ensures PutOn(closet, look, id) == Look(placed.items, look.clock + 1)
  {
  }

  /** Once a piece is refused, what follows it does not matter. */
  lemma {:induction false} RefusalStays(closet: map<int, ClosetItem>, ids: seq<int>, n: nat)
    requires n < |ids| && FirstRefusal(closet, ids[..n]).None? && Refusal(closet, ids[n]).Some?
    ensures FirstRefusal(closet, ids) == Refusal(closet, ids[n])
  {
    if n < |ids| - 1 {
      assert ids[..|ids| - 1][..n] == ids[..n];
      RefusalStays(closet, ids[..|ids| - 1], n);
    }
  }

  /* ---- the queue it refines ---- */

  /** One step of a bounded queue: a piece already in it changes nothing; a full queue drops from
      the front; the new piece goes to the back. */
  function Enqueue(queue: seq<int>, capacity: nat, id: int): seq<int>
    requires capacity >= 1
  {
    if id in queue then queue
    else (if |queue| >= capacity then queue[|queue| - capacity + 1..] else queue) + [id]
  }

  function Fifo(ids: seq<int>, capacity: nat): seq<int>
    requires capacity >= 1
  {
    if ids == [] then [] else Enqueue(Fifo(ids[..|ids| - 1], capacity), capacity, ids[|ids| - 1])
  }

  function IdsForSlot(closet: map<int, ClosetItem>, ids: seq<int>, slot: Slot): seq<int> {
    if ids == [] then []
    else
      var earlier, id := IdsForSlot(closet, ids[..|ids| - 1], slot), ids[|ids| - 1];
      if Refusal(closet, id).None? && SlotOfId(closet, id) == slot then earlier + [id] else earlier
  }

  function IdOf(x: LookItem): int { x.itemId }

  function IdsOf(items: seq<LookItem>): seq<int> {
    Apply(IdOf, items)
  }

  lemma IdsSnoc(items: seq<LookItem>, x: LookItem)
    ensures IdsOf(items + [x]) == IdsOf(items) + [x.itemId]
  {
    assert (items + [x])[..|items|] == items;
  }

  lemma IdsDrop(items: seq<LookItem>, n: nat)
    requires n <= |items|
    ensures IdsOf(items[n..]) == IdsOf(items)[n..]
  {
  }

  /* ---- a list filed by category ---- */

  predicate FiledEntry(closet: map<int, ClosetItem>, x: LookItem, before: int) {
    Refusal(closet, x.itemId).None? && x.slot == SlotOfId(closet, x.itemId) && x.createdAt < before
  }

  /** Every entry filed where its category says, before a given moment. */
  predicate Filed(closet: map<int, ClosetItem>, items: seq<LookItem>, before: int) {
    items == [] ||
    (Filed(closet, items[..|items| - 1], before) && FiledEntry(closet, items[|items| - 1], before))
  }

  lemma {:induction false} FiledAt(closet: map<int, ClosetItem>, items: seq<LookItem>, before: int, i: nat)
    requires Filed(closet, items, before) && i < |items|
    ensures FiledEntry(closet, items[i], before)
  {
    if i < |items| - 1 {
      FiledAt(closet, items[..|items| - 1], before, i);
    }
  }

  lemma {:induction false} FiledLater(closet: map<int, ClosetItem>, items: seq<LookItem>, before: int)
    requires Filed(closet, items, before)
    ensures Filed(closet, items, before + 1)
  {
    if items != [] {
      FiledLater(closet, items[..|items| - 1], before);
    }
  }

  lemma {:induction false} FiledRemoveAt(closet: map<int, ClosetItem>, items: seq<LookItem>, before: int, i: nat)
    requires Filed(closet, items, before) && i < |items|
    ensures Filed(closet, RemoveAt(items, i), before)
  {
    var n := |items| - 1;
    if i < n {
      FiledRemoveAt(closet, items[..n], before, i);
      assert RemoveAt(items, i)[..n - 1] == RemoveAt(items[..n], i);
    }
  }

  lemma {:induction false} FiledEvicted(closet: map<int, ClosetItem>, items: seq<LookItem>, victims: seq<LookItem>,
      before: int)
    requires Filed(closet, items, before)
    ensures Filed(closet, WithoutEntries(items, victims), before)
  {
    if victims != [] {
      var rest, v := WithoutEntries(items, victims[..|victims| - 1]), victims[|victims| - 1];
      FiledEvicted(closet, items, victims[..|victims| - 1], before);
      if IndexOfEntry(rest, v) < |rest| {
        FiledRemoveAt(closet, rest, before, IndexOfEntry(rest, v));
      }
    }
  }

  lemma {:induction false} FiledInsert(closet: map<int, ClosetItem>, items: seq<LookItem>, x: LookItem, before: int)
    requires Filed(closet, items, before) && FiledEntry(closet, x, before)
    ensures Filed(closet, Insert(items, x), before)
  {
    var r := Insert(items, x);
    if items == [] || !Precedes(x, items[|items| - 1]) {
      assert r[..|items|] == items;
    } else {
      FiledInsert(closet, items[..|items| - 1], x, before);
      assert r[..|r| - 1] == Insert(items[..|items| - 1], x);
    }
  }

  lemma {:induction false} FiledRenumber(closet: map<int, ClosetItem>, items: seq<LookItem>, slot: Slot, before: int)
    requires Filed(closet, items, before)
    ensures Filed(closet, Renumber(items, slot), before)
  {
    if items != [] {
      var r := Renumber(items, slot);
      FiledRenumber(closet, items[..|items| - 1], slot, before);
      assert r[..|r| - 1] == Renumber(items[..|items| - 1], slot);
    }
  }

  /** In a filed list a piece is present exactly when its own slot has it. */
  lemma {:induction false} PresentInItsSlot(closet: map<int, ClosetItem>, items: seq<LookItem>, before: int, id: int)
    requires Filed(closet, items, before) && Refusal(closet, id).None?
    ensures id in IdsOf(InSlot(items, SlotOfId(closet, id))) <==> id in IdSet(items)
  {
    if items != [] {
      var init, last := items[..|items| - 1], items[|items| - 1];
      PresentInItsSlot(closet, init, before, id);
      IdsSnoc(InSlot(init, SlotOfId(closet, id)), last);
    }
  }

  lemma PresentMeansAlreadyThere(closet: map<int, ClosetItem>, items: seq<LookItem>, before: int, id: int)
    requires Filed(closet, items, before) && Refusal(closet, id).None?
    ensures AlreadyThere(items, SlotOfId(closet, id), id) <==> id in IdSet(items)
  {
    FoundMeansPresent(items, id);
    if IndexOfId(items, id) < |items| {
      FiledAt(closet, items, before, IndexOfId(items, id));
    }
  }

  /** A piece placed later than everything there goes to the back of its slot. */
  lemma {:induction false} LatestInserted(closet: map<int, ClosetItem>, kept: seq<LookItem>, x: LookItem)
    requires Filed(closet, kept, x.createdAt)
    ensures InSlot(Insert(kept, x), x.slot) == InSlot(kept, x.slot) + [x]
  {
    var r := Insert(kept, x);
    if kept == [] || !Precedes(x, kept[|kept| - 1]) {
      assert r[..|kept|] == kept;
    } else {
      LatestInserted(closet, kept[..|kept| - 1], x);
      assert r[..|r| - 1] == Insert(kept[..|kept| - 1], x);
    }
  }

  lemma {:induction false} FromZeroIds(items: seq<LookItem>)
    ensures IdsOf(FromZero(items)) == IdsOf(items)
  {
    FromZeroAt(items);
  }

  lemma LatestGoesLast(closet: map<int, ClosetItem>, kept: seq<LookItem>, x: LookItem)
    requires Ordered(kept) && Filed(closet, kept, x.createdAt)
    ensures IdsOf(InSlot(Seated(kept, x), x.slot)) == IdsOf(InSlot(kept, x.slot)) + [x.itemId]
  {
    SeatIsInsert(kept, x);
    RenumberFromZero(Insert(kept, x), x.slot);
    FromZeroIds(InSlot(Insert(kept, x), x.slot));
    LatestInserted(closet, kept, x);
    IdsSnoc(InSlot(kept, x.slot), x);
  }

  /* ---- one placement ---- */

  /** Room made in the slot of a piece, and the piece put into it. */
  function SeatedInRoom(items: seq<LookItem>, slot: Slot, id: int, now: int): seq<LookItem>
    requires Capacity(slot).Some?
  {
    Seated(WithoutEntries(items, Evicted(items, slot, Capacity(slot).value)), LookItem(slot, 0, id, now))
  }

  lemma PlaceNew(items: seq<LookItem>, slot: Slot, id: int, now: int)
    requires Capacity(slot).Some? && id !in IdSet(items)
    ensures PlaceIn(items, slot, Capacity(slot).value, id, now).items == SeatedInRoom(items, slot, id, now)
  {
    FoundMeansPresent(items, id);
  }

  lemma NewIsFiled(closet: map<int, ClosetItem>, items: seq<LookItem>, id: int, now: int)
    requires Ordered(items) && Filed(closet, items, now) && Refusal(closet, id).None?
    ensures Filed(closet, SeatedInRoom(items, SlotOfId(closet, id), id, now), now + 1)
  {
    var slot := SlotOfId(closet, id);
    var victims := Evicted(items, slot, Capacity(slot).value);
    RoomIsMade(items, slot, Capacity(slot).value);
    FiledEvicted(closet, items, victims, now);
    var kept, x := WithoutEntries(items, victims), LookItem(slot, 0, id, now);
    FiledLater(closet, kept, now);
    SeatIsInsert(kept, x);
    FiledInsert(closet, kept, x, now + 1);
    FiledRenumber(closet, Insert(kept, x), slot, now + 1);
  }

  lemma NewIsOrdered(items: seq<LookItem>, slot: Slot, id: int, now: int)
    requires Ordered(items) && Capacity(slot).Some? && id !in IdSet(items)
    ensures var after := SeatedInRoom(items, slot, id, now);
            Ordered(after) && Dense(after, slot) && WithinCapacity(after, slot)
  {
    var kept := WithoutEntries(items, Evicted(items, slot, Capacity(slot).value));
    RoomIsMade(items, slot, Capacity(slot).value);
    SeatOrdered(kept, LookItem(slot, 0, id, now));
    SeatFills(kept, LookItem(slot, 0, id, now));
  }

  /** The ids of a full slot move up by one; those of a slot with room grow by one. */
  lemma NewIsQueued(closet: map<int, ClosetItem>, items: seq<LookItem>, id: int, now: int)
    requires Ordered(items) && Filed(closet, items, now) && Refusal(closet, id).None? && id !in IdSet(items)
    ensures var slot := SlotOfId(closet, id);
            IdsOf(InSlot(SeatedInRoom(items, slot, id, now), slot)) ==
            Enqueue(IdsOf(InSlot(items, slot)), Capacity(slot).value, id)
  {
    var slot := SlotOfId(closet, id);
    var capacity, occupants := Capacity(slot).value, InSlot(items, slot);
    var victims := Evicted(items, slot, capacity);
    var kept := WithoutEntries(items, victims);
    RoomIsMade(items, slot, capacity);
    FiledEvicted(closet, items, victims, now);
    LatestGoesLast(closet, kept, LookItem(slot, 0, id, now));
    PresentInItsSlot(closet, items, now, id);
    assert InSlot(kept, slot) == occupants[|victims|..];
    IdsDrop(occupants, |victims|);
  }

  lemma OtherSlotsStay(items: seq<LookItem>, slot: Slot, id: int, now: int, other: Slot)
    requires Ordered(items) && Capacity(slot).Some? && other != slot
    ensures InSlot(SeatedInRoom(items, slot, id, now), other) == InSlot(items, other)
  {
    RoomIsMade(items, slot, Capacity(slot).value);
    SeatLeavesOthers(WithoutEntries(items, Evicted(items, slot, Capacity(slot).value)),
                     LookItem(slot, 0, id, now), other);
  }

  /* ---- the whole composition ---- */

  /** One slot of a composition of `ids` begun at `start`: a queue of its capacity over its own
      ids, densely numbered, in a list that is sorted, without repetitions and filed by category. */
  predicate FaithfulAt(closet: map<int, ClosetItem>, ids: seq<int>, items: seq<LookItem>, start: int, s: Slot) {
    && Ordered(items) && Filed(closet, items, start + |ids|)
    && Dense(items, s) && WithinCapacity(items, s)
    && (Capacity(s).Some? ==> IdsOf(InSlot(items, s)) == Fifo(IdsForSlot(closet, ids, s), Capacity(s).value))
  }

  /** The claim about a whole composition of `ids`, slot by slot. */
  ghost predicate Faithful(closet: map<int, ClosetItem>, ids: seq<int>, items: seq<LookItem>, start: int) {
    forall s :: FaithfulAt(closet, ids, items, start, s)
  }

  /** One slot across one placement: a step of the queue if the piece is filed there. */
  predicate StepAt(closet: map<int, ClosetItem>, items: seq<LookItem>, id: int, now: int, after: seq<LookItem>, s: Slot)
    requires Refusal(closet, id).None?
  {
    && Ordered(after) && Filed(closet, after, now + 1)
    && Dense(after, s) && WithinCapacity(after, s)
    && IdsOf(InSlot(after, s)) ==
       if s == SlotOfId(closet, id) then Enqueue(IdsOf(InSlot(items, s)), Capacity(s).value, id)
       else IdsOf(InSlot(items, s))
  }

  /** A piece that was not there. */
  lemma NewPiece(closet: map<int, ClosetItem>, items: seq<LookItem>, id: int, now: int, s: Slot)
    requires Refusal(closet, id).None? && id !in IdSet(items)
    requires Ordered(items) && Filed(closet, items, now) && Dense(items, s) && WithinCapacity(items, s)
    ensures StepAt(closet, items, id, now, SeatedInRoom(items, SlotOfId(closet, id), id, now), s)
  {
    var slot := SlotOfId(closet, id);
    NewIsFiled(closet, items, id, now);
    NewIsOrdered(items, slot, id, now);
    if s == slot {
      NewIsQueued(closet, items, id, now);
    } else {
      OtherSlotsStay(items, slot, id, now, s);
    }
  }

  /** A piece that was there already: nothing moves, in the list or in the queue. */
  lemma SamePiece(closet: map<int, ClosetItem>, items: seq<LookItem>, id: int, now: int, s: Slot)
    requires Refusal(closet, id).None? && id in IdSet(items)
    requires Ordered(items) && Filed(closet, items, now) && Dense(items, s) && WithinCapacity(items, s)
    ensures StepAt(closet, items, id, now, items, s)
  {
    FiledLater(closet, items, now);
    PresentInItsSlot(closet, items, now, id);
  }

  /** What one placement does to a filed list. */
  lemma PutOnIs(closet: map<int, ClosetItem>, look: Look, id: int)
    requires Refusal(closet, id).None? && Filed(closet, look.items, look.clock)
    ensures PutOn(closet, look, id).items ==
            if id in IdSet(look.items) then look.items
            else SeatedInRoom(look.items, SlotOfId(closet, id), id, look.clock)
  {
    PresentMeansAlreadyThere(closet, look.items, look.clock, id);
    if id !in IdSet(look.items) {
      PlaceNew(look.items, SlotOfId(closet, id), id, look.clock);
    }
  }

  /** A step in every slot keeps the claim about the whole. */
  lemma FaithfulEverywhere(closet: map<int, ClosetItem>, ids: seq<int>, items: seq<LookItem>, id: int, start: int,
                           now: int, after: seq<LookItem>)
    requires Refusal(closet, id).None? && Faithful(closet, ids, items, start) && now == start + |ids|
    requires forall s :: StepAt(closet, items, id, now, after, s)
    ensures Faithful(closet, ids + [id], after, start)
  {
    forall s ensures FaithfulAt(closet, ids + [id], after, start, s) {
      assert FaithfulAt(closet, ids, items, start, s) && StepAt(closet, items, id, now, after, s);
    }
  }

  /** One placement is one step of the queue of its slot, and of no other. */
  lemma PlaceIsEnqueue(closet: map<int, ClosetItem>, ids: seq<int>, look: Look, id: int, start: int)
    requires Faithful(closet, ids, look.items, start) && Refusal(closet, id).None? && look.clock == start + |ids|
    ensures Faithful(closet, ids + [id], PutOn(closet, look, id).items, start)
  {
    var items := look.items;
    assert FaithfulAt(closet, ids, items, start, Top);
    PutOnIs(closet, look, id);
    var after := PutOn(closet, look, id).items;
    forall s ensures StepAt(closet, items, id, look.clock, after, s) {
      assert FaithfulAt(closet, ids, items, start, s);
      if id in IdSet(items) {
        SamePiece(closet, items, id, look.clock, s);
      } else {
        NewPiece(closet, items, id, look.clock, s);
      }
    }
    FaithfulEverywhere(closet, ids, items, id, start, look.clock, after);
  }

  /** The claim about usable ids, as an invariant of the fold. */
  ghost predicate Kept(closet: map<int, ClosetItem>, start: int, ids: seq<int>, look: Look) {
    Usable(closet, ids) ==> look.clock == start + |ids| && Faithful(closet, ids, look.items, start)
  }

  ghost function Invariant(closet: map<int, ClosetItem>, start: int): (seq<int>, Look) -> bool {
    (ids, look) => Kept(closet, start, ids, look)
  }

  lemma StepKeeps(closet: map<int, ClosetItem>, start: int, ids: seq<int>, look: Look, id: int)
    requires Kept(closet, start, ids, look)
    ensures Kept(closet, start, ids + [id], PutOn(closet, look, id))
  {
    if Usable(closet, ids + [id]) {
      PlaceIsEnqueue(closet, ids, look, id, start);
    }
  }

  /** What `compose` builds. Per slot it is exactly a first-in first-out queue of the slot's
      capacity over the ids of that slot, so no other slot's ids can change it; ids are unique,
      the order canonical, positions dense and every slot within its capacity. */
  lemma ComposeIsFifo(closet: map<int, ClosetItem>, ids: seq<int>, start: int)
    requires Usable(closet, ids)
    ensures Faithful(closet, ids, Composed(closet, ids, start).items, start)
  {
    var f, inv := Putter(closet), Invariant(closet, start);
    forall prefix, look, id | inv(prefix, look) ensures inv(prefix + [id], f(look, id)) {
      StepKeeps(closet, start, prefix, look, id);
    }
    FoldKeeps(f, Look([], start), ids, inv);
    assert inv(ids, Composed(closet, ids, start));
  }

  /* ---- replaying ---- */

  function Undated(x: LookItem): LookItem { x.(createdAt := 0) }

  /** Slots in canonical order, all of them known. */
  predicate InCanonicalOrder(items: seq<LookItem>) {
    items == [] ||
    (var init, last := items[..|items| - 1], items[|items| - 1];
     && InCanonicalOrder(init) && !last.slot.UnknownSlot?
     && (init != [] ==> Rank(init[|init| - 1].slot) <= Rank(last.slot)))
  }

  ghost predicate SameSlots(a: seq<LookItem>, b: seq<LookItem>) {
    forall s :: InSlot(a, s) == InSlot(b, s)
  }

  /** The last entry outranks every occupied slot. */
  lemma {:induction false} LastRanks(items: seq<LookItem>, s: Slot)
    requires InCanonicalOrder(items) && InSlot(items, s) != []
    ensures items != [] && Rank(s) <= Rank(items[|items| - 1].slot)
  {
    var init := items[..|items| - 1];
    if InSlot(init, s) != [] {
      LastRanks(init, s);
    }
  }

  lemma SameLast(a: seq<LookItem>, b: seq<LookItem>)
    requires a != [] && b != [] && InCanonicalOrder(a) && InCanonicalOrder(b) && SameSlots(a, b)
    ensures a[|a| - 1] == b[|b| - 1]
  {
    var s, t := a[|a| - 1].slot, b[|b| - 1].slot;
    assert InSlot(a, s) == InSlot(b, s) && InSlot(a, t) == InSlot(b, t);
    LastRanks(a, t);
    LastRanks(b, s);
    assert s == t;
  }

  lemma SameInits(a: seq<LookItem>, b: seq<LookItem>)
    requires a != [] && b != [] && SameSlots(a, b) && a[|a| - 1] == b[|b| - 1]
    ensures SameSlots(a[..|a| - 1], b[..|b| - 1])
  {
    var initA, initB := a[..|a| - 1], b[..|b| - 1];
    forall s ensures InSlot(initA, s) == InSlot(initB, s) {
      assert InSlot(a, s) == InSlot(b, s);
      SnocInit(InSlot(initA, s), a[|a| - 1]);
      SnocInit(InSlot(initB, s), a[|a| - 1]);
    }
  }

  lemma EmptyTogether(a: seq<LookItem>, b: seq<LookItem>)
    requires SameSlots(a, b)
    ensures a == [] <==> b == []
  {
    if a != [] {
      assert InSlot(a, a[|a| - 1].slot) == InSlot(b, a[|a| - 1].slot);
    }
    if b != [] {
      assert InSlot(a, b[|b| - 1].slot) == InSlot(b, b[|b| - 1].slot);
    }
  }

  /** A list in canonical order is determined by its slots. */
  lemma {:induction false} SlotsDetermineTheList(a: seq<LookItem>, b: seq<LookItem>)
    requires InCanonicalOrder(a) && InCanonicalOrder(b) && SameSlots(a, b)
    ensures a == b
    decreases |a|
  {
    if a == [] || b == [] {
      EmptyTogether(a, b);
    } else {
      SameLast(a, b);
      SameInits(a, b);
      SlotsDetermineTheList(a[..|a| - 1], b[..|b| - 1]);
      assert a == a[..|a| - 1] + [a[|a| - 1]];
      assert b == b[..|b| - 1] + [b[|b| - 1]];
    }
  }

  lemma {:induction false} UndatedSlots(items: seq<LookItem>, s: Slot)
    ensures InSlot(Apply(Undated, items), s) == Apply(Undated, InSlot(items, s))
  {
    if items != [] {
      var n := |items| - 1;
      UndatedSlots(items[..n], s);
      assert Apply(Undated, items)[..n] == Apply(Undated, items[..n]);
      assert Undated(items[n]).slot == items[n].slot;
    }
  }

  lemma {:induction false} InSlotHasSlot(items: seq<LookItem>, s: Slot)
    ensures forall k :: 0 <= k < |InSlot(items, s)| ==> InSlot(items, s)[k].slot == s
  {
    if items != [] {
      InSlotHasSlot(items[..|items| - 1], s);
    }
  }

  /** In one densely numbered slot the ids say everything but the dates. */
  lemma SlotIsItsIds(a: seq<LookItem>, b: seq<LookItem>, s: Slot)
    requires Dense(a, s) && Dense(b, s) && IdsOf(InSlot(a, s)) == IdsOf(InSlot(b, s))
    ensures Apply(Undated, InSlot(a, s)) == Apply(Undated, InSlot(b, s))
  {
    var x, y := InSlot(a, s), InSlot(b, s);
    InSlotHasSlot(a, s);
    InSlotHasSlot(b, s);
    assert |x| == |IdsOf(x)| == |IdsOf(y)| == |y|;
    forall k | 0 <= k < |x| ensures Undated(x[k]) == Undated(y[k]) {
      assert IdsOf(x)[k] == x[k].itemId && IdsOf(y)[k] == y[k].itemId;
    }
  }

  lemma {:induction false} UndatedInOrder(closet: map<int, ClosetItem>, items: seq<LookItem>, before: int)
    requires Ordered(items) && Filed(closet, items, before)
    ensures InCanonicalOrder(Apply(Undated, items))
  {
    if items != [] {
      var n := |items| - 1;
      UndatedInOrder(closet, items[..n], before);
      assert Apply(Undated, items)[..n] == Apply(Undated, items[..n]);
      assert n > 0 ==> Before(items[n - 1], items[n]);
    }
  }

  /** No filed list has anything in a slot that does not exist. */
  lemma {:induction false} UnknownIsEmpty(closet: map<int, ClosetItem>, items: seq<LookItem>, before: int, s: Slot)
    requires Filed(closet, items, before) && s.UnknownSlot?
    ensures InSlot(items, s) == []
  {
    if items != [] {
      UnknownIsEmpty(closet, items[..|items| - 1], before, s);
    }
  }

  lemma SlotsAgree(closet: map<int, ClosetItem>, a: seq<LookItem>, beforeA: int, b: seq<LookItem>, beforeB: int,
      s: Slot)
    requires Filed(closet, a, beforeA) && Filed(closet, b, beforeB) && Dense(a, s) && Dense(b, s)
    requires Capacity(s).Some? ==> IdsOf(InSlot(a, s)) == IdsOf(InSlot(b, s))
    ensures InSlot(Apply(Undated, a), s) == InSlot(Apply(Undated, b), s)
  {
    UndatedSlots(a, s);
    UndatedSlots(b, s);
    if Capacity(s).Some? {
      SlotIsItsIds(a, b, s);
    } else {
      UnknownIsEmpty(closet, a, beforeA, s);
      UnknownIsEmpty(closet, b, beforeB, s);
    }
  }

  /** Two compositions with the same ids in every slot are the same list, dates aside. */
  lemma SameIdsSameList(closet: map<int, ClosetItem>, idsA: seq<int>, a: seq<LookItem>, startA: int,
                        idsB: seq<int>, b: seq<LookItem>, startB: int)
    requires Faithful(closet, idsA, a, startA) && Faithful(closet, idsB, b, startB)
    requires forall s :: Capacity(s).Some? ==> IdsOf(InSlot(a, s)) == IdsOf(InSlot(b, s))
    ensures Apply(Undated, a) == Apply(Undated, b)
  {
    InOrderOnceUndated(closet, idsA, a, startA);
    InOrderOnceUndated(closet, idsB, b, startB);
    var u, v := Apply(Undated, a), Apply(Undated, b);
    forall s ensures InSlot(u, s) == InSlot(v, s) {
      assert FaithfulAt(closet, idsA, a, startA, s) && FaithfulAt(closet, idsB, b, startB, s);
      SlotsAgree(closet, a, startA + |idsA|, b, startB + |idsB|, s);
    }
    SlotsDetermineTheList(u, v);
  }

  lemma InOrderOnceUndated(closet: map<int, ClosetItem>, ids: seq<int>, items: seq<LookItem>, start: int)
    requires Faithful(closet, ids, items, start)
    ensures InCanonicalOrder(Apply(Undated, items))
  {
    assert FaithfulAt(closet, ids, items, start, Top);
    UndatedInOrder(closet, items, start + |ids|);
  }

  /** A queue of distinct ids that fits is its own result. */
  lemma {:induction false} FifoOfFitting(items: seq<LookItem>, capacity: nat)
    requires capacity >= 1 && |items| <= capacity && Ordered(items)
    ensures Fifo(IdsOf(items), capacity) == IdsOf(items)
  {
    if items != [] {
      var init, last := items[..|items| - 1], items[|items| - 1];
      FifoOfFitting(init, capacity);
      BeforeMeansNew(init, last);
      IdsAreIdSet(init, last.itemId);
      assert items == init + [last];
      IdsSnoc(init, last);
      assert IdsOf(items)[..|items| - 1] == IdsOf(init);
    }
  }

  lemma {:induction false} IdsAreIdSet(items: seq<LookItem>, id: int)
    ensures id in IdsOf(items) <==> id in IdSet(items)
  {
    if items != [] {
      IdsAreIdSet(items[..|items| - 1], id);
      assert items == items[..|items| - 1] + [items[|items| - 1]];
      IdsSnoc(items[..|items| - 1], items[|items| - 1]);
    }
  }

  /** The ids of a filed list, slot by slot, are the ids of its slots. */
  lemma {:induction false} IdsForSlotOfItems(closet: map<int, ClosetItem>, items: seq<LookItem>, before: int, s: Slot)
    requires Filed(closet, items, before)
    ensures IdsForSlot(closet, IdsOf(items), s) == IdsOf(InSlot(items, s))
  {
    if items != [] {
      var init, last := items[..|items| - 1], items[|items| - 1];
      IdsForSlotOfItems(closet, init, before, s);
      assert IdsOf(items)[..|items| - 1] == IdsOf(init);
      IdsSnoc(InSlot(init, s), last);
    }
  }

  /** A list of known slots is as long as its six slots together. */
  lemma {:induction false} LengthIsSlots(closet: map<int, ClosetItem>, items: seq<LookItem>, before: int)
    requires Filed(closet, items, before)
    ensures |items| == |InSlot(items, Layer)| + |InSlot(items, Top)| + |InSlot(items, Bottom)|
                       + |InSlot(items, Shoes)| + |InSlot(items, Watch)| + |InSlot(items, Accessory)|
  {
    if items != [] {
      LengthIsSlots(closet, items[..|items| - 1], before);
    }
  }

  lemma {:induction false} FiledIsUsable(closet: map<int, ClosetItem>, items: seq<LookItem>, before: int)
    requires Filed(closet, items, before)
    ensures Usable(closet, IdsOf(items))
  {
    if items != [] {
      FiledIsUsable(closet, items[..|items| - 1], before);
      assert IdsOf(items)[..|items| - 1] == IdsOf(items[..|items| - 1]);
    }
  }

  lemma SlotFits(closet: map<int, ClosetItem>, ids: seq<int>, items: seq<LookItem>, start: int, s: Slot)
    requires Faithful(closet, ids, items, start) && Capacity(s).Some?
    ensures |InSlot(items, s)| <= Capacity(s).value
    ensures Filed(closet, items, start + |ids|)
  {
    assert FaithfulAt(closet, ids, items, start, s);
  }

  lemma LookFits(closet: map<int, ClosetItem>, ids: seq<int>, items: seq<LookItem>, start: int)
    requires Faithful(closet, ids, items, start)
    ensures |items| <= MAX_LOOK_ITEMS && Usable(closet, IdsOf(items))
  {
    SlotFits(closet, ids, items, start, Layer);
    SlotFits(closet, ids, items, start, Top);
    SlotFits(closet, ids, items, start, Bottom);
    SlotFits(closet, ids, items, start, Shoes);
    SlotFits(closet, ids, items, start, Watch);
    SlotFits(closet, ids, items, start, Accessory);
    FiledIsUsable(closet, items, start + |ids|);
    LengthIsSlots(closet, items, start + |ids|);
  }

  /** A slot survives being queued again. */
  lemma SlotSurvivesReplay(closet: map<int, ClosetItem>, ids: seq<int>, items: seq<LookItem>, start: int, s: Slot)
    requires FaithfulAt(closet, ids, items, start, s) && Capacity(s).Some?
    ensures Fifo(IdsForSlot(closet, IdsOf(items), s), Capacity(s).value) == IdsOf(InSlot(items, s))
  {
    IdsForSlotOfItems(closet, items, start + |ids|, s);
    InSlotOrdered(items, s);
    FifoOfFitting(InSlot(items, s), Capacity(s).value);
  }

  lemma CopyIsTheSame(closet: map<int, ClosetItem>, ids: seq<int>, look: seq<LookItem>, start: int,
                      copy: seq<LookItem>, later: int)
    requires Faithful(closet, ids, look, start) && Faithful(closet, IdsOf(look), copy, later)
    ensures Apply(Undated, copy) == Apply(Undated, look)
  {
    forall s | Capacity(s).Some? ensures IdsOf(InSlot(copy, s)) == IdsOf(InSlot(look, s)) {
      assert FaithfulAt(closet, ids, look, start, s) && FaithfulAt(closet, IdsOf(look), copy, later, s);
      SlotSurvivesReplay(closet, ids, look, start, s);
    }
    SameIdsSameList(closet, IdsOf(look), copy, later, ids, look, start);
  }

  /** Saving a look and composing its own pieces again, at any later time, gives the same look,
      the moments of choice aside; and its pieces are never too many to compose. */
  lemma ReplayGivesTheSameLook(closet: map<int, ClosetItem>, ids: seq<int>, now: int, later: int)
    requires Usable(closet, ids)
    ensures var look := Composed(closet, ids, now).items;
            && |look| <= MAX_LOOK_ITEMS
            && Usable(closet, IdsOf(look))
            && Apply(Undated, Composed(closet, IdsOf(look), later).items) == Apply(Undated, look)
  {
    var look := Composed(closet, ids, now).items;
    ComposeIsFifo(closet, ids, now);
    LookFits(closet, ids, look, now);
    ComposeIsFifo(closet, IdsOf(look), later);
    CopyIsTheSame(closet, ids, look, now, Composed(closet, IdsOf(look), later).items, later);
  }
}
