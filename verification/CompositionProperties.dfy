/** What every composition keeps, over any sequence of operations. */
module CompositionProperties {
  import opened Composition

  predicate UniqueIds(items: seq<LookItem>) {
    forall i, j :: 0 <= i < j < |items| ==> items[i].itemId != items[j].itemId
  }

  /** Canonical slot order, and inside a rank the order the pieces were chosen in. */
  predicate Sorted(items: seq<LookItem>) {
    forall i, j :: 0 <= i < j < |items| ==> !Precedes(items[j], items[i])
  }

  predicate Dense(items: seq<LookItem>, slot: Slot) {
    Numbered(InSlot(items, slot))
  }

  predicate Numbered(items: seq<LookItem>) {
    forall k :: 0 <= k < |items| ==> items[k].position == k
  }

  predicate WithinCapacity(items: seq<LookItem>, slot: Slot) {
    Capacity(slot).Some? ==> |InSlot(items, slot)| <= Capacity(slot).value
  }

  /* ---- the invariant, entry by entry ---- */

  /** `a` may stand in front of `b`: another piece, and not one that belongs behind it. */
  predicate Before(a: LookItem, b: LookItem) {
    a.itemId != b.itemId && !Precedes(b, a)
  }

  predicate AllBefore(items: seq<LookItem>, x: LookItem) {
    items == [] || (AllBefore(items[..|items| - 1], x) && Before(items[|items| - 1], x))
  }

  /** Ids unique and the order canonical, in the form the proofs recurse on. */
  predicate Ordered(items: seq<LookItem>) {
    items == [] || (Ordered(items[..|items| - 1]) && AllBefore(items[..|items| - 1], items[|items| - 1]))
  }

  function IdSet(items: seq<LookItem>): set<int> {
    if items == [] then {} else IdSet(items[..|items| - 1]) + {items[|items| - 1].itemId}
  }

  lemma {:induction false} AllBeforeMeans(items: seq<LookItem>, x: LookItem)
    ensures AllBefore(items, x) <==> forall i :: 0 <= i < |items| ==> Before(items[i], x)
  {
    if items != [] {
      var n := |items| - 1;
      AllBeforeMeans(items[..n], x);
      assert forall i :: 0 <= i < n ==> items[..n][i] == items[i];
    }
  }

  lemma {:induction false} OrderedMeansPairs(items: seq<LookItem>)
    ensures Ordered(items) <==> forall i, j :: 0 <= i < j < |items| ==> Before(items[i], items[j])
  {
    if items != [] {
      var n := |items| - 1;
      OrderedMeansPairs(items[..n]);
      AllBeforeMeans(items[..n], items[n]);
      assert forall i :: 0 <= i < n ==> items[..n][i] == items[i];
    }
  }

  /** What the recursive form says. */
  lemma OrderedMeans(items: seq<LookItem>)
    ensures Ordered(items) <==> UniqueIds(items) && Sorted(items)
  {
    OrderedMeansPairs(items);
    if UniqueIds(items) && Sorted(items) {
      assert forall i, j :: 0 <= i < j < |items| ==> Before(items[i], items[j]);
    }
    if Ordered(items) {
      forall i, j | 0 <= i < j < |items| ensures items[i].itemId != items[j].itemId && !Precedes(items[j], items[i]) {
        assert Before(items[i], items[j]);
      }
    }
  }

  lemma {:induction false} IdAt(items: seq<LookItem>, i: nat)
    requires i < |items|
    ensures items[i].itemId in IdSet(items)
  {
    if i < |items| - 1 {
      IdAt(items[..|items| - 1], i);
    }
  }

  lemma {:induction false} BeforeMeansNew(items: seq<LookItem>, x: LookItem)
    requires AllBefore(items, x)
    ensures x.itemId !in IdSet(items)
  {
    if items != [] {
      BeforeMeansNew(items[..|items| - 1], x);
    }
  }

  lemma {:induction false} FoundMeansPresent(items: seq<LookItem>, id: int)
    ensures IndexOfId(items, id) < |items| <==> id in IdSet(items)
  {
    if items != [] {
      FoundMeansPresent(items[..|items| - 1], id);
    }
  }

  /* ---- the sort ---- */

  /** Where the insertion stops. */
  function Spot(items: seq<LookItem>, x: LookItem): (p: nat)
    ensures p <= |items|
  {
    if items == [] || !Precedes(x, items[|items| - 1]) then |items| else Spot(items[..|items| - 1], x)
  }

  /** Inserting is one splice: right after the last entry the new one does not precede. */
  lemma {:induction false} InsertIsSplice(items: seq<LookItem>, x: LookItem)
    ensures var p := Spot(items, x);
            && p <= |items|
            && Insert(items, x) == items[..p] + [x] + items[p..]
            && (forall k :: p <= k < |items| ==> Precedes(x, items[k]))
            && (p > 0 ==> !Precedes(x, items[p - 1]))
  {
    if items == [] || !Precedes(x, items[|items| - 1]) {
      assert items[..|items|] == items;
    } else {
      var n := |items| - 1;
      InsertIsSplice(items[..n], x);
      var p := Spot(items, x);
      assert items[..n][..p] == items[..p];
      assert items[..n][p..] + [items[n]] == items[p..];
      assert forall k :: p <= k < n ==> Precedes(x, items[..n][k]);
    }
  }

  lemma InsertKeepsOrder(items: seq<LookItem>, x: LookItem)
    requires Sorted(items)
    ensures Sorted(Insert(items, x))
  {
    InsertIsSplice(items, x);
    var p, r := Spot(items, x), Insert(items, x);
    forall i, j | 0 <= i < j < |r| ensures !Precedes(r[j], r[i]) {
      if i < p && j == p {
        assert !Precedes(x, items[p - 1]);
      }
    }
  }

  lemma {:induction false} InsertPermutes(items: seq<LookItem>, x: LookItem)
    ensures multiset(Insert(items, x)) == multiset(items) + multiset{x}
  {
    if items != [] && Precedes(x, items[|items| - 1]) {
      InsertPermutes(items[..|items| - 1], x);
      assert items == items[..|items| - 1] + [items[|items| - 1]];
    }
  }

  lemma {:induction false} SortPermutes(items: seq<LookItem>)
    ensures multiset(SortItems(items)) == multiset(items)
  {
    if items != [] {
      var init, last := items[..|items| - 1], items[|items| - 1];
      SortPermutes(init);
      InsertPermutes(SortItems(init), last);
      assert items == init + [last];
    }
  }

  /** The sort really sorts: canonical order, and the same entries. */
  lemma {:induction false} SortSorts(items: seq<LookItem>)
    ensures Sorted(SortItems(items))
    ensures multiset(SortItems(items)) == multiset(items)
  {
    SortPermutes(items);
    if items != [] {
      SortSorts(items[..|items| - 1]);
      InsertKeepsOrder(SortItems(items[..|items| - 1]), items[|items| - 1]);
    }
  }

  /** And it leaves an ordered list exactly as it is. */
  lemma {:induction false} OrderedIsFixed(items: seq<LookItem>)
    requires Ordered(items)
    ensures SortItems(items) == items
  {
    if items != [] {
      var n := |items| - 1;
      OrderedIsFixed(items[..n]);
      assert items[..n] + [items[n]] == items;
    }
  }

  /* ---- inserting ---- */

  lemma {:induction false} AllBeforeLater(items: seq<LookItem>, y: LookItem, x: LookItem)
    requires AllBefore(items, y) && !Precedes(x, y) && x.itemId !in IdSet(items)
    ensures AllBefore(items, x)
  {
    if items != [] {
      AllBeforeLater(items[..|items| - 1], y, x);
    }
  }

  lemma {:induction false} InsertBefore(items: seq<LookItem>, x: LookItem, y: LookItem)
    requires AllBefore(items, y) && Before(x, y)
    ensures AllBefore(Insert(items, x), y)
  {
    var r := Insert(items, x);
    if items == [] || !Precedes(x, items[|items| - 1]) {
      assert r[..|items|] == items;
    } else {
      InsertBefore(items[..|items| - 1], x, y);
      assert r[..|r| - 1] == Insert(items[..|items| - 1], x);
    }
  }

  lemma {:induction false} InsertOrdered(items: seq<LookItem>, x: LookItem)
    requires Ordered(items) && x.itemId !in IdSet(items)
    ensures Ordered(Insert(items, x))
    ensures IdSet(Insert(items, x)) == IdSet(items) + {x.itemId}
  {
    var r := Insert(items, x);
    if items == [] {
      assert r[..0] == [];
    } else {
      var init, last := items[..|items| - 1], items[|items| - 1];
      if !Precedes(x, last) {
        assert r[..|items|] == items;
        AllBeforeLater(init, last, x);
      } else {
        InsertOrdered(init, x);
        InsertBefore(init, x, last);
        assert r[..|r| - 1] == Insert(init, x);
      }
    }
  }

  lemma {:induction false} InsertLeavesOthers(items: seq<LookItem>, x: LookItem, other: Slot)
    requires other != x.slot
    ensures InSlot(Insert(items, x), other) == InSlot(items, other)
  {
    var r := Insert(items, x);
    if items == [] || !Precedes(x, items[|items| - 1]) {
      assert r[..|items|] == items;
    } else {
      InsertLeavesOthers(items[..|items| - 1], x, other);
      assert r[..|r| - 1] == Insert(items[..|items| - 1], x);
    }
  }

  lemma {:induction false} InsertFills(items: seq<LookItem>, x: LookItem)
    ensures |InSlot(Insert(items, x), x.slot)| == |InSlot(items, x.slot)| + 1
  {
    var r := Insert(items, x);
    if items == [] || !Precedes(x, items[|items| - 1]) {
      assert r[..|items|] == items;
    } else {
      InsertFills(items[..|items| - 1], x);
      assert r[..|r| - 1] == Insert(items[..|items| - 1], x);
    }
  }

  /* ---- renumbering ---- */

  predicate SameButPosition(a: LookItem, b: LookItem) {
    a.(position := 0) == b.(position := 0)
  }

  /** The same entries, numbered from zero. */
  function FromZero(items: seq<LookItem>): (r: seq<LookItem>)
    ensures |r| == |items|
  {
    if items == [] then []
    else FromZero(items[..|items| - 1]) + [items[|items| - 1].(position := |items| - 1)]
  }

  lemma {:induction false} FromZeroAt(items: seq<LookItem>)
    ensures forall k :: 0 <= k < |items| ==> FromZero(items)[k] == items[k].(position := k)
  {
    if items != [] {
      FromZeroAt(items[..|items| - 1]);
    }
  }

  lemma {:induction false} RenumberFromZero(items: seq<LookItem>, slot: Slot)
    ensures InSlot(Renumber(items, slot), slot) == FromZero(InSlot(items, slot))
  {
    if items != [] {
      var r, init := Renumber(items, slot), items[..|items| - 1];
      RenumberFromZero(init, slot);
      assert r[..|r| - 1] == Renumber(init, slot);
      var before := InSlot(init, slot);
      assert (before + [items[|items| - 1]])[..|before|] == before;
    }
  }

  lemma {:induction false} RenumberLeavesOthers(items: seq<LookItem>, slot: Slot, other: Slot)
    requires other != slot
    ensures InSlot(Renumber(items, slot), other) == InSlot(items, other)
  {
    if items != [] {
      var r := Renumber(items, slot);
      RenumberLeavesOthers(items[..|items| - 1], slot, other);
      assert r[..|r| - 1] == Renumber(items[..|items| - 1], slot);
    }
  }

  lemma {:induction false} RenumberBefore(items: seq<LookItem>, slot: Slot, x: LookItem, y: LookItem)
    requires AllBefore(items, x) && SameButPosition(y, x)
    ensures AllBefore(Renumber(items, slot), y)
  {
    if items != [] {
      var r := Renumber(items, slot);
      RenumberBefore(items[..|items| - 1], slot, x, y);
      assert r[..|r| - 1] == Renumber(items[..|items| - 1], slot);
    }
  }

  lemma {:induction false} RenumberOrdered(items: seq<LookItem>, slot: Slot)
    requires Ordered(items)
    ensures Ordered(Renumber(items, slot)) && IdSet(Renumber(items, slot)) == IdSet(items)
  {
    if items != [] {
      var r, init := Renumber(items, slot), items[..|items| - 1];
      RenumberOrdered(init, slot);
      RenumberBefore(init, slot, items[|items| - 1], r[|r| - 1]);
      assert r[..|r| - 1] == Renumber(init, slot);
    }
  }

  /* ---- removing ---- */

  lemma {:induction false} RemoveAtBefore(items: seq<LookItem>, i: nat, x: LookItem)
    requires i < |items| && AllBefore(items, x)
    ensures AllBefore(RemoveAt(items, i), x)
  {
    var n := |items| - 1;
    if i < n {
      RemoveAtBefore(items[..n], i, x);
      assert RemoveAt(items, i)[..n - 1] == RemoveAt(items[..n], i);
    }
  }

  lemma {:induction false} RemoveAtOrdered(items: seq<LookItem>, i: nat)
    requires i < |items| && Ordered(items)
    ensures Ordered(RemoveAt(items, i))
    ensures IdSet(RemoveAt(items, i)) == IdSet(items) - {items[i].itemId}
  {
    var n := |items| - 1;
    BeforeMeansNew(items[..n], items[n]);
    if i < n {
      RemoveAtOrdered(items[..n], i);
      RemoveAtBefore(items[..n], i, items[n]);
      IdAt(items[..n], i);
      assert RemoveAt(items, i)[..n - 1] == RemoveAt(items[..n], i);
    }
  }

  lemma {:induction false} RemoveAtLeavesOthers(items: seq<LookItem>, i: nat, other: Slot)
    requires i < |items| && items[i].slot != other
    ensures InSlot(RemoveAt(items, i), other) == InSlot(items, other)
  {
    var n := |items| - 1;
    if i < n {
      RemoveAtLeavesOthers(items[..n], i, other);
      assert RemoveAt(items, i)[..n - 1] == RemoveAt(items[..n], i);
    }
  }

  /** Removing an entry removes it from its slot, at the place it holds there. */
  lemma {:induction false} RemoveAtCuts(items: seq<LookItem>, i: nat)
    requires i < |items|
    ensures var slot, j := items[i].slot, |InSlot(items[..i], items[i].slot)|;
            && j < |InSlot(items, slot)| && InSlot(items, slot)[j] == items[i]
            && InSlot(RemoveAt(items, i), slot) == InSlot(items, slot)[..j] + InSlot(items, slot)[j + 1..]
  {
    var n := |items| - 1;
    var slot := items[i].slot;
    var all := InSlot(items[..n], slot);
    if i == n {
      assert (all + [items[n]])[..|all|] == all;
      assert all + (all + [items[n]])[|all| + 1..] == all;
    } else {
      RemoveAtCuts(items[..n], i);
      assert items[..n][..i] == items[..i];
      assert RemoveAt(items, i)[..n - 1] == RemoveAt(items[..n], i);
      var j := |InSlot(items[..i], slot)|;
      if items[n].slot == slot {
        assert (all + [items[n]])[..j] == all[..j];
        assert (all + [items[n]])[j + 1..] == all[j + 1..] + [items[n]];
        assert all[..j] + (all[j + 1..] + [items[n]]) == all[..j] + all[j + 1..] + [items[n]];
      }
    }
  }

  lemma WithoutIdKeeps(items: seq<LookItem>, id: int)
    requires Ordered(items)
    ensures Ordered(WithoutId(items, id)) && IdSet(WithoutId(items, id)) == IdSet(items) - {id}
  {
    FoundMeansPresent(items, id);
    if IndexOfId(items, id) < |items| {
      RemoveAtOrdered(items, IndexOfId(items, id));
    }
  }

  /* ---- evicting ---- */

  /** `rest` is `items` with exactly `victims`, all of one slot, taken out. */
  ghost predicate TakenOut(items: seq<LookItem>, slot: Slot, victims: seq<LookItem>, rest: seq<LookItem>) {
    && Ordered(rest) && IdSet(rest) == IdSet(items) - IdSet(victims)
    && InSlot(items, slot) == victims + InSlot(rest, slot)
    && forall other :: other != slot ==> InSlot(rest, other) == InSlot(items, other)
  }

  lemma {:induction false} NoSuchEntry(items: seq<LookItem>, v: LookItem)
    requires AllBefore(items, v)
    ensures IndexOfEntry(items, v) == |items|
  {
    if items != [] {
      NoSuchEntry(items[..|items| - 1], v);
    }
  }

  /** The first occupant of a slot is found where it stands. */
  lemma {:induction false} FirstOccupant(items: seq<LookItem>, slot: Slot)
    requires Ordered(items) && InSlot(items, slot) != []
    ensures var i := IndexOfEntry(items, InSlot(items, slot)[0]);
            i < |items| && items[i] == InSlot(items, slot)[0] && items[i].slot == slot && InSlot(items[..i], slot) == []
  {
    var n := |items| - 1;
    if InSlot(items[..n], slot) != [] {
      FirstOccupant(items[..n], slot);
      var i := IndexOfEntry(items[..n], InSlot(items, slot)[0]);
      assert items[..n][..i] == items[..i];
    } else {
      NoSuchEntry(items[..n], items[n]);
    }
  }

  lemma CutFirst(all: seq<LookItem>)
    requires all != []
    ensures all[..0] + all[1..] == all[1..] && all == [all[0]] + all[1..]
  {
  }

  lemma EvictAt(items: seq<LookItem>, i: nat)
    requires Ordered(items) && i < |items| && InSlot(items[..i], items[i].slot) == []
    ensures TakenOut(items, items[i].slot, [items[i]], RemoveAt(items, i))
  {
    var slot := items[i].slot;
    RemoveAtOrdered(items, i);
    RemoveAtCuts(items, i);
    CutFirst(InSlot(items, slot));
    OthersStay(items, i);
  }

  lemma OthersStay(items: seq<LookItem>, i: nat)
    requires i < |items|
    ensures forall other :: other != items[i].slot ==> InSlot(RemoveAt(items, i), other) == InSlot(items, other)
  {
    forall other | other != items[i].slot ensures InSlot(RemoveAt(items, i), other) == InSlot(items, other) {
      RemoveAtLeavesOthers(items, i, other);
    }
  }

  /** Evicting it takes it and nothing else. */
  lemma EvictFirst(items: seq<LookItem>, slot: Slot)
    requires Ordered(items) && InSlot(items, slot) != []
    ensures TakenOut(items, slot, [InSlot(items, slot)[0]], WithoutEntry(items, InSlot(items, slot)[0]))
  {
    FirstOccupant(items, slot);
    EvictAt(items, IndexOfEntry(items, InSlot(items, slot)[0]));
  }

  lemma {:induction false} IdSetConcat(a: seq<LookItem>, b: seq<LookItem>)
    ensures IdSet(a + b) == IdSet(a) + IdSet(b)
    decreases |b|
  {
    if b == [] {
      assert a + b == a;
    } else {
      assert (a + b)[..|a + b| - 1] == a + b[..|b| - 1];
      IdSetConcat(a, b[..|b| - 1]);
    }
  }

  lemma TakenOutAgain(items: seq<LookItem>, slot: Slot, victims: seq<LookItem>, mid: seq<LookItem>,
                      more: seq<LookItem>, rest: seq<LookItem>)
    requires TakenOut(items, slot, victims, mid) && TakenOut(mid, slot, more, rest)
    ensures TakenOut(items, slot, victims + more, rest)
  {
    assert victims + (more + InSlot(rest, slot)) == victims + more + InSlot(rest, slot);
    IdSetConcat(victims, more);
  }

  lemma {:induction false} EvictSome(items: seq<LookItem>, slot: Slot, n: nat)
    requires Ordered(items) && n <= |InSlot(items, slot)|
    ensures TakenOut(items, slot, InSlot(items, slot)[..n], WithoutEntries(items, InSlot(items, slot)[..n]))
  {
    var all := InSlot(items, slot);
    if n == 0 {
      assert all[..0] + all == all;
    } else {
      EvictSome(items, slot, n - 1);
      var fewer := all[..n - 1];
      var rest := WithoutEntries(items, fewer);
      assert all[n - 1] == InSlot(rest, slot)[0];
      EvictFirst(rest, slot);
      TakenOutAgain(items, slot, fewer, rest, [all[n - 1]], WithoutEntry(rest, all[n - 1]));
      assert all[..n] == fewer + [all[n - 1]];
      assert all[..n][..n - 1] == fewer;
    }
  }

  /* ---- placing ---- */

  /** A new piece takes its seat in a slot with room: sorted in, then the slot renumbered. */
  function Seated(kept: seq<LookItem>, x: LookItem): seq<LookItem> {
    Renumber(SortItems(kept + [x]), x.slot)
  }

  lemma SeatIsInsert(kept: seq<LookItem>, x: LookItem)
    requires Ordered(kept)
    ensures Seated(kept, x) == Renumber(Insert(kept, x), x.slot)
  {
    OrderedIsFixed(kept);
    assert (kept + [x])[..|kept|] == kept;
  }

  lemma SeatLeavesOthers(kept: seq<LookItem>, x: LookItem, other: Slot)
    requires Ordered(kept) && other != x.slot
    ensures InSlot(Seated(kept, x), other) == InSlot(kept, other)
  {
    SeatIsInsert(kept, x);
    InsertLeavesOthers(kept, x, other);
    RenumberLeavesOthers(Insert(kept, x), x.slot, other);
  }

  lemma SeatOrdered(kept: seq<LookItem>, x: LookItem)
    requires Ordered(kept) && x.itemId !in IdSet(kept)
    ensures Ordered(Seated(kept, x)) && IdSet(Seated(kept, x)) == IdSet(kept) + {x.itemId}
  {
    SeatIsInsert(kept, x);
    InsertOrdered(kept, x);
    RenumberOrdered(Insert(kept, x), x.slot);
  }

  lemma SeatFills(kept: seq<LookItem>, x: LookItem)
    requires Ordered(kept)
    ensures Dense(Seated(kept, x), x.slot) && |InSlot(Seated(kept, x), x.slot)| == |InSlot(kept, x.slot)| + 1
  {
    SeatIsInsert(kept, x);
    InsertFills(kept, x);
    RenumberFromZero(Insert(kept, x), x.slot);
    FromZeroAt(InSlot(Insert(kept, x), x.slot));
  }

  /** The occupants that have to go, and the list they leave behind. */
  lemma RoomIsMade(w: seq<LookItem>, slot: Slot, capacity: nat)
    requires capacity >= 1 && Ordered(w)
    ensures var victims := Evicted(w, slot, capacity);
            var kept := WithoutEntries(w, victims);
            TakenOut(w, slot, victims, kept) && |InSlot(kept, slot)| < capacity
  {
    var victims := Evicted(w, slot, capacity);
    assert victims == InSlot(w, slot)[..|victims|];
    EvictSome(w, slot, |victims|);
  }

  /** What a placement that is not a double click does. Ids stay unique and the order canonical;
      the target slot is within its capacity and densely numbered; nothing is lost but what is
      reported as replaced; and every slot but the target and the piece's old one is untouched. */
  lemma PlaceKeeps(items: seq<LookItem>, slot: Slot, capacity: nat, id: int, now: int)
    requires Ordered(items) && capacity >= 1 && !AlreadyThere(items, slot, id)
    ensures var r := PlaceIn(items, slot, capacity, id, now);
            && Ordered(r.items)
            && IdSet(r.items) == IdSet(items) - IdSet(r.replaced) + {id}
            && Dense(r.items, slot) && |InSlot(r.items, slot)| <= capacity
            && r.replaced == Evicted(WithoutId(items, id), slot, capacity)
            && (forall other :: other != slot ==> InSlot(r.items, other) == InSlot(WithoutId(items, id), other))
  {
    var w, x := WithoutId(items, id), LookItem(slot, 0, id, now);
    WithoutIdKeeps(items, id);
    RoomIsMade(w, slot, capacity);
    var kept := WithoutEntries(w, Evicted(w, slot, capacity));
    SeatOrdered(kept, x);
    SeatFills(kept, x);
    forall other | other != slot ensures InSlot(Seated(kept, x), other) == InSlot(w, other) {
      SeatLeavesOthers(kept, x, other);
    }
  }

  /* ---- the gap of a cross-slot move ---- */

  lemma {:induction false} InSlotBefore(items: seq<LookItem>, s: Slot, x: LookItem)
    requires AllBefore(items, x)
    ensures AllBefore(InSlot(items, s), x)
  {
    if items != [] {
      InSlotBefore(items[..|items| - 1], s, x);
      SnocInit(InSlot(items[..|items| - 1], s), items[|items| - 1]);
    }
  }

  lemma {:induction false} InSlotOrdered(items: seq<LookItem>, s: Slot)
    requires Ordered(items)
    ensures Ordered(InSlot(items, s))
  {
    if items != [] {
      InSlotOrdered(items[..|items| - 1], s);
      InSlotBefore(items[..|items| - 1], s, items[|items| - 1]);
      SnocInit(InSlot(items[..|items| - 1], s), items[|items| - 1]);
    }
  }

  lemma SnocInit(items: seq<LookItem>, x: LookItem)
    ensures (items + [x])[..|items + [x]| - 1] == items
  {
  }

  /** A numbered list with one entry cut out is still numbered exactly if it was the last. */
  lemma CutLeavesGap(all: seq<LookItem>, j: nat)
    requires j < |all| && Numbered(all)
    ensures Numbered(all[..j] + all[j + 1..]) <==> j == |all| - 1
  {
    var left := all[..j] + all[j + 1..];
    if j < |all| - 1 {
      assert left[j] == all[j + 1];
    }
  }

  lemma GapIffNotLast(all: seq<LookItem>, j: nat)
    requires j < |all| && Numbered(all) && Ordered(all)
    ensures Numbered(all[..j] + all[j + 1..]) <==> all[|all| - 1].itemId == all[j].itemId
  {
    CutLeavesGap(all, j);
    OrderedMeansPairs(all);
    if j < |all| - 1 {
      assert Before(all[j], all[|all| - 1]);
    }
  }

  lemma SourceLeft(items: seq<LookItem>, i: nat, after: seq<LookItem>)
    requires i < |items| && Ordered(items) && Dense(items, items[i].slot)
    requires InSlot(after, items[i].slot) == InSlot(RemoveAt(items, i), items[i].slot)
    ensures var all := InSlot(items, items[i].slot);
            all != [] && (Dense(after, items[i].slot) <==> all[|all| - 1].itemId == items[i].itemId)
  {
    RemoveAtCuts(items, i);
    InSlotOrdered(items, items[i].slot);
    GapIffNotLast(InSlot(items, items[i].slot), |InSlot(items[..i], items[i].slot)|);
  }

  /** The slot a piece is moved out of stays densely numbered if and only if the piece was the last
      one in it. */
  lemma SourceStaysDenseIffLastMoved(items: seq<LookItem>, slot: Slot, capacity: nat, id: int, now: int)
    requires Ordered(items) && capacity >= 1 && !AlreadyThere(items, slot, id)
    requires IndexOfId(items, id) < |items| && Dense(items, items[IndexOfId(items, id)].slot)
    ensures var source := items[IndexOfId(items, id)].slot;
            && InSlot(items, source) != []
            && (Dense(PlaceIn(items, slot, capacity, id, now).items, source) <==>
                InSlot(items, source)[|InSlot(items, source)| - 1].itemId == id)
  {
    var i := IndexOfId(items, id);
    PlaceKeeps(items, slot, capacity, id, now);
    SourceLeft(items, i, PlaceIn(items, slot, capacity, id, now).items);
  }

  /** The witness: of two accessories the first, put on as a watch, leaves the second at position 1
      of a slot of one. Nothing that goes through a composition of ids meets this, since every id is
      placed where its own category says. */
  lemma MovedAccessoryLeavesGap(now: int)
    ensures var items := [LookItem(Accessory, 0, 1, 0), LookItem(Accessory, 1, 2, 1)];
            var after := PlaceIn(items, Watch, 1, 1, now).items;
            Ordered(items) && Dense(items, Accessory) && !Dense(after, Accessory)
  {
    var a, b := LookItem(Accessory, 0, 1, 0), LookItem(Accessory, 1, 2, 1);
    var items := [a, b];
    assert items[..1] == [a] && [a][..0] == [];
    assert InSlot([a], Accessory) == [a] && InSlot(items, Accessory) == [a, b];
    assert IndexOfId([a], 1) == 0;
    SourceStaysDenseIffLastMoved(items, Watch, 1, 1, now);
  }

  /* ---- any sequence of operations ---- */

  datatype Op = Place(slot: Slot, id: int, now: int) | Remove(id: int) | Clear(slot: Slot)

  function AfterOp(items: seq<LookItem>, op: Op): seq<LookItem> {
    match op
    case Place(slot, id, now) =>
      if Capacity(slot).None? then items else PlaceIn(items, slot, Capacity(slot).value, id, now).items
    case Remove(id) => RemoveId(items, id)
    case Clear(slot) => OutOfSlot(items, slot)
  }

  function AfterOps(items: seq<LookItem>, ops: seq<Op>): seq<LookItem> {
    if ops == [] then items else AfterOp(AfterOps(items, ops[..|ops| - 1]), ops[|ops| - 1])
  }

  /** The operation takes a piece out of `s` and puts it into another slot. */
  predicate MovesOut(items: seq<LookItem>, op: Op, s: Slot) {
    op.Place? && Capacity(op.slot).Some? && op.slot != s &&
    (var i := IndexOfId(items, op.id); i < |items| && items[i].slot == s)
  }

  lemma {:induction false} OutOfSlotBefore(items: seq<LookItem>, slot: Slot, x: LookItem)
    requires AllBefore(items, x)
    ensures AllBefore(OutOfSlot(items, slot), x)
  {
    if items != [] {
      OutOfSlotBefore(items[..|items| - 1], slot, x);
      SnocInit(OutOfSlot(items[..|items| - 1], slot), items[|items| - 1]);
    }
  }

  lemma {:induction false} OutOfSlotOrdered(items: seq<LookItem>, slot: Slot)
    requires Ordered(items)
    ensures Ordered(OutOfSlot(items, slot))
  {
    if items != [] {
      OutOfSlotOrdered(items[..|items| - 1], slot);
      OutOfSlotBefore(items[..|items| - 1], slot, items[|items| - 1]);
      SnocInit(OutOfSlot(items[..|items| - 1], slot), items[|items| - 1]);
    }
  }

  lemma {:induction false} OutOfSlotSlots(items: seq<LookItem>, slot: Slot, s: Slot)
    ensures InSlot(OutOfSlot(items, slot), s) == if s == slot then [] else InSlot(items, s)
  {
    if items != [] {
      OutOfSlotSlots(items[..|items| - 1], slot, s);
      SnocInit(OutOfSlot(items[..|items| - 1], slot), items[|items| - 1]);
    }
  }

  /** Clearing a slot empties it and touches no other. */
  lemma ClearKeeps(items: seq<LookItem>, slot: Slot, s: Slot)
    requires Ordered(items)
    ensures Ordered(OutOfSlot(items, slot))
    ensures SlotKept(items, OutOfSlot(items, slot), s)
  {
    OutOfSlotOrdered(items, slot);
    OutOfSlotSlots(items, slot, s);
  }

  /** One slot, before and after: never over its capacity for the first time, and numbered as
      densely as it was. */
  predicate SlotKept(before: seq<LookItem>, after: seq<LookItem>, s: Slot) {
    && (WithinCapacity(before, s) ==> WithinCapacity(after, s))
    && (Dense(before, s) ==> Dense(after, s))
  }

  /** Clearing a piece takes it out and closes the gap it leaves. */
  lemma RemoveKeeps(items: seq<LookItem>, id: int, s: Slot)
    requires Ordered(items)
    ensures Ordered(RemoveId(items, id)) && IdSet(RemoveId(items, id)) == IdSet(items) - {id}
    ensures SlotKept(items, RemoveId(items, id), s)
  {
    var i := IndexOfId(items, id);
    WithoutIdKeeps(items, id);
    if i < |items| {
      var slot, rest := items[i].slot, RemoveAt(items, i);
      RenumberOrdered(rest, slot);
      if s != slot {
        RemoveAtLeavesOthers(items, i, s);
        RenumberLeavesOthers(rest, slot, s);
      } else {
        RemoveAtCuts(items, i);
        RenumberFromZero(rest, slot);
        FromZeroAt(InSlot(rest, slot));
      }
    }
  }

  lemma WithoutIdSlot(items: seq<LookItem>, id: int, s: Slot)
    ensures var i := IndexOfId(items, id);
            && (i == |items| || items[i].slot != s ==> InSlot(WithoutId(items, id), s) == InSlot(items, s))
            && |InSlot(WithoutId(items, id), s)| <= |InSlot(items, s)|
  {
    var i := IndexOfId(items, id);
    if i < |items| {
      if items[i].slot != s {
        RemoveAtLeavesOthers(items, i, s);
      } else {
        RemoveAtCuts(items, i);
      }
    }
  }

  /** Placing, slot by slot: only the slot a piece is moved out of can lose its dense numbering. */
  lemma PlaceKeepsSlot(items: seq<LookItem>, slot: Slot, id: int, now: int, s: Slot)
    requires Ordered(items) && Capacity(slot).Some? && !AlreadyThere(items, slot, id)
    ensures var after := PlaceIn(items, slot, Capacity(slot).value, id, now).items;
            && Ordered(after)
            && (WithinCapacity(items, s) ==> WithinCapacity(after, s))
            && (Dense(items, s) && !MovesOut(items, Op.Place(slot, id, now), s) ==> Dense(after, s))
  {
    PlaceKeeps(items, slot, Capacity(slot).value, id, now);
    if s != slot {
      WithoutIdSlot(items, id, s);
    }
  }

  /** One operation: the order and the uniqueness are kept, no slot outgrows its capacity, and a
      slot loses its dense numbering only by having a piece moved out of it into another slot. */
  lemma OpKeeps(items: seq<LookItem>, op: Op, s: Slot)
    requires Ordered(items)
    ensures Ordered(AfterOp(items, op))
    ensures WithinCapacity(items, s) ==> WithinCapacity(AfterOp(items, op), s)
    ensures Dense(items, s) && !MovesOut(items, op, s) ==> Dense(AfterOp(items, op), s)
  {
    match op
    case Remove(id) => RemoveKeeps(items, id, s);
    case Clear(slot) => ClearKeeps(items, slot, s);
    case Place(slot, id, now) =>
      if Capacity(slot).Some? && !AlreadyThere(items, slot, id) {
        PlaceKeepsSlot(items, slot, id, now, s);
      }
  }

  /* ---- from the stored rows on ---- */

  lemma {:induction false} UniqueMeansNew(items: seq<LookItem>, id: int)
    requires forall i :: 0 <= i < |items| ==> items[i].itemId != id
    ensures id !in IdSet(items)
  {
    if items != [] {
      UniqueMeansNew(items[..|items| - 1], id);
    }
  }

  lemma {:induction false} InsertCounts(items: seq<LookItem>, x: LookItem, s: Slot)
    ensures |InSlot(Insert(items, x), s)| == |InSlot(items, s)| + (if x.slot == s then 1 else 0)
  {
    if items == [] || !Precedes(x, items[|items| - 1]) {
      assert (items + [x])[..|items|] == items;
    } else {
      var init, last := items[..|items| - 1], items[|items| - 1];
      InsertCounts(init, x, s);
      assert (Insert(init, x) + [last])[..|Insert(init, x)|] == Insert(init, x);
    }
  }

  /** Rows with unique ids are sorted into an ordered composition, of the same ids and with as many
      pieces in every slot. */
  lemma {:induction false} StoredRowsAreOrdered(stored: seq<LookItem>, s: Slot)
    requires UniqueIds(stored)
    ensures Ordered(SortItems(stored)) && IdSet(SortItems(stored)) == IdSet(stored)
    ensures |InSlot(SortItems(stored), s)| == |InSlot(stored, s)|
  {
    if stored != [] {
      var init, last := stored[..|stored| - 1], stored[|stored| - 1];
      StoredRowsAreOrdered(init, s);
      UniqueMeansNew(init, last.itemId);
      InsertOrdered(SortItems(init), last);
      InsertCounts(SortItems(init), last, s);
    }
  }

  /** Over any sequence of operations on any ordered composition ids stay unique, the order stays
      canonical and a slot within its capacity stays within it. */
  lemma {:induction false} OpsKeep(items: seq<LookItem>, ops: seq<Op>, s: Slot)
    requires Ordered(items)
    ensures var after := AfterOps(items, ops);
            && UniqueIds(after) && Sorted(after) && Ordered(after)
            && (WithinCapacity(items, s) ==> WithinCapacity(after, s))
  {
    if ops != [] {
      OpsKeep(items, ops[..|ops| - 1], s);
      OpKeeps(AfterOps(items, ops[..|ops| - 1]), ops[|ops| - 1], s);
    }
    OrderedMeans(AfterOps(items, ops));
  }

  /** A look's whole life: from rows with unique ids, through the constructor and any sequence of
      operations, ids stay unique, the order is canonical, and a slot stored within its capacity stays
      within it. */
  lemma StoredLookKeeps(stored: seq<LookItem>, ops: seq<Op>, s: Slot)
    requires UniqueIds(stored)
    ensures var after := AfterOps(SortItems(stored), ops);
            && UniqueIds(after) && Sorted(after)
            && (WithinCapacity(stored, s) ==> WithinCapacity(after, s))
  {
    StoredRowsAreOrdered(stored, s);
    OpsKeep(SortItems(stored), ops, s);
  }

  /** No operation of the sequence takes a piece out of `s` into another slot. */
  predicate NeverMovesOut(items: seq<LookItem>, ops: seq<Op>, s: Slot) {
    ops == [] ||
    (NeverMovesOut(items, ops[..|ops| - 1], s)
     && !MovesOut(AfterOps(items, ops[..|ops| - 1]), ops[|ops| - 1], s))
  }

  /** And a slot nothing is moved out of keeps dense positions through all of them. */
  lemma {:induction false} OpsKeepDense(items: seq<LookItem>, ops: seq<Op>, s: Slot)
    requires Ordered(items) && Dense(items, s) && NeverMovesOut(items, ops, s)
    ensures Dense(AfterOps(items, ops), s)
  {
    if ops != [] {
      OpsKeep(items, ops[..|ops| - 1], s);
      OpsKeepDense(items, ops[..|ops| - 1], s);
      OpKeeps(AfterOps(items, ops[..|ops| - 1]), ops[|ops| - 1], s);
    }
  }
}
