/** A look being composed: filled slots kept in canonical order, with capacity, first-in
    first-out eviction and dense positions. */
module Composition {
  import opened Sequences

  /** The six positions of a composition, and whatever else a stored row may say. */
  datatype Slot = Layer | Top | Bottom | Shoes | Watch | Accessory | UnknownSlot(name: string)

  /** The canonical order a look is drawn in; an unknown slot comes after all of them. */
  function Rank(s: Slot): nat {
    match s
    case Layer => 0
    case Top => 1
    case Bottom => 2
    case Shoes => 3
    case Watch => 4
    case Accessory => 5
    case UnknownSlot(_) => 6
  }

  function Capacity(s: Slot): (c: Option<nat>)
    ensures c.None? <==> s.UnknownSlot?
    ensures c.Some? ==> c.value >= 1
  {
    match s
    case Accessory => Some(4)
    case UnknownSlot(_) => None
    case _ => Some(1)
  }

  datatype LookItem = LookItem(slot: Slot, position: nat, itemId: int, createdAt: int)

  /** `b` belongs in front of `a`: an earlier slot, or the same rank and chosen earlier. */
  predicate Precedes(b: LookItem, a: LookItem) {
    Rank(b.slot) < Rank(a.slot) || (Rank(b.slot) == Rank(a.slot) && b.createdAt < a.createdAt)
  }

  /* ---- the operations, on values ---- */

  function InSlot(items: seq<LookItem>, slot: Slot): seq<LookItem> {
    if items == [] then []
    else if items[|items| - 1].slot == slot then InSlot(items[..|items| - 1], slot) + [items[|items| - 1]]
    else InSlot(items[..|items| - 1], slot)
  }

  function OutOfSlot(items: seq<LookItem>, slot: Slot): seq<LookItem> {
    if items == [] then []
    else if items[|items| - 1].slot == slot then OutOfSlot(items[..|items| - 1], slot)
    else OutOfSlot(items[..|items| - 1], slot) + [items[|items| - 1]]
  }

  /** The first entry holding a piece, or the end when none does. */
  function IndexOfId(items: seq<LookItem>, id: int): (i: nat)
    ensures i <= |items| && (i < |items| ==> items[i].itemId == id)
  {
    if items == [] then 0
    else
      var n := |items| - 1;
      var i := IndexOfId(items[..n], id);
      if i < n then i else if items[n].itemId == id then n else n + 1
  }

  /** The list without its i-th entry. */
  function RemoveAt(items: seq<LookItem>, i: nat): (r: seq<LookItem>)
    requires i < |items|
    ensures |r| == |items| - 1
  {
    var n := |items| - 1;
    if i == n then items[..n] else RemoveAt(items[..n], i) + [items[n]]
  }

  lemma {:induction false} RemoveAtIsSplice(items: seq<LookItem>, i: nat)
    requires i < |items|
    ensures RemoveAt(items, i) == items[..i] + items[i + 1..]
  {
    var n := |items| - 1;
    if i < n {
      RemoveAtIsSplice(items[..n], i);
      assert items[..n][..i] == items[..i];
      assert items[i + 1..] == items[..n][i + 1..] + [items[n]];
    } else {
      assert items[n + 1..] == [];
    }
  }

  function WithoutId(items: seq<LookItem>, id: int): seq<LookItem> {
    var i := IndexOfId(items, id);
    if i < |items| then RemoveAt(items, i) else items
  }

  predicate SameEntry(a: LookItem, b: LookItem) {
    a.slot == b.slot && a.position == b.position && a.itemId == b.itemId
  }

  function IndexOfEntry(items: seq<LookItem>, v: LookItem): (i: nat)
    ensures i <= |items| && (i < |items| ==> SameEntry(items[i], v))
  {
    if items == [] then 0
    else
      var n := |items| - 1;
      var i := IndexOfEntry(items[..n], v);
      if i < n then i else if SameEntry(items[n], v) then n else n + 1
  }

  /** A search from the left stops at the first hit. */
  lemma {:induction false} FirstIdIs(items: seq<LookItem>, id: int, i: nat)
    requires i < |items| && items[i].itemId == id && IndexOfId(items[..i], id) == i
    ensures IndexOfId(items, id) == i
  {
    var n := |items| - 1;
    if i < n {
      assert items[..n][..i] == items[..i];
      FirstIdIs(items[..n], id, i);
    }
  }

  lemma {:induction false} FirstEntryIs(items: seq<LookItem>, v: LookItem, i: nat)
    requires i < |items| && SameEntry(items[i], v) && IndexOfEntry(items[..i], v) == i
    ensures IndexOfEntry(items, v) == i
  {
    var n := |items| - 1;
    if i < n {
      assert items[..n][..i] == items[..i];
      FirstEntryIs(items[..n], v, i);
    }
  }

  function WithoutEntry(items: seq<LookItem>, v: LookItem): seq<LookItem> {
    var i := IndexOfEntry(items, v);
    if i < |items| then RemoveAt(items, i) else items
  }

  function WithoutEntries(items: seq<LookItem>, victims: seq<LookItem>): seq<LookItem> {
    if victims == [] then items
    else WithoutEntry(WithoutEntries(items, victims[..|victims| - 1]), victims[|victims| - 1])
  }

  /** One piece moved from the end to its place: the inner loop of the insertion sort. */
  function Insert(items: seq<LookItem>, x: LookItem): seq<LookItem> {
    if items == [] || !Precedes(x, items[|items| - 1]) then items + [x]
    else Insert(items[..|items| - 1], x) + [items[|items| - 1]]
  }

  function SortItems(items: seq<LookItem>): seq<LookItem> {
    if items == [] then [] else Insert(SortItems(items[..|items| - 1]), items[|items| - 1])
  }

  /** The positions of one slot counted from zero; every other slot is left alone. */
  function Renumber(items: seq<LookItem>, slot: Slot): seq<LookItem> {
    if items == [] then []
    else
      var init, last := items[..|items| - 1], items[|items| - 1];
      Renumber(init, slot)
      + [if last.slot == slot then last.(position := |InSlot(init, slot)|) else last]
  }

  /** The occupants that have been there longest, as many as make room for one more. */
  function Evicted(items: seq<LookItem>, slot: Slot, capacity: nat): seq<LookItem>
    requires capacity >= 1
  {
    var occupants := InSlot(items, slot);
    if |occupants| >= capacity then occupants[..|occupants| - capacity + 1] else []
  }

  /** The piece is already where it was asked for: a double click. */
  predicate AlreadyThere(items: seq<LookItem>, slot: Slot, id: int) {
    var i := IndexOfId(items, id);
    i < |items| && items[i].slot == slot
  }

  datatype Placement = Placement(items: seq<LookItem>, replaced: seq<LookItem>)

  /** `Place` for a slot of the given capacity. */
  function PlaceIn(items: seq<LookItem>, slot: Slot, capacity: nat, id: int, now: int): Placement
    requires capacity >= 1
  {
    if AlreadyThere(items, slot, id) then Placement(items, [])
    else
      var without := WithoutId(items, id);
      var victims := Evicted(without, slot, capacity);
      Placement(Renumber(SortItems(WithoutEntries(without, victims) + [LookItem(slot, 0, id, now)]), slot), victims)
  }

  function RemoveId(items: seq<LookItem>, id: int): seq<LookItem> {
    var i := IndexOfId(items, id);
    if i < |items| then Renumber(RemoveAt(items, i), items[i].slot) else items
  }

  /* ---- the container ---- */

  /** `Composition`: a list edited in place. */
  class Composition {
    var items: seq<LookItem>

    constructor (stored: seq<LookItem>)
      ensures items == SortItems(stored)
    {
      items := stored;
      new;
      Sort();
    }

    /** Puts a piece into a slot and reports what it displaced; `None` is a slot that does not
        exist, and leaves the list as it was. */
    method Place(slot: Slot, id: int, now: int) returns (replaced: Option<seq<LookItem>>)
      modifies this
      ensures replaced.None? <==> Capacity(slot).None?
      ensures replaced.None? ==> items == old(items)
      ensures replaced.Some? ==>
                Placement(items, replaced.value) == PlaceIn(old(items), slot, Capacity(slot).value, id, now)
    {
      var capacity := Capacity(slot);
      if capacity.None? {
        return None;
      }
      var idx := Find(id);
      if idx < |items| {
        if items[idx].slot == slot {
          return Some([]);
        }
        RemoveAtIsSplice(items, idx);
        items := items[..idx] + items[idx + 1..];
      }
      assert !AlreadyThere(old(items), slot, id);
      assert items == WithoutId(old(items), id);
      ghost var without := items;
      var victims := Evict(slot, capacity.value);
      ghost var kept := items;
      items := items + [LookItem(slot, 0, id, now)];
      Sort();
      RenumberSlot(slot);
      assert items == Renumber(SortItems(kept + [LookItem(slot, 0, id, now)]), slot);
      assert PlaceIn(old(items), slot, capacity.value, id, now) == Placement(items, victims);
      return Some(victims);
    }

    /** Makes room for one more piece in a slot, from the front. */
    method Evict(slot: Slot, capacity: nat) returns (victims: seq<LookItem>)
      requires capacity >= 1
      modifies this
      ensures victims == Evicted(old(items), slot, capacity)
      ensures items == WithoutEntries(old(items), victims)
    {
      var occupants := Occupants(slot);
      victims := [];
      if |occupants| >= capacity {
        var evictCount := |occupants| - capacity + 1;
        for k := 0 to evictCount
          invariant victims == occupants[..k]
          invariant items == WithoutEntries(old(items), victims)
        {
          ghost var before := victims;
          victims := victims + [occupants[k]];
          assert victims[..k] == before;
          RemoveEntry(occupants[k]);
        }
      }
    }

    /** Clears a piece; clearing what is not there changes nothing. */
    method Remove(id: int) returns (found: bool)
      modifies this
      ensures found <==> IndexOfId(old(items), id) < |old(items)|
      ensures items == RemoveId(old(items), id)
    {
      var idx := Find(id);
      if idx < |items| {
        var slot := items[idx].slot;
        RemoveAtIsSplice(items, idx);
        items := items[..idx] + items[idx + 1..];
        RenumberSlot(slot);
        return true;
      }
      return false;
    }

    /** Empties a slot and says how many pieces left it. */
    method ClearSlot(slot: Slot) returns (removed: nat)
      modifies this
      ensures items == OutOfSlot(old(items), slot)
      ensures removed == |InSlot(old(items), slot)|
    {
      var kept := [];
      removed := 0;
      for i := 0 to |items|
        invariant kept == OutOfSlot(items[..i], slot)
        invariant removed == |InSlot(items[..i], slot)|
        invariant items == old(items)
      {
        assert items[..i + 1][..i] == items[..i];
        if items[i].slot == slot {
          removed := removed + 1;
        } else {
          kept := kept + [items[i]];
        }
      }
      assert items[..|items|] == items;
      items := kept;
    }

    method Find(id: int) returns (idx: nat)
      ensures idx == IndexOfId(items, id)
    {
      idx := 0;
      while idx < |items| && items[idx].itemId != id
        invariant idx <= |items|
        invariant IndexOfId(items[..idx], id) == idx
      {
        assert items[..idx + 1][..idx] == items[..idx];
        idx := idx + 1;
      }
      if idx < |items| {
        FirstIdIs(items, id, idx);
      } else {
        assert items[..idx] == items;
      }
    }

    method Occupants(slot: Slot) returns (occupants: seq<LookItem>)
      ensures occupants == InSlot(items, slot)
    {
      occupants := [];
      for i := 0 to |items|
        invariant occupants == InSlot(items[..i], slot)
      {
        assert items[..i + 1][..i] == items[..i];
        if items[i].slot == slot {
          occupants := occupants + [items[i]];
        }
      }
      assert items[..|items|] == items;
    }

    method RemoveEntry(v: LookItem)
      modifies this
      ensures items == WithoutEntry(old(items), v)
    {
      var idx := 0;
      while idx < |items| && !SameEntry(items[idx], v)
        invariant idx <= |items|
        invariant items == old(items)
        invariant IndexOfEntry(items[..idx], v) == idx
      {
        assert items[..idx + 1][..idx] == items[..idx];
        idx := idx + 1;
      }
      if idx < |items| {
        FirstEntryIs(items, v, idx);
        RemoveAtIsSplice(items, idx);
        items := items[..idx] + items[idx + 1..];
      } else {
        assert items[..idx] == items;
      }
    }

    /** `renumber`: one pass that closes the gaps of one slot. */
    method RenumberSlot(slot: Slot)
      modifies this
      ensures items == Renumber(old(items), slot)
    {
      var next := 0;
      for i := 0 to |items|
        invariant |items| == |old(items)|
        invariant items[i..] == old(items)[i..]
        invariant items[..i] == Renumber(old(items)[..i], slot)
        invariant next == |InSlot(old(items)[..i], slot)|
      {
        assert old(items)[..i + 1][..i] == old(items)[..i];
        assert items[i] == items[i..][0] == old(items)[i..][0] == old(items)[i];
        if items[i].slot == slot {
          items := items[i := items[i].(position := next)];
          next := next + 1;
        }
        assert items[i + 1..] == old(items)[i..][1..];
      }
      assert old(items)[..|items|] == old(items);
    }

    /** `sort`: an insertion sort in place, stable by construction. */
    method Sort()
      modifies this
      ensures items == SortItems(old(items))
    {
      for i := 0 to |items|
        invariant |items| == |old(items)|
        invariant items[i..] == old(items)[i..]
        invariant items[..i] == SortItems(old(items)[..i])
      {
        assert old(items)[..i + 1][..i] == old(items)[..i];
        ghost var rest := items[i..];
        assert items[i] == rest[0] == old(items)[i];
        assert rest[1..] == old(items)[i + 1..];
        Sink(i);
      }
      assert old(items)[..|items|] == old(items);
    }

    /** The inner loop: the entry at `i` moves left past everything it precedes. */
    method Sink(i: nat)
      requires i < |items|
      modifies this
      ensures |items| == |old(items)|
      ensures items[..i + 1] == Insert(old(items)[..i], old(items)[i])
      ensures items[i + 1..] == old(items)[i..][1..]
    {
      var j := i;
      ghost var start, x := items, items[i];
      while 0 < j && Precedes(items[j], items[j - 1])
        invariant 0 <= j <= i
        invariant |items| == |start|
        invariant items[..j] == start[..j] && items[j] == x
        invariant items[j + 1..i + 1] == start[j..i]
        invariant items[i + 1..] == start[i + 1..]
        invariant Insert(start[..i], x) == Insert(start[..j], x) + start[j..i]
      {
        ghost var before := items;
        assert before[j - 1] == start[..j][j - 1] == start[j - 1];
        InsertPast(start, x, i, j);
        items := items[j - 1 := items[j]][j := items[j - 1]];
        j := j - 1;
        assert items[..j] == before[..j + 1][..j] == start[..j];
        assert items[j + 1..i + 1] == [start[j]] + before[j + 2..i + 1];
        assert items[i + 1..] == before[i + 1..];
      }
      assert items[j - (if j > 0 then 1 else 0)] == if j > 0 then start[..j][j - 1] else x;
      assert items[..i + 1] == items[..j] + [items[j]] + items[j + 1..i + 1];
      assert start[..j] + [x] + start[j..i] == items[..i + 1];
    }
  }

  lemma InsertPast(start: seq<LookItem>, x: LookItem, i: nat, j: nat)
    requires 0 < j <= i < |start| && Precedes(x, start[j - 1])
    ensures Insert(start[..j], x) + start[j..i] == Insert(start[..j - 1], x) + start[j - 1..i]
    ensures [start[j - 1]] + start[j..i] == start[j - 1..i]
  {
    assert start[..j][..j - 1] == start[..j - 1];
  }
}
