/** The block budget rule, written once: whole items only, in priority order, and an item that does
    not fit does not hide the ones behind it. */
module Selection {
  import opened Sequences

  datatype Selection<T> = Selection(selected: seq<T>, dropped: seq<T>, used: int)

  function Pick<T>(s: Selection<T>, item: T, budget: int, cost: T -> int): Selection<T> {
    if s.used + cost(item) > budget then s.(dropped := s.dropped + [item])
    else Selection(s.selected + [item], s.dropped, s.used + cost(item))
  }

  function Select<T>(items: seq<T>, budget: int, overhead: int, cost: T -> int): Selection<T> {
    if items == [] then Selection([], [], overhead)
    else Pick(Select(items[..|items| - 1], budget, overhead, cost), items[|items| - 1], budget, cost)
  }

  /** `selectWithinBudget`. */
  method SelectWithinBudget<T>(items: seq<T>, budget: int, overhead: int, cost: T -> int)
    returns (selected: seq<T>, dropped: seq<T>)
    ensures var s := Select(items, budget, overhead, cost); selected == s.selected && dropped == s.dropped
  {
    if |items| == 0 {
      return [], [];
    }
    selected, dropped := [], [];
    var used := overhead;
    for i := 0 to |items|
      invariant Selection(selected, dropped, used) == Select(items[..i], budget, overhead, cost)
    {
      assert items[..i + 1][..i] == items[..i];
      var c := cost(items[i]);
      if used + c > budget {
        dropped := dropped + [items[i]];
      } else {
        used := used + c;
        selected := selected + [items[i]];
      }
    }
    assert items[..|items|] == items;
  }

  /** Every item is selected or dropped, whole, and neither list reorders anything. */
  lemma {:induction false} SelectionSplits<T>(items: seq<T>, budget: int, overhead: int, cost: T -> int)
    ensures var s := Select(items, budget, overhead, cost); Interleaves(items, s.selected, s.dropped)
  {
    if items != [] {
      var init, last := items[..|items| - 1], items[|items| - 1];
      var s := Select(init, budget, overhead, cost);
      SelectionSplits(init, budget, overhead, cost);
      assert items == init + [last];
    }
  }

  /** What is charged is the overhead and the selected items, and once anything is selected it is
      within the budget. */
  lemma {:induction false} SelectionFits<T>(items: seq<T>, budget: int, overhead: int, cost: T -> int)
    ensures var s := Select(items, budget, overhead, cost);
            && s.used == overhead + SumBy(cost, s.selected)
            && (s.selected != [] ==> s.used <= budget)
  {
    if items != [] {
      var s := Select(items[..|items| - 1], budget, overhead, cost);
      SelectionFits(items[..|items| - 1], budget, overhead, cost);
      assert (s.selected + [items[|items| - 1]])[..|s.selected|] == s.selected;
    }
  }

  predicate CostsNothingNegative<T>(items: seq<T>, cost: T -> int) {
    forall i :: 0 <= i < |items| ==> cost(items[i]) >= 0
  }

  /** Nothing that was dropped would still fit beside the final selection. */
  lemma {:induction false} NothingDroppedFits<T>(items: seq<T>, budget: int, overhead: int, cost: T -> int)
    requires CostsNothingNegative(items, cost)
    ensures var s := Select(items, budget, overhead, cost);
            forall d :: d in s.dropped ==> s.used + cost(d) > budget
  {
    if items != [] {
      var last := items[|items| - 1];
      NothingDroppedFits(items[..|items| - 1], budget, overhead, cost);
      assert cost(last) >= 0;
      var s := Select(items[..|items| - 1], budget, overhead, cost);
      var t := Select(items, budget, overhead, cost);
      forall d | d in t.dropped ensures t.used + cost(d) > budget {
        assert d in s.dropped || d == last;
      }
    }
  }

  /** Selecting is online: what more items are appended changes nothing that was already decided. */
  lemma {:induction false} SelectionIsOnline<T>(a: seq<T>, b: seq<T>, budget: int, overhead: int, cost: T -> int)
    ensures var s, t := Select(a, budget, overhead, cost), Select(a + b, budget, overhead, cost);
            && s.selected <= t.selected && s.dropped <= t.dropped
            && Interleaves(b, t.selected[|s.selected|..], t.dropped[|s.dropped|..])
    decreases |b|
  {
    var s := Select(a, budget, overhead, cost);
    if b == [] {
      assert a + b == a;
      assert s.selected[|s.selected|..] == [] && s.dropped[|s.dropped|..] == [];
    } else {
      var init, last := b[..|b| - 1], b[|b| - 1];
      SelectionIsOnline(a, init, budget, overhead, cost);
      assert (a + b)[..|a + b| - 1] == a + init;
      assert b == init + [last];
      PickExtends(Select(a + init, budget, overhead, cost), last, budget, cost, s, init);
    }
  }

  lemma PickExtends<T>(t: Selection<T>, x: T, budget: int, cost: T -> int, s: Selection<T>, b: seq<T>)
    requires s.selected <= t.selected && s.dropped <= t.dropped
    requires Interleaves(b, t.selected[|s.selected|..], t.dropped[|s.dropped|..])
    ensures var u := Pick(t, x, budget, cost);
            && s.selected <= u.selected && s.dropped <= u.dropped
            && Interleaves(b + [x], u.selected[|s.selected|..], u.dropped[|s.dropped|..])
  {
    if t.used + cost(x) > budget {
      assert (t.dropped + [x])[|s.dropped|..] == t.dropped[|s.dropped|..] + [x];
    } else {
      assert (t.selected + [x])[|s.selected|..] == t.selected[|s.selected|..] + [x];
    }
  }

  /** Only costs decide. Two readings of the same items that agree on every cost make the same
      selection. */
  lemma {:induction false} OnlyCostsDecide<S, T>(
      items: seq<S>, read: S -> T, budget: int, overhead: int, costS: S -> int, costT: T -> int)
    requires forall i :: 0 <= i < |items| ==> costT(read(items[i])) == costS(items[i])
    ensures var s, t := Select(items, budget, overhead, costS), Select(Apply(read, items), budget, overhead, costT);
            t.selected == Apply(read, s.selected) && t.dropped == Apply(read, s.dropped) && t.used == s.used
  {
    if items != [] {
      var init, last := items[..|items| - 1], items[|items| - 1];
      OnlyCostsDecide(init, read, budget, overhead, costS, costT);
      assert Apply(read, items)[..|items| - 1] == Apply(read, init);
      assert costT(read(last)) == costS(last);
      ApplySnoc(read, Select(init, budget, overhead, costS).selected, last);
      ApplySnoc(read, Select(init, budget, overhead, costS).dropped, last);
    }
  }

  /** An item no list admits is one that does not fit alone, and the other way round. */
  lemma NoListAdmitsIffTooLarge<T>(item: T, budget: int, overhead: int, cost: T -> int)
    ensures overhead + cost(item) > budget <==> item in Select([item], budget, overhead, cost).dropped
    ensures overhead + cost(item) <= budget <==> item in Select([item], budget, overhead, cost).selected
  {
    assert [item][..0] == [];
    assert Select([], budget, overhead, cost) == Selection([], [], overhead);
  }

  /** And then it is dropped from every list there is. */
  lemma {:induction false} TooLargeIsNeverSelected<T>(items: seq<T>, item: T, budget: int, overhead: int,
      cost: T -> int)
    requires overhead + cost(item) > budget && CostsNothingNegative(items, cost)
    ensures item !in Select(items, budget, overhead, cost).selected
    ensures Select(items, budget, overhead, cost).used >= overhead
  {
    if items != [] {
      var init, last := items[..|items| - 1], items[|items| - 1];
      TooLargeIsNeverSelected(init, item, budget, overhead, cost);
      assert cost(last) >= 0;
    }
  }

  /* ---- newest first ---- */

  /** Consuming a chronological list from its end: the newest items that fit, in reading order. */
  function NewestFirst<T>(items: seq<T>, budget: int, overhead: int, cost: T -> int): Selection<T> {
    Select(Reverse(items), budget, overhead, cost)
  }

  /** An older item is considered after all the newer ones. */
  lemma NewestFirstGrows<T>(x: T, items: seq<T>, budget: int, overhead: int, cost: T -> int)
    ensures NewestFirst([x] + items, budget, overhead, cost) ==
            Pick(NewestFirst(items, budget, overhead, cost), x, budget, cost)
  {
    var order := Reverse(items);
    ReversePrepend(x, items);
    assert (order + [x])[..|order|] == order;
  }

  function NewestThatFit<T>(items: seq<T>, budget: int, overhead: int, cost: T -> int): seq<T> {
    Reverse(NewestFirst(items, budget, overhead, cost).selected)
  }

  /** The list with items left out, never reordered; within the budget once it holds anything. */
  lemma NewestThatFitIsWhole<T>(items: seq<T>, budget: int, overhead: int, cost: T -> int)
    ensures var w := NewestThatFit(items, budget, overhead, cost);
            && Subsequence(w, items)
            && NewestFirst(items, budget, overhead, cost).used == overhead + SumBy(cost, w)
            && (w != [] ==> overhead + SumBy(cost, w) <= budget)
  {
    var order := Reverse(items);
    var s := Select(order, budget, overhead, cost);
    SelectionSplits(order, budget, overhead, cost);
    InterleavesOrders(order, s.selected, s.dropped);
    SubsequenceReversed(s.selected, order);
    ReverseTwice(items);
    SumOfReverse(cost, s.selected);
    SelectionFits(order, budget, overhead, cost);
  }

  /** And nothing that was left out would still fit beside it. */
  lemma NothingNewerFits<T>(items: seq<T>, budget: int, overhead: int, cost: T -> int, x: T)
    requires forall y :: y in items ==> cost(y) >= 0
    requires x in items && x !in NewestThatFit(items, budget, overhead, cost)
    ensures overhead + SumBy(cost, NewestThatFit(items, budget, overhead, cost)) + cost(x) > budget
  {
    var order := Reverse(items);
    var s := Select(order, budget, overhead, cost);
    ReverseHas(items, x);
    ReverseHas(s.selected, x);
    SelectedOrDropped(order, budget, overhead, cost, x);
    assert CostsNothingNegative(order, cost) by {
      forall i | 0 <= i < |order| ensures cost(order[i]) >= 0 {
        ReverseHas(items, order[i]);
      }
    }
    NothingDroppedFits(order, budget, overhead, cost);
    NewestThatFitIsWhole(items, budget, overhead, cost);
  }

  lemma SelectedOrDropped<T>(items: seq<T>, budget: int, overhead: int, cost: T -> int, x: T)
    requires x in items
    ensures var s := Select(items, budget, overhead, cost); x in s.selected || x in s.dropped
  {
    var s := Select(items, budget, overhead, cost);
    SelectionSplits(items, budget, overhead, cost);
    InterleavesCounts(items, s.selected, s.dropped);
    assert x in multiset(items);
  }

  /** What came before never displaces what the newest items put in. */
  lemma NewestComeFirst<T>(older: seq<T>, newer: seq<T>, budget: int, overhead: int, cost: T -> int)
    ensures EndsWith(NewestThatFit(older + newer, budget, overhead, cost), NewestThatFit(newer, budget, overhead, cost))
  {
    ReverseConcat(older, newer);
    SelectionIsOnline(Reverse(newer), Reverse(older), budget, overhead, cost);
    var s := Select(Reverse(newer), budget, overhead, cost).selected;
    var t := Select(Reverse(newer) + Reverse(older), budget, overhead, cost).selected;
    assert t == s + t[|s|..];
    ReverseConcat(s, t[|s|..]);
  }
}
