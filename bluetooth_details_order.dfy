// bluetooth/BluetoothDetailsConfigurableFragment: a configurable list of preference keys decides
// which preferences of the details screen are shown and in which order; the rest are parked in an
// invisible category. Preferences are modelled by their keys.

module BluetoothDetailsOrder {
  import opened Wrappers

  const InvisibleCategory: string := "invisible_profile_category"

  /** List.indexOf: the first position of `x` in `order`, or -1. */
  function IndexOf(order: seq<string>, x: string): (r: int)
    ensures -1 <= r < |order|
    ensures r == -1 <==> x !in order
    ensures r >= 0 ==> order[r] == x && forall j :: 0 <= j < r ==> order[j] != x
  {
    if |order| == 0 then -1
    else if order[0] == x then 0
    else
      var rest := IndexOf(order[1..], x);
      if rest == -1 then -1 else rest + 1
  }

  /** The preferences of `all` whose key sits at position `k` of the order, in their own order. */
  function AtIndex(all: seq<string>, order: seq<string>, k: int): (r: seq<string>)
    ensures forall i :: 0 <= i < |r| ==> IndexOf(order, r[i]) == k
  {
    if all == [] then []
    else (if IndexOf(order, all[0]) == k then [all[0]] else []) + AtIndex(all[1..], order, k)
  }

  /** The preferences of `all` whose key sits at a position of at least `k`. */
  function FromIndex(all: seq<string>, order: seq<string>, k: int): seq<string>
  {
    if all == [] then []
    else (if IndexOf(order, all[0]) >= k then [all[0]] else []) + FromIndex(all[1..], order, k)
  }

  /**
   * `sortedBy { order.indexOf(it) }` restricted to positions k and later: a stable sort, so the
   * preferences are grouped by position and keep their relative order within a group.
   */
  function SortedFrom(all: seq<string>, order: seq<string>, k: nat): (r: seq<string>)
    decreases |order| - k
    ensures forall i :: 0 <= i < |r| ==> k <= IndexOf(order, r[i]) < |order|
    ensures forall i, j :: 0 <= i < j < |r| ==> IndexOf(order, r[i]) <= IndexOf(order, r[j])
  {
    if k >= |order| then []
    else AtIndex(all, order, k) + SortedFrom(all, order, k + 1)
  }

  /** The preferences whose key appears in the order, by position in the order. */
  function VisiblePrefs(all: seq<string>, order: seq<string>): seq<string>
  {
    SortedFrom(all, order, 0)
  }

  /** The preferences whose key does not appear in the order, in their own order. */
  function InvisiblePrefs(all: seq<string>, order: seq<string>): (r: seq<string>)
    ensures forall i :: 0 <= i < |r| ==> r[i] !in order
    ensures forall i :: 0 <= i < |all| && all[i] !in order ==> all[i] in r
  {
    if all == [] then []
    else (if all[0] !in order then [all[0]] else []) + InvisiblePrefs(all[1..], order)
  }

  /** The screen's children other than the invisible category itself. */
  function WithoutCategory(s: seq<string>): (r: seq<string>)
    ensures InvisibleCategory !in r
    ensures forall x :: x != InvisibleCategory ==> multiset(r)[x] == multiset(s)[x]
  {
    if s == [] then []
    else
      assert s == [s[0]] + s[1..];
      (if s[0] == InvisibleCategory then [] else [s[0]]) + WithoutCategory(s[1..])
  }

  lemma {:induction false} WithoutCategoryDropsLast(v: seq<string>)
    requires InvisibleCategory !in v
    ensures WithoutCategory(v + [InvisibleCategory]) == v
  {
    if v != [] {
      WithoutCategoryDropsLast(v[1..]);
      assert (v + [InvisibleCategory])[1..] == v[1..] + [InvisibleCategory];
    }
  }

  lemma {:induction false} FromIndexSplit(all: seq<string>, order: seq<string>, k: int)
    ensures multiset(FromIndex(all, order, k)) == multiset(AtIndex(all, order, k)) + multiset(FromIndex(all, order, k + 1))
  {
    if all != [] {
      FromIndexSplit(all[1..], order, k);
    }
  }

  lemma {:induction false} FromIndexPastEnd(all: seq<string>, order: seq<string>, k: int)
    requires k >= |order|
    ensures FromIndex(all, order, k) == []
  {
    if all != [] {
      FromIndexPastEnd(all[1..], order, k);
    }
  }

  lemma {:induction false} SortedFromIsPermutation(all: seq<string>, order: seq<string>, k: nat)
    decreases |order| - k
    ensures multiset(SortedFrom(all, order, k)) == multiset(FromIndex(all, order, k))
  {
    if k >= |order| {
      FromIndexPastEnd(all, order, k);
    } else {
      SortedFromIsPermutation(all, order, k + 1);
      FromIndexSplit(all, order, k);
    }
  }

  /** Positions from 0 on are exactly the keys that appear in the order, and the rest are not. */
  lemma {:induction false} PartitionKeepsAll(all: seq<string>, order: seq<string>)
    ensures multiset(FromIndex(all, order, 0)) + multiset(InvisiblePrefs(all, order)) == multiset(all)
  {
    if all != [] {
      PartitionKeepsAll(all[1..], order);
      assert all == [all[0]] + all[1..];
    }
  }

  /**
   * No preference is lost or duplicated: the visible and the invisible preferences together are a
   * permutation of all of them.
   */
  lemma VisibleAndInvisibleAreAll(all: seq<string>, order: seq<string>)
    ensures multiset(VisiblePrefs(all, order)) + multiset(InvisiblePrefs(all, order)) == multiset(all)
  {
    SortedFromIsPermutation(all, order, 0);
    PartitionKeepsAll(all, order);
  }

  /** A preference is visible exactly when its key appears in the order. */
  lemma VisibleIffInOrder(all: seq<string>, order: seq<string>, x: string)
    requires x in all
    ensures x in VisiblePrefs(all, order) <==> x in order
    ensures x in InvisiblePrefs(all, order) <==> x !in order
  {
    VisibleAndInvisibleAreAll(all, order);
    assert multiset(all)[x] > 0;
    if x in order {
      assert x !in InvisiblePrefs(all, order);
      assert multiset(VisiblePrefs(all, order))[x] > 0;
    } else {
      var v := VisiblePrefs(all, order);
      assert forall i :: 0 <= i < |v| ==> v[i] in order;
    }
  }

  /** The preferences of a details screen: the shown children and those parked in the category. */
  class ConfigurableFragment {
    var displayOrder: Option<seq<string>>
    /** False while the fragment has no preference screen. */
    var hasScreen: bool
    var screen: seq<string>
    var hidden: seq<string>

    /** All preferences the fragment manages, wherever they currently are. */
    function AllPrefs(): seq<string>
      reads this
    {
      hidden + WithoutCategory(screen)
    }

    /**
     * updatePreferenceOrder: without an order or a screen nothing changes; otherwise the screen
     * shows the preferences named by the order, in that order, followed by the invisible category,
     * which receives all the others.
     */
    method UpdatePreferenceOrder()
      modifies this`screen, this`hidden
      ensures old(displayOrder.None? || !hasScreen) ==> screen == old(screen) && hidden == old(hidden)
      ensures old(displayOrder.Some? && hasScreen) ==>
        screen == VisiblePrefs(old(AllPrefs()), displayOrder.value) + [InvisibleCategory] &&
        hidden == InvisiblePrefs(old(AllPrefs()), displayOrder.value)
    {
      if displayOrder.None? {
        return;
      }
      var order := displayOrder.value;
      if !hasScreen {
        return;
      }
      var allPrefs := hidden + WithoutCategory(screen);
      screen := VisiblePrefs(allPrefs, order) + [InvisibleCategory];
      hidden := InvisiblePrefs(allPrefs, order);
    }

    /** setPreferenceDisplayOrder: an order equal to the current one changes nothing. */
    method SetPreferenceDisplayOrder(prefKeyOrder: Option<seq<string>>)
      modifies this`displayOrder, this`screen, this`hidden
      ensures displayOrder == prefKeyOrder
      ensures old(displayOrder) == prefKeyOrder ==> screen == old(screen) && hidden == old(hidden)
      ensures prefKeyOrder.None? || !hasScreen ==> screen == old(screen) && hidden == old(hidden)
      ensures old(displayOrder) != prefKeyOrder && prefKeyOrder.Some? && hasScreen ==>
        screen == VisiblePrefs(old(AllPrefs()), prefKeyOrder.value) + [InvisibleCategory] &&
        hidden == InvisiblePrefs(old(AllPrefs()), prefKeyOrder.value)
    {
      if displayOrder == prefKeyOrder {
        return;
      }
      displayOrder := prefKeyOrder;
      UpdatePreferenceOrder();
    }
  }

  /** After an update the fragment still manages the same preferences. */
  lemma UpdateKeepsAllPrefs(all: seq<string>, order: seq<string>)
    requires InvisibleCategory !in all
    ensures multiset(InvisiblePrefs(all, order) + WithoutCategory(VisiblePrefs(all, order) + [InvisibleCategory])) == multiset(all)
  {
    var v := VisiblePrefs(all, order);
    VisibleAndInvisibleAreAll(all, order);
    assert multiset(all)[InvisibleCategory] == 0;
    assert InvisibleCategory !in v by {
      assert multiset(v)[InvisibleCategory] == 0;
    }
    WithoutCategoryDropsLast(v);
  }

  /**
   * Hiding a preference with one order and re-showing it with another brings it back on screen:
   * after two updates, a key of the second order that the fragment managed is visible again.
   */
  lemma HideThenShowRestores(all: seq<string>, first: seq<string>, second: seq<string>, key: string)
    requires InvisibleCategory !in all && key in all && key !in first && key in second
    ensures var afterFirst := InvisiblePrefs(all, first) + WithoutCategory(VisiblePrefs(all, first) + [InvisibleCategory]);
      key in InvisiblePrefs(all, first) && key in VisiblePrefs(afterFirst, second)
  {
    var afterFirst := InvisiblePrefs(all, first) + WithoutCategory(VisiblePrefs(all, first) + [InvisibleCategory]);
    VisibleIffInOrder(all, first, key);
    UpdateKeepsAllPrefs(all, first);
    assert multiset(afterFirst)[key] == multiset(all)[key] > 0;
    assert key in afterFirst;
    VisibleIffInOrder(afterFirst, second, key);
  }
}
