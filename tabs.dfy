/**
 * The tab strip: which tab opens first, what selecting a tab does (open it
 * locally or hand it to the parent), and keyboard focus movement between tabs.
 */
module Tabs {
  import opened Common

  datatype TabItem = TabItem(title: string, disabled: bool)

  /** `items.findIndex(item => item.title === title)`; an absent title matches nothing. */
  function FindTitle(items: seq<TabItem>, title: Option<string>): (r: int)
    ensures -1 <= r < |items|
    ensures r >= 0 ==> title == Some(items[r].title) && forall j :: 0 <= j < r ==> title != Some(items[j].title)
    ensures r == -1 ==> forall j :: 0 <= j < |items| ==> title != Some(items[j].title)
  {
    if |items| == 0 then -1
    else if title == Some(items[0].title) then 0
    else
      var rest := FindTitle(items[1..], title);
      if rest == -1 then -1 else rest + 1
  }

  /** The tab opened first: the one titled like `currentTab`, otherwise the first. */
  function InitialTab(items: seq<TabItem>, currentTab: Option<string>): (r: nat)
    ensures |items| > 0 ==> r < |items|
    ensures r > 0 ==> r < |items| && currentTab == Some(items[r].title)
    ensures (exists j :: 0 <= j < |items| && currentTab == Some(items[j].title))
            ==> currentTab == Some(items[r].title) && forall j :: 0 <= j < r ==> currentTab != Some(items[j].title)
    ensures (forall j :: 0 <= j < |items| ==> currentTab != Some(items[j].title)) ==> r == 0
  {
    var found := FindTitle(items, currentTab);
    if found != -1 then found else 0
  }

  /** What selecting a tab leads to. */
  datatype SelectEffect =
    | Ignored
    | HandedToParent(item: Option<TabItem>)
    | OpenedLocally(index: int)

  /** The tab strip's state: the index of the open tab. */
  class TabsState {
    var openTab: int

    constructor (items: seq<TabItem>, currentTab: Option<string>)
      ensures openTab == InitialTab(items, currentTab)
    {
      openTab := InitialTab(items, currentTab);
    }

    /** The item whose content is shown. */
    function ShownItem(items: seq<TabItem>): (r: Option<TabItem>)
      reads this
      ensures r.Some? <==> 0 <= openTab < |items|
      ensures r.Some? ==> r.value == items[openTab]
    {
      if 0 <= openTab < |items| then Some(items[openTab]) else None
    }

    /**
     * `selectTab`: nothing while the strip is disabled; with a parent
     * callback the item goes to the parent and the open tab stays; otherwise
     * the tab opens here.
     */
    method SelectTab(items: seq<TabItem>, index: int, disabled: bool, hasOnSelectTab: bool)
      returns (effect: SelectEffect)
      modifies this
      ensures disabled ==> effect == Ignored && openTab == old(openTab)
      ensures !disabled && hasOnSelectTab ==>
                effect == HandedToParent(if 0 <= index < |items| then Some(items[index]) else None)
                && openTab == old(openTab)
      ensures !disabled && !hasOnSelectTab ==> effect == OpenedLocally(index) && openTab == index
    {
      if disabled {
        effect := Ignored;
      } else if hasOnSelectTab {
        effect := HandedToParent(if 0 <= index < |items| then Some(items[index]) else None);
      } else {
        openTab := index;
        effect := OpenedLocally(index);
      }
    }

    /** When the item list changes the open tab is reset directly, disabled or not. */
    method ItemsChanged(items: seq<TabItem>, currentTab: Option<string>)
      modifies this
      ensures openTab == InitialTab(items, currentTab)
    {
      openTab := InitialTab(items, currentTab);
    }

    /** When the parent's current tab changes, that tab is selected through `selectTab`. */
    method CurrentTabChanged(items: seq<TabItem>, currentTab: Option<string>, disabled: bool, hasOnSelectTab: bool)
      returns (effect: SelectEffect)
      modifies this
      ensures disabled ==> effect == Ignored && openTab == old(openTab)
      ensures !disabled && hasOnSelectTab ==>
                effect == HandedToParent(if |items| > 0 then Some(items[InitialTab(items, currentTab)]) else None)
                && openTab == old(openTab)
      ensures !disabled && !hasOnSelectTab ==> openTab == InitialTab(items, currentTab)
    {
      effect := SelectTab(items, InitialTab(items, currentTab), disabled, hasOnSelectTab);
    }
  }

  /** A key press on a tab: the tab that receives focus, and whether the event is stopped. */
  datatype KeyOutcome = KeyOutcome(focus: Option<int>, handled: bool)

  predicate IsNavigationKey(key: string) {
    key == "ArrowLeft" || key == "ArrowRight" || key == "ArrowDown" || key == "ArrowUp" || key == "Home" || key == "End"
  }

  /**
   * Left/Up move to the previous tab and Right/Down to the next, wrapping
   * around; Home and End go to the ends. Other keys do nothing here (and
   * every key is still passed on to the parent's handler).
   */
  function HandleKeyDown(key: string, current: int, count: int): (r: KeyOutcome)
    requires 0 <= current < count
    ensures r.handled <==> IsNavigationKey(key)
    ensures r.focus.Some? <==> r.handled
    ensures r.focus.Some? ==> 0 <= r.focus.value < count
    ensures key == "ArrowRight" || key == "ArrowDown" ==>
              r.focus == Some(if current == count - 1 then 0 else current + 1)
    ensures key == "ArrowLeft" || key == "ArrowUp" ==>
              r.focus == Some(if current == 0 then count - 1 else current - 1)
    ensures key == "Home" ==> r.focus == Some(0)
    ensures key == "End" ==> r.focus == Some(count - 1)
  {
    if key == "ArrowLeft" || key == "ArrowUp" then
      ModInRange(current - 1 + count, count, if current == 0 then count - 1 else current - 1);
      KeyOutcome(Some((current - 1 + count) % count), true)
    else if key == "ArrowRight" || key == "ArrowDown" then
      ModInRange(current + 1, count, if current == count - 1 then 0 else current + 1);
      KeyOutcome(Some((current + 1) % count), true)
    else if key == "Home" then KeyOutcome(Some(0), true)
    else if key == "End" then KeyOutcome(Some(count - 1), true)
    else KeyOutcome(None, false)
  }

  /** Moving right then left (or left then right) returns to the starting tab. */
  lemma LeftUndoesRight(current: int, count: int)
    requires 0 <= current < count
    ensures HandleKeyDown("ArrowLeft", HandleKeyDown("ArrowRight", current, count).focus.value, count).focus == Some(current)
    ensures HandleKeyDown("ArrowRight", HandleKeyDown("ArrowLeft", current, count).focus.value, count).focus == Some(current)
  {
    var next := if current + 1 == count then 0 else current + 1;
    var prev := if current == 0 then count - 1 else current - 1;
    ModInRange(current + 1, count, next);
    ModInRange(current - 1 + count, count, prev);
    ModInRange(next - 1 + count, count, current);
    ModInRange(prev + 1, count, current);
  }

  lemma ModInRange(x: int, n: int, r: int)
    requires n > 0 && 0 <= r < n && (x == r || x == r + n)
    ensures x % n == r
  {
  }

  /** Right from the last tab wraps to the first; left from the first wraps to the last. */
  lemma FocusWraps(count: int)
    requires count > 0
    ensures HandleKeyDown("ArrowRight", count - 1, count).focus == Some(0)
    ensures HandleKeyDown("ArrowLeft", 0, count).focus == Some(count - 1)
  {
  }

  /** The parent's current tab can open a disabled item: only clicks respect an item's own `disabled`. */
  lemma CurrentTabMayOpenDisabledItem()
    ensures InitialTab([TabItem("a", false), TabItem("b", true)], Some("b")) == 1
  {
  }
}
