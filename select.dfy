/**
 * The multi/single select used by the filter panels: choosing and
 * un-choosing options (with an optional fixed first choice), clearing,
 * searching the option labels, and the dropdown's open/search state.
 */
module Select {
  import opened Common

  datatype SelectOption = SelectOption(key: string, text: string)

  predicate IsSelected(selected: seq<SelectOption>, key: string) {
    exists i :: 0 <= i < |selected| && selected[i].key == key
  }

  /** `selected.filter(s => key(s) !== key)` */
  function WithoutKey(selected: seq<SelectOption>, key: string): (r: seq<SelectOption>)
    ensures |r| <= |selected|
    ensures forall i :: 0 <= i < |r| ==> r[i].key != key && r[i] in selected
    ensures forall o :: o in selected && o.key != key ==> o in r
  {
    if |selected| == 0 then []
    else if selected[0].key == key then WithoutKey(selected[1..], key)
    else [selected[0]] + WithoutKey(selected[1..], key)
  }

  lemma {:induction false} WithoutAbsentKey(selected: seq<SelectOption>, key: string)
    requires !IsSelected(selected, key)
    ensures WithoutKey(selected, key) == selected
  {
    if |selected| > 0 {
      assert selected[0].key != key;
      assert !IsSelected(selected[1..], key);
      WithoutAbsentKey(selected[1..], key);
    }
  }

  /**
   * Choosing an option. `None` means `onChange` is not called (the fixed
   * first choice cannot be removed); otherwise the new selection.
   */
  function HandleSelect(selected: seq<SelectOption>, option: SelectOption, multiSelect: bool, fixedFirst: bool)
    : (r: Option<seq<SelectOption>>)
    ensures !multiSelect ==> r == Some([option])
    ensures multiSelect && !IsSelected(selected, option.key) ==> r == Some(selected + [option])
    ensures multiSelect && IsSelected(selected, option.key) ==>
              (r.None? <==> fixedFirst && selected[0].key == option.key)
              && (r.Some? ==> r.value == WithoutKey(selected, option.key)
                              && !IsSelected(r.value, option.key))
  {
    if multiSelect then
      if IsSelected(selected, option.key) then
        if fixedFirst && selected[0].key == option.key then None
        else
          var rest := WithoutKey(selected, option.key);
          assert !IsSelected(rest, option.key);
          Some(rest)
      else Some(selected + [option])
    else Some([option])
  }

  /**
   * In multi-select mode, choosing an unchosen option and then choosing it
   * again restores the selection, unless it became the fixed first choice.
   */
  lemma ChooseTwiceRestores(selected: seq<SelectOption>, option: SelectOption, fixedFirst: bool)
    requires !IsSelected(selected, option.key)
    requires !fixedFirst || |selected| > 0
    ensures HandleSelect(selected, option, true, fixedFirst).value == selected + [option]
    ensures HandleSelect(selected + [option], option, true, fixedFirst) == Some(selected)
  {
    var added := selected + [option];
    assert added[|selected|].key == option.key;
    if |selected| > 0 {
      assert added[0] == selected[0];
      assert selected[0].key != option.key;
    }
    WithoutAbsentKey(selected, option.key);
    WithoutKeyAppend(selected, option, option.key);
  }

  lemma {:induction false} WithoutKeyAppend(selected: seq<SelectOption>, option: SelectOption, key: string)
    requires option.key == key
    ensures WithoutKey(selected + [option], key) == WithoutKey(selected, key)
  {
    if |selected| > 0 {
      assert (selected + [option])[1..] == selected[1..] + [option];
      WithoutKeyAppend(selected[1..], option, key);
    } else {
      assert [option][1..] == [];
    }
  }

  /** With a fixed first choice, the first option chosen into an empty selection can no longer be removed. */
  lemma FirstChoiceBecomesFixed(option: SelectOption)
    ensures HandleSelect([], option, true, true) == Some([option])
    ensures HandleSelect([option], option, true, true).None?
  {
    assert [] + [option] == [option];
    assert [option][0].key == option.key;
  }

  /** With a fixed first choice, choosing never moves or removes the first element. */
  lemma FixedFirstStaysFirst(selected: seq<SelectOption>, option: SelectOption)
    requires |selected| > 0
    requires HandleSelect(selected, option, true, true).Some?
    ensures var r := HandleSelect(selected, option, true, true).value; |r| > 0 && r[0] == selected[0]
  {
    assert (selected + [option])[0] == selected[0];
    if IsSelected(selected, option.key) {
      assert selected[0].key != option.key;
    }
  }

  /** The clear button shows when something is chosen, and with a fixed first choice only when there is more than it. */
  predicate ClearButtonShown(selected: seq<SelectOption>, fixedFirst: bool) {
    |selected| > 0 && (!fixedFirst || |selected| > 1)
  }

  /** Clearing keeps only the fixed first choice, if there is one. */
  function HandleClear(selected: seq<SelectOption>, fixedFirst: bool): (r: seq<SelectOption>)
    requires ClearButtonShown(selected, fixedFirst)
    ensures !fixedFirst ==> r == []
    ensures fixedFirst ==> r == [selected[0]]
    ensures !ClearButtonShown(r, fixedFirst)
  {
    if !fixedFirst then [] else [selected[0]]
  }

  /** An option stays in the list when its lower-cased label text contains the lower-cased search text. */
  predicate MatchesSearch(option: SelectOption, search: string) {
    Contains(ToLower(option.text), ToLower(search))
  }

  /** `options.filter(…)`: the options matching the search, in their original order. */
  function FilteredOptions(options: seq<SelectOption>, search: string): (r: seq<SelectOption>)
    ensures |r| <= |options|
    ensures forall o :: o in r <==> o in options && MatchesSearch(o, search)
  {
    if |options| == 0 then []
    else if MatchesSearch(options[0], search) then [options[0]] + FilteredOptions(options[1..], search)
    else FilteredOptions(options[1..], search)
  }

  /** Filtering respects order: it distributes over concatenation. */
  lemma {:induction false} FilteredOptionsAppend(a: seq<SelectOption>, b: seq<SelectOption>, search: string)
    ensures FilteredOptions(a + b, search) == FilteredOptions(a, search) + FilteredOptions(b, search)
  {
    if |a| > 0 {
      assert (a + b)[0] == a[0];
      assert (a + b)[1..] == a[1..] + b;
      FilteredOptionsAppend(a[1..], b, search);
    } else {
      assert a + b == b;
    }
  }

  /** An empty search keeps every option. */
  lemma {:induction false} EmptySearchKeepsAll(options: seq<SelectOption>)
    ensures FilteredOptions(options, "") == options
  {
    if |options| > 0 {
      assert MatchesSearch(options[0], "");
      EmptySearchKeepsAll(options[1..]);
    }
  }

  /** The dropdown's own state: whether it is open and the search text. */
  class SelectBox {
    var isOpen: bool
    var search: string

    constructor ()
      ensures !isOpen && search == ""
    {
      isOpen := false;
      search := "";
    }

    /** Pressing the trigger button opens or closes the dropdown. */
    method Toggle()
      modifies this
      ensures isOpen == !old(isOpen) && search == old(search)
    {
      isOpen := !isOpen;
    }

    /** A mouse press outside the component closes it and forgets the search. */
    method ClickOutside()
      modifies this
      ensures !isOpen && search == ""
    {
      isOpen := false;
      search := "";
    }

    method SetSearch(text: string)
      modifies this
      ensures search == text && isOpen == old(isOpen)
    {
      search := text;
    }

    /** The options currently listed. */
    function Listed(options: seq<SelectOption>): seq<SelectOption>
      reads this
    {
      FilteredOptions(options, search)
    }

    /** Choosing a listed option: single-select mode also closes the dropdown. */
    method Choose(selected: seq<SelectOption>, option: SelectOption, multiSelect: bool, fixedFirst: bool)
      returns (change: Option<seq<SelectOption>>)
      modifies this
      ensures change == HandleSelect(selected, option, multiSelect, fixedFirst)
      ensures isOpen == (old(isOpen) && multiSelect) && search == old(search)
    {
      change := HandleSelect(selected, option, multiSelect, fixedFirst);
      if !multiSelect {
        isOpen := false;
      }
    }
  }
}
