/**
 * The applied-filters counter shown on a list page's filter button: each
 * group of filter keys adds one when at least one of its keys holds a value.
 */
module CountDefinedProps {
  import opened Common

  /**
   * A key holds a value unless it is `null`/`undefined`, loosely equal to
   * `''` (which also covers `0`, `false`, `[]`, `['']`, `[null]`) or an empty array.
   */
  predicate HoldsValue(v: JsValue) {
    !IsNullish(v) && !LooselyEqualsEmptyString(v) && (v.JsArray? ==> |v.items| > 0)
  }

  /** `group.some(key => …)` */
  predicate GroupHasValue(obj: Record, group: seq<string>) {
    exists i :: 0 <= i < |group| && HoldsValue(Field(obj, group[i]))
  }

  /** `groups.reduce(…, 0)`: the number of groups with a value. */
  function CountDefinedProps(obj: Record, groups: seq<seq<string>>): (r: nat)
    ensures r <= |groups|
    decreases |groups|
  {
    if |groups| == 0 then 0
    else
      CountDefinedProps(obj, groups[..|groups| - 1])
      + (if GroupHasValue(obj, groups[|groups| - 1]) then 1 else 0)
  }

  /** Adding a group adds one exactly when the new group has a value. */
  lemma CountAppend(obj: Record, groups: seq<seq<string>>, group: seq<string>)
    ensures CountDefinedProps(obj, groups + [group])
            == CountDefinedProps(obj, groups) + (if GroupHasValue(obj, group) then 1 else 0)
  {
    assert (groups + [group])[..|groups|] == groups;
  }

  /** The count is zero exactly when no group has a value. */
  lemma {:induction false} CountZeroIff(obj: Record, groups: seq<seq<string>>)
    ensures CountDefinedProps(obj, groups) == 0
            <==> forall i :: 0 <= i < |groups| ==> !GroupHasValue(obj, groups[i])
    decreases |groups|
  {
    if |groups| > 0 {
      var prefix := groups[..|groups| - 1];
      CountZeroIff(obj, prefix);
      assert forall i :: 0 <= i < |prefix| ==> prefix[i] == groups[i];
    }
  }

  /** The count equals the number of groups exactly when every group has a value. */
  lemma {:induction false} CountFullIff(obj: Record, groups: seq<seq<string>>)
    ensures CountDefinedProps(obj, groups) == |groups|
            <==> forall i :: 0 <= i < |groups| ==> GroupHasValue(obj, groups[i])
    decreases |groups|
  {
    if |groups| > 0 {
      var prefix := groups[..|groups| - 1];
      CountFullIff(obj, prefix);
      assert forall i :: 0 <= i < |prefix| ==> prefix[i] == groups[i];
    }
  }

  /** The count only depends on the values of the keys the groups name. */
  lemma {:induction false} CountOnlyReadsNamedKeys(a: Record, b: Record, groups: seq<seq<string>>)
    requires forall i, j :: 0 <= i < |groups| && 0 <= j < |groups[i]| ==> Field(a, groups[i][j]) == Field(b, groups[i][j])
    ensures CountDefinedProps(a, groups) == CountDefinedProps(b, groups)
    decreases |groups|
  {
    if |groups| > 0 {
      var last := groups[|groups| - 1];
      assert GroupHasValue(a, last) <==> GroupHasValue(b, last) by {
        assert forall j :: 0 <= j < |last| ==> Field(a, last[j]) == Field(b, last[j]);
      }
      CountOnlyReadsNamedKeys(a, b, groups[..|groups| - 1]);
    }
  }

  /** With a single one-key group the count is 1 exactly when that key holds a value. */
  lemma SingleKeyCount(obj: Record, key: string)
    ensures CountDefinedProps(obj, [[key]]) == (if HoldsValue(Field(obj, key)) then 1 else 0)
  {
    assert [[key]][..0] == [];
    assert GroupHasValue(obj, [key]) <==> HoldsValue(Field(obj, key)) by {
      assert [key][0] == key;
    }
  }

  /** Which values count as set. */
  lemma HoldsValueCases(s: string, n: int, b: bool, x: JsValue)
    ensures HoldsValue(JsString(s)) <==> s != ""
    ensures HoldsValue(JsNumber(n)) <==> n != 0
    ensures HoldsValue(JsBool(b)) <==> b
    ensures !HoldsValue(JsArray([]))
    ensures !HoldsValue(JsArray([JsNull])) && !HoldsValue(JsArray([JsString("")]))
    ensures HoldsValue(JsArray([JsString("a")])) && HoldsValue(JsArray([x, x]))
    ensures HoldsValue(JsObject)
  {
  }
}
