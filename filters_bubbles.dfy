/**
 * The removable "bubbles" above a grid, one per configured filter: when each
 * kind of bubble shows and what closing it clears.
 */
module FiltersBubbles {
  import opened Common

  /** How one bubble reads the filter record. */
  datatype BubbleConfig =
    | RangeBubble(caption: string, beginKey: string, endKey: string)
    | SingleBubble(caption: string, key: string)
    | ListBubble(caption: string, listKey: string, filterTypeKey: string)
    | CustomBubble(caption: string, render: Record -> Option<string>)
    | UnknownBubble

  /** What closing a visible bubble does. */
  datatype CloseAction =
    | ClearKeys(keys: seq<string>)
    | CallHandleClose

  /** The record with every listed key set to `undefined` and every other key as it was. */
  function Cleared(filters: Record, keys: seq<string>): (r: Record)
    ensures forall i :: 0 <= i < |keys| ==> keys[i] in r && r[keys[i]] == JsUndefined
    ensures forall k :: k !in keys ==> (k in r <==> k in filters) && (k in filters ==> r[k] == filters[k])
  {
    map k | k in filters.Keys + (set i | 0 <= i < |keys| :: keys[i])
      :: if k in keys then JsUndefined else filters[k]
  }

  /** `removeFilters`: copies the record and sets each listed key to `undefined`, one after the other. */
  method RemoveFilters(prev: Record, keys: seq<string>) returns (updated: Record)
    ensures updated == Cleared(prev, keys)
  {
    updated := prev;
    var i := 0;
    while i < |keys|
      invariant 0 <= i <= |keys|
      invariant updated == Cleared(prev, keys[..i])
    {
      assert keys[..i + 1] == keys[..i] + [keys[i]];
      ClearedSnoc(prev, keys[..i], keys[i]);
      updated := updated[keys[i] := JsUndefined];
      i := i + 1;
    }
    assert keys[..i] == keys;
  }

  /** Clearing one more key is setting it to `undefined`. */
  lemma ClearedSnoc(filters: Record, keys: seq<string>, key: string)
    ensures Cleared(filters, keys + [key]) == Cleared(filters, keys)[key := JsUndefined]
  {
    var a := Cleared(filters, keys + [key]);
    var b := Cleared(filters, keys)[key := JsUndefined];
    assert (keys + [key])[|keys|] == key;
    assert forall k :: k in keys + [key] <==> k in keys || k == key;
    assert forall i :: 0 <= i < |keys| ==> (keys + [key])[i] == keys[i];
    assert a.Keys == b.Keys;
    assert forall k :: k in a ==> a[k] == b[k];
  }

  /** Clearing keys never touches a key outside the list, and clearing twice is clearing once. */
  lemma ClearedIdempotent(filters: Record, keys: seq<string>)
    ensures Cleared(Cleared(filters, keys), keys) == Cleared(filters, keys)
  {
  }

  /** Whether the bubble shows for the current filters, and if so what closing it does. */
  function BubbleFor(config: BubbleConfig, filters: Record): (r: Option<CloseAction>)
    ensures config.RangeBubble? ==>
              (r.None? <==> !Truthy(Field(filters, config.beginKey)) && !Truthy(Field(filters, config.endKey)))
              && (r.Some? ==> r.value == ClearKeys([config.beginKey, config.endKey]))
    ensures config.SingleBubble? ==>
              (r.None? <==> !Truthy(Field(filters, config.key)))
              && (r.Some? ==> r.value == ClearKeys([config.key]))
    ensures config.ListBubble? ==>
              (r.Some? <==> Field(filters, config.listKey).JsArray?
                            && |Field(filters, config.listKey).items| > 0
                            && Truthy(Field(filters, config.filterTypeKey)))
              && (r.Some? ==> r.value == ClearKeys([config.listKey]))
    ensures config.CustomBubble? ==>
              (r.Some? <==> TruthyString(config.render(filters)))
              && (r.Some? ==> r.value == CallHandleClose)
    ensures config.UnknownBubble? ==> r.None?
  {
    match config
    case RangeBubble(_, beginKey, endKey) =>
      if !Truthy(Field(filters, beginKey)) && !Truthy(Field(filters, endKey)) then None
      else Some(ClearKeys([beginKey, endKey]))
    case SingleBubble(_, key) =>
      if !Truthy(Field(filters, key)) then None else Some(ClearKeys([key]))
    case ListBubble(_, listKey, filterTypeKey) =>
      var items := Field(filters, listKey);
      if !items.JsArray? || |items.items| == 0 || !Truthy(Field(filters, filterTypeKey)) then None
      else Some(ClearKeys([listKey]))
    case CustomBubble(_, render) =>
      if !TruthyString(render(filters)) then None else Some(CallHandleClose)
    case UnknownBubble => None
  }

  /** Closing a range, single or list bubble hides it. */
  lemma ClosingHidesBubble(config: BubbleConfig, filters: Record)
    requires !config.CustomBubble?
    requires BubbleFor(config, filters).Some?
    ensures BubbleFor(config, Cleared(filters, BubbleFor(config, filters).value.keys)).None?
  {
  }

  /** Closing a list bubble clears the list but keeps its operator. */
  lemma ClosingListKeepsOperator(caption: string, listKey: string, filterTypeKey: string, filters: Record)
    requires listKey != filterTypeKey
    ensures Field(Cleared(filters, [listKey]), filterTypeKey) == Field(filters, filterTypeKey)
  {
  }

  /** The bubbles of a whole configuration, in configuration order. */
  function Bubbles(configs: seq<BubbleConfig>, filters: Record): (r: seq<CloseAction>)
    ensures |r| <= |configs|
    ensures forall c :: c in configs && BubbleFor(c, filters).Some? ==> BubbleFor(c, filters).value in r
    ensures forall a :: a in r ==> exists c :: c in configs && BubbleFor(c, filters) == Some(a)
  {
    if |configs| == 0 then []
    else
      var head := if BubbleFor(configs[0], filters).Some? then [BubbleFor(configs[0], filters).value] else [];
      var rest := Bubbles(configs[1..], filters);
      assert forall c :: c in configs[1..] ==> c in configs;
      head + rest
  }

  /** One entry gives its own bubble when visible and nothing otherwise. */
  lemma BubblesOfOne(config: BubbleConfig, filters: Record)
    ensures Bubbles([config], filters) == if BubbleFor(config, filters).Some? then [BubbleFor(config, filters).value] else []
  {
    assert [config][1..] == [];
  }

  /**
   * The bubbles of two configurations are those of the first followed by those
   * of the second; with `BubblesOfOne`, each entry contributes at most one
   * bubble, in configuration order.
   */
  lemma {:induction false} BubblesAppend(a: seq<BubbleConfig>, b: seq<BubbleConfig>, filters: Record)
    ensures Bubbles(a + b, filters) == Bubbles(a, filters) + Bubbles(b, filters)
  {
    if |a| == 0 {
      assert a + b == b;
    } else {
      assert (a + b)[0] == a[0];
      assert (a + b)[1..] == a[1..] + b;
      BubblesAppend(a[1..], b, filters);
    }
  }
}
