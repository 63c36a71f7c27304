/**
 * DPStrategy: despite its name, a single pass that heads for the item with the
 * highest `value`, whatever its distance, weight or stress.
 */
module DPStrategy {
  import opened Wrappers
  import opened Domain
  import opened Selection

  /** The quantity the pass compares: the item's value as a float. */
  function ValueKey(item: Item): real {
    item.eventData.value as real
  }

  /** The index of the item the pass settles on. */
  function ChosenIndex(allItems: seq<Option<Item>>): Option<nat> {
    FirstArgMax(Keys(allItems, ValueKey))
  }

  /** The item the pass settles on. */
  function Target(allItems: seq<Option<Item>>): Option<Item> {
    Pick(allItems, ValueKey)
  }

  /**
   * CalculateMove: scan the list, skip null entries, keep an item whose value is
   * strictly above `maxVal` (which starts at float.MinValue), then aim at it.
   */
  method CalculateMove(allItems: seq<Option<Item>>) returns (move: Direction)
    ensures move == Aim(Target(allItems))
  {
    var bestTarget: Option<Item> := None;
    var maxVal: real := FloatMinValue;
    ghost var best: Option<nat> := None;
    for i := 0 to |allItems|
      invariant best == FirstArgMax(Keys(allItems[..i], ValueKey))
      invariant best.Some? ==> best.value < i
      invariant bestTarget == if best.None? then None else allItems[best.value]
      invariant maxVal == if best.None? then FloatMinValue else ValueKey(allItems[best.value].value)
    {
      KeysPrefix(allItems, ValueKey, i);
      KeysPrefix(allItems, ValueKey, i + 1);
      assert Keys(allItems[..i + 1], ValueKey)[..i] == Keys(allItems[..i], ValueKey);
      if allItems[i].None? {
        continue;
      }
      var item := allItems[i].value;
      Int32WithinSentinels(item.eventData.value);
      if item.eventData.value as real > maxVal {
        maxVal := item.eventData.value as real;
        bestTarget := Some(item);
        best := Some(i);
      }
    }
    assert allItems[..|allItems|] == allItems;
    if bestTarget.Some? {
      move := Toward(bestTarget.value);
    } else {
      move := Zero;
    }
  }

  /** No target exactly when every entry is null (an empty list included). */
  lemma NoTargetIffAllNull(allItems: seq<Option<Item>>)
    ensures Target(allItems).None? <==> forall j | 0 <= j < |allItems| :: allItems[j].None?
  {
    FirstArgMaxNoneIffAllNull(Keys(allItems, ValueKey));
  }

  /**
   * Entry `k` is chosen exactly when it is non-null, its value is at least that of
   * every non-null item, and every non-null item before it has a smaller value.
   */
  lemma ChosenIsFirstHighestValue(allItems: seq<Option<Item>>, k: nat)
    ensures ChosenIndex(allItems) == Some(k) <==>
      && k < |allItems| && allItems[k].Some?
      && (forall j | 0 <= j < |allItems| && allItems[j].Some? ::
            allItems[j].value.eventData.value <= allItems[k].value.eventData.value)
      && (forall j | 0 <= j < k && allItems[j].Some? ::
            allItems[j].value.eventData.value < allItems[k].value.eventData.value)
  {
    FirstArgMaxCharacterised(Keys(allItems, ValueKey), k);
  }

  /** Two lists with nulls in the same places and the same values give the same choice. */
  lemma ChoiceDependsOnlyOnValues(a: seq<Option<Item>>, b: seq<Option<Item>>)
    requires |a| == |b|
    requires forall i | 0 <= i < |a| :: a[i].Some? == b[i].Some?
    requires forall i | 0 <= i < |a| && a[i].Some? ::
      a[i].value.eventData.value == b[i].value.eventData.value
    ensures ChosenIndex(a) == ChosenIndex(b)
  {
    FirstArgMaxSameOrder(Keys(a, ValueKey), Keys(b, ValueKey));
  }
}
