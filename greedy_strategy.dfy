/**
 * GreedyStrategy: head for the item with the best value per unit of distance,
 * the distance being clamped below at 0.1 so that nothing divides by zero.
 */
module GreedyStrategy {
  import opened Wrappers
  import opened Domain
  import opened Selection
  import DPStrategy

  const MinDistance: real := 0.1

  /** `if (dist < 0.1f) dist = 0.1f;`: the divisor is the larger of the distance and 0.1. */
  function ClampDistance(dist: real): (d: real)
    ensures d >= MinDistance && d >= dist
    ensures d == dist || d == MinDistance
  {
    if dist < MinDistance then MinDistance else dist
  }

  /**
   * The score of an item; `distTo` gives the distance from the player to a point
   * (`Vector2.Distance`, single-precision square root, is not part of this model).
   */
  function Score(item: Item, distTo: Vec2 -> real): (s: real)
    ensures distTo(item.position) <= MinDistance ==> s == 10.0 * item.eventData.value as real
    ensures item.eventData.value >= 0 ==> 0.0 <= s <= 10.0 * item.eventData.value as real
  {
    var d := ClampDistance(distTo(item.position));
    QuotientBound(if item.eventData.value >= 0 then item.eventData.value as real else 0.0, d);
    item.eventData.value as real / d
  }

  /** Dividing a non-negative amount by at least 0.1 multiplies it by at most 10. */
  lemma QuotientBound(a: real, d: real)
    requires 0.0 <= a && d >= MinDistance
    ensures 0.0 <= a / d <= 10.0 * a
  {
    var q := a / d;
    assert q * d == a;
    assert q >= 0.0;
    assert q * (d - MinDistance) >= 0.0;
  }

  /** Every score lies above float.MinValue, the loop's starting `maxScore`. */
  lemma ScoreAboveSentinel(item: Item, distTo: Vec2 -> real)
    ensures Score(item, distTo) > FloatMinValue
  {
    var v := item.eventData.value as real;
    var d := ClampDistance(distTo(item.position));
    if v < 0.0 {
      QuotientBound(-v, d);
      assert v / d == -(-v / d);
    } else {
      QuotientBound(v, d);
    }
  }

  function ScoreKey(distTo: Vec2 -> real): Item -> real {
    item => Score(item, distTo)
  }

  function ChosenIndex(allItems: seq<Option<Item>>, distTo: Vec2 -> real): Option<nat> {
    FirstArgMax(Keys(allItems, ScoreKey(distTo)))
  }

  function Target(allItems: seq<Option<Item>>, distTo: Vec2 -> real): Option<Item> {
    Pick(allItems, ScoreKey(distTo))
  }

  /**
   * CalculateMove: for each non-null item clamp its distance, score it, keep it
   * when its score is strictly above `maxScore` (which starts at float.MinValue).
   */
  method CalculateMove(allItems: seq<Option<Item>>, distTo: Vec2 -> real) returns (move: Direction)
    ensures move == Aim(Target(allItems, distTo))
  {
    var key := ScoreKey(distTo);
    var bestTarget: Option<Item> := None;
    var maxScore: real := FloatMinValue;
    ghost var best: Option<nat> := None;
    for i := 0 to |allItems|
      invariant best == FirstArgMax(Keys(allItems[..i], key))
      invariant best.Some? ==> best.value < i
      invariant bestTarget == if best.None? then None else allItems[best.value]
      invariant maxScore == if best.None? then FloatMinValue else key(allItems[best.value].value)
    {
      KeysPrefix(allItems, key, i);
      KeysPrefix(allItems, key, i + 1);
      assert Keys(allItems[..i + 1], key)[..i] == Keys(allItems[..i], key);
      if allItems[i].None? {
        continue;
      }
      var item := allItems[i].value;
      var dist := distTo(item.position);
      if dist < MinDistance {
        dist := MinDistance;
      }
      var score := item.eventData.value as real / dist;
      ScoreAboveSentinel(item, distTo);
      if score > maxScore {
        maxScore := score;
        bestTarget := Some(item);
        best := Some(i);
      }
    }
    assert allItems[..|allItems|] == allItems;
    if bestTarget.Some? {
      move := Toward(bestTarget.value);
    } else {
      move := Zero;
    }
  }

  /** No target exactly when every entry is null (an empty list included). */
  lemma NoTargetIffAllNull(allItems: seq<Option<Item>>, distTo: Vec2 -> real)
    ensures Target(allItems, distTo).None? <==> forall j | 0 <= j < |allItems| :: allItems[j].None?
  {
    FirstArgMaxNoneIffAllNull(Keys(allItems, ScoreKey(distTo)));
  }

  /**
   * Entry `k` is chosen exactly when it is non-null, its score is at least that of
   * every non-null item, and every non-null item before it scores less.
   */
  lemma ChosenIsFirstBestScore(allItems: seq<Option<Item>>, distTo: Vec2 -> real, k: nat)
    ensures ChosenIndex(allItems, distTo) == Some(k) <==>
      && k < |allItems| && allItems[k].Some?
      && (forall j | 0 <= j < |allItems| && allItems[j].Some? ::
            Score(allItems[j].value, distTo) <= Score(allItems[k].value, distTo))
      && (forall j | 0 <= j < k && allItems[j].Some? ::
            Score(allItems[j].value, distTo) < Score(allItems[k].value, distTo))
  {
    FirstArgMaxCharacterised(Keys(allItems, ScoreKey(distTo)), k);
  }

  /** Two items both closer than 0.1 are ranked by value alone. */
  lemma CloseItemsRankedByValue(a: Item, b: Item, distTo: Vec2 -> real)
    requires distTo(a.position) < MinDistance && distTo(b.position) < MinDistance
    ensures Score(a, distTo) < Score(b, distTo) <==> a.eventData.value < b.eventData.value
  {
  }

  /** When every item is closer than 0.1, Greedy picks the same item as the max-value pass. */
  lemma AllCloseAgreesWithDP(allItems: seq<Option<Item>>, distTo: Vec2 -> real)
    requires forall i | 0 <= i < |allItems| && allItems[i].Some? ::
      distTo(allItems[i].value.position) < MinDistance
    ensures ChosenIndex(allItems, distTo) == DPStrategy.ChosenIndex(allItems)
  {
    var a := Keys(allItems, ScoreKey(distTo));
    var b := Keys(allItems, DPStrategy.ValueKey);
    forall i, j | 0 <= i < |a| && 0 <= j < |a| && a[i].Some? && a[j].Some?
      ensures a[i].value < a[j].value <==> b[i].value < b[j].value
    {
      CloseItemsRankedByValue(allItems[i].value, allItems[j].value, distTo);
    }
    FirstArgMaxSameOrder(a, b);
  }
}
