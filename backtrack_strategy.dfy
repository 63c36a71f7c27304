/**
 * BacktrackStrategy: "thinks" for about a second between moves, then heads for
 * the item with the least stress. Its only state is `thinkTimer`.
 */
module BacktrackStrategy {
  import opened Wrappers
  import opened Domain
  import opened Selection

  /** Below this the strategy is still thinking. */
  const DecideThreshold: real := 1.0
  /** Above this the timer starts over from zero. */
  const ResetThreshold: real := 1.2

  /** The timer after one call and whether that call decides on a target. */
  datatype ThinkOutcome = ThinkOutcome(timer: real, deciding: bool)

  /**
   * One call's effect on `thinkTimer`: add the tick time; below 1 keep thinking;
   * otherwise decide, and start over from 0 only when the timer has passed 1.2.
   */
  function ThinkStep(timer: real, dt: real): (r: ThinkOutcome)
    ensures r.deciding <==> timer + dt >= DecideThreshold
    ensures r.timer == timer + dt || (r.deciding && r.timer == 0.0)
    ensures r.timer == 0.0 && timer + dt != 0.0 <==> timer + dt > ResetThreshold
    ensures 0.0 <= timer <= ResetThreshold && 0.0 <= dt ==> 0.0 <= r.timer <= ResetThreshold
  {
    var t := timer + dt;
    if t < DecideThreshold then ThinkOutcome(t, false)
    else ThinkOutcome(if t > ResetThreshold then 0.0 else t, true)
  }

  /** The timer after a run of calls with tick times `dts`. */
  function TimerAfter(timer: real, dts: seq<real>): real
    decreases |dts|
  {
    if |dts| == 0 then timer else TimerAfter(ThinkStep(timer, dts[0]).timer, dts[1..])
  }

  /** From a fresh strategy, with non-negative tick times, the timer stays within [0, 1.2]. */
  lemma {:induction false} TimerStaysInRange(timer: real, dts: seq<real>)
    requires 0.0 <= timer <= ResetThreshold
    requires forall i | 0 <= i < |dts| :: dts[i] >= 0.0
    ensures 0.0 <= TimerAfter(timer, dts) <= ResetThreshold
    decreases |dts|
  {
    if |dts| > 0 {
      TimerStaysInRange(ThinkStep(timer, dts[0]).timer, dts[1..]);
    }
  }

  /** Strict `<` on stress is strict `>` on its negation: the pass is the shared fold on -stress. */
  function CalmKey(item: Item): real {
    -(item.eventData.stress as real)
  }

  function ChosenIndex(allItems: seq<Option<Item>>): Option<nat> {
    FirstArgMax(Keys(allItems, CalmKey))
  }

  function Target(allItems: seq<Option<Item>>): Option<Item> {
    Pick(allItems, CalmKey)
  }

  /** What a call returns, given the timer it starts from. */
  function MoveOf(timer: real, dt: real, allItems: seq<Option<Item>>): (move: Direction)
    ensures !ThinkStep(timer, dt).deciding ==> move == Zero
    ensures move.Toward? ==> Some(move.target) in allItems
    ensures ThinkStep(timer, dt).deciding ==>
      (move == Zero <==> forall j | 0 <= j < |allItems| :: allItems[j].None?)
  {
    if ThinkStep(timer, dt).deciding then
      NoTargetIffAllNull(allItems);
      Aim(Target(allItems))
    else Zero
  }

  class BacktrackStrategy {
    var thinkTimer: real

    constructor ()
      ensures thinkTimer == 0.0
    {
      thinkTimer := 0.0;
    }

    /**
     * CalculateMove: advance the timer by `dt` (Time.deltaTime); while it is below 1
     * return zero without looking at the items; otherwise reset it if it passed 1.2
     * and aim at the first item of least stress.
     */
    method CalculateMove(allItems: seq<Option<Item>>, dt: real) returns (move: Direction)
      modifies this
      ensures thinkTimer == ThinkStep(old(thinkTimer), dt).timer
      ensures move == MoveOf(old(thinkTimer), dt, allItems)
    {
      thinkTimer := thinkTimer + dt;
      if thinkTimer < DecideThreshold {
        return Zero;
      }
      if thinkTimer > ResetThreshold {
        thinkTimer := 0.0;
      }
      var bestTarget: Option<Item> := None;
      var minStress: real := FloatMaxValue;
      ghost var best: Option<nat> := None;
      for i := 0 to |allItems|
        invariant thinkTimer == ThinkStep(old(thinkTimer), dt).timer
        invariant best == FirstArgMax(Keys(allItems[..i], CalmKey))
        invariant best.Some? ==> best.value < i
        invariant bestTarget == if best.None? then None else allItems[best.value]
        invariant minStress == if best.None? then FloatMaxValue else allItems[best.value].value.eventData.stress as real
      {
        KeysPrefix(allItems, CalmKey, i);
        KeysPrefix(allItems, CalmKey, i + 1);
        assert Keys(allItems[..i + 1], CalmKey)[..i] == Keys(allItems[..i], CalmKey);
        if allItems[i].None? {
          continue;
        }
        var item := allItems[i].value;
        Int32WithinSentinels(item.eventData.stress);
        if (item.eventData.stress as real) < minStress {
          minStress := item.eventData.stress as real;
          bestTarget := Some(item);
          best := Some(i);
        }
      }
      assert allItems[..|allItems|] == allItems;
      if bestTarget.Some? {
        move := Toward(bestTarget.value);
      } else {
        move := Zero;
      }
    }
  }

  /** On a deciding call, no target exactly when every entry is null. */
  lemma NoTargetIffAllNull(allItems: seq<Option<Item>>)
    ensures Target(allItems).None? <==> forall j | 0 <= j < |allItems| :: allItems[j].None?
  {
    FirstArgMaxNoneIffAllNull(Keys(allItems, CalmKey));
  }

  /**
   * Entry `k` is chosen exactly when it is non-null, its stress is at most that of
   * every non-null item, and every non-null item before it has more stress.
   */
  lemma ChosenIsFirstLeastStress(allItems: seq<Option<Item>>, k: nat)
    ensures ChosenIndex(allItems) == Some(k) <==>
      && k < |allItems| && allItems[k].Some?
      && (forall j | 0 <= j < |allItems| && allItems[j].Some? ::
            allItems[k].value.eventData.stress <= allItems[j].value.eventData.stress)
      && (forall j | 0 <= j < k && allItems[j].Some? ::
            allItems[k].value.eventData.stress < allItems[j].value.eventData.stress)
  {
    FirstArgMaxCharacterised(Keys(allItems, CalmKey), k);
  }

  /** A call that is still thinking returns zero whatever the items are. */
  lemma ThinkingIgnoresItems(timer: real, dt: real, a: seq<Option<Item>>, b: seq<Option<Item>>)
    requires timer + dt < DecideThreshold
    ensures MoveOf(timer, dt, a) == MoveOf(timer, dt, b) == Zero
  {
  }
}
