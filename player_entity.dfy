/**
 * PlayerEntity: the backpack of collected life events with its three running
 * totals, the movement signal written by the AI, and the clamp that pulls the
 * player back inside the map after each frame.
 */
module Player {
  import opened Wrappers
  import opened Domain
  import opened Lists

  datatype Stat = Weight | Value | Stress

  function StatOf(e: LifeEvent, stat: Stat): int {
    match stat
    case Weight => e.weight as int
    case Value => e.value as int
    case Stress => e.stress as int
  }

  /** The sum of one stat over a list of life events. */
  function Total(s: seq<LifeEvent>, stat: Stat): int {
    if |s| == 0 then 0 else StatOf(s[0], stat) + Total(s[1..], stat)
  }

  /** Appending an event adds its stat to the sum. */
  lemma {:induction false} TotalAppend(s: seq<LifeEvent>, e: LifeEvent, stat: Stat)
    ensures Total(s + [e], stat) == Total(s, stat) + StatOf(e, stat)
  {
    if |s| > 0 {
      assert (s + [e])[1..] == s[1..] + [e];
      TotalAppend(s[1..], e, stat);
    }
  }

  /** Removing one occurrence of an event that is present subtracts its stat from the sum. */
  lemma {:induction false} TotalRemoveFirst(s: seq<LifeEvent>, e: LifeEvent, stat: Stat)
    requires e in s
    ensures Total(RemoveFirst(s, e), stat) == Total(s, stat) - StatOf(e, stat)
  {
    if s[0] != e {
      assert e in s[1..];
      TotalRemoveFirst(s[1..], e, stat);
    }
  }

  /**
   * Adding an event and then removing it gives back the same contents (as a
   * multiset: an earlier copy of the event may be the one removed) and the same sums.
   */
  lemma AddThenRemoveRestores(s: seq<LifeEvent>, e: LifeEvent, stat: Stat)
    ensures multiset(RemoveFirst(s + [e], e)) == multiset(s)
    ensures Total(RemoveFirst(s + [e], e), stat) == Total(s, stat)
  {
    assert e in s + [e];
    RemoveFirstMultiset(s + [e], e);
    TotalRemoveFirst(s + [e], e, stat);
    TotalAppend(s, e, stat);
  }

  /** The map size used when no GameManager or MapSystem is there to ask. */
  const DefaultMapSize := Vec2(20.0, 15.0)
  /** The clamp lets the player stand this far outside the map before stepping in. */
  const BoundsSlack: real := 1.0
  /** Unity compares vectors up to this distance. */
  const VectorEpsilon: real := 0.00001

  /** `Mathf.Clamp`: below `min` gives `min`, otherwise above `max` gives `max`. */
  function Clamp(v: real, min: real, max: real): (r: real)
    ensures min <= max ==> min <= r <= max
    ensures min <= v <= max ==> r == v
  {
    if v < min then min else if v > max then max else v
  }

  function HalfExtent(size: real): real {
    size / 2.0 + BoundsSlack
  }

  /** The bounds LateUpdate uses: the map size when it can be read, 20 x 15 otherwise. */
  function BoundsSize(mapSize: Option<Vec2>): (size: Vec2)
    ensures mapSize.None? ==> size == DefaultMapSize
    ensures mapSize.Some? ==> size == mapSize.value
  {
    if mapSize.Some? then mapSize.value else DefaultMapSize
  }

  predicate InBounds(p: Vec2, size: Vec2) {
    && -HalfExtent(size.x) <= p.x <= HalfExtent(size.x)
    && -HalfExtent(size.y) <= p.y <= HalfExtent(size.y)
  }

  /** Both coordinates clamped to the widened map rectangle. */
  function ClampToMap(p: Vec2, size: Vec2): (r: Vec2)
    ensures size.x >= -2.0 && size.y >= -2.0 ==> InBounds(r, size)
    ensures InBounds(p, size) ==> r == p
  {
    Vec2(Clamp(p.x, -HalfExtent(size.x), HalfExtent(size.x)),
         Clamp(p.y, -HalfExtent(size.y), HalfExtent(size.y)))
  }

  function SqrDistance(a: Vec2, b: Vec2): real {
    (a.x - b.x) * (a.x - b.x) + (a.y - b.y) * (a.y - b.y)
  }

  /** Unity's `==` on vectors: squared distance below 1e-10. */
  function ApproxEqual(a: Vec2, b: Vec2): (eq: bool)
    ensures a == b ==> eq
    ensures (a.x - b.x) * (a.x - b.x) >= VectorEpsilon * VectorEpsilon ==> !eq
    ensures (a.y - b.y) * (a.y - b.y) >= VectorEpsilon * VectorEpsilon ==> !eq
  {
    SqrDistance(a, b) < VectorEpsilon * VectorEpsilon
  }

  /** The position LateUpdate leaves: the clamped one, unless Unity deems it equal to the old one. */
  function Settled(p: Vec2, size: Vec2): (r: Vec2)
    ensures r == p || r == ClampToMap(p, size)
  {
    var c := ClampToMap(p, size);
    if ApproxEqual(p, c) then p else c
  }

  /**
   * After LateUpdate the player is inside the widened map, or within Unity's
   * vector tolerance of its clamped position; a second LateUpdate changes nothing;
   * a position already inside is left as it is.
   */
  lemma SettledIsInsideAndStable(p: Vec2, size: Vec2)
    requires size.x >= -2.0 && size.y >= -2.0
    ensures InBounds(Settled(p, size), size) || ApproxEqual(Settled(p, size), ClampToMap(Settled(p, size), size))
    ensures Settled(Settled(p, size), size) == Settled(p, size)
    ensures InBounds(p, size) ==> Settled(p, size) == p
  {
    var c := ClampToMap(p, size);
    assert ClampToMap(c, size) == c;
    assert SqrDistance(c, c) == 0.0;
  }

  class PlayerEntity {
    var currentWeight: int
    var currentValue: int
    var currentStress: int
    var maxWeight: int
    var backpack: seq<LifeEvent>
    /** The direction the AI (or the keyboard) writes; StatsSystem moves the body along it. */
    var moveInput: Direction
    /** `transform.position`, ignoring z. */
    var position: Vec2
    /** `rb.velocity`. */
    var velocity: Vec2

    /** The three totals are the sums over the backpack. */
    ghost predicate Valid()
      reads this
    {
      && currentWeight == Total(backpack, Weight)
      && currentValue == Total(backpack, Value)
      && currentStress == Total(backpack, Stress)
    }

    constructor ()
      ensures Valid() && backpack == []
      ensures currentWeight == 0 && currentValue == 0 && currentStress == 0 && maxWeight == 50
      ensures moveInput == Zero && position == Origin && velocity == Origin
    {
      currentWeight, currentValue, currentStress := 0, 0, 0;
      maxWeight := 50;
      backpack := [];
      moveInput := Zero;
      position, velocity := Origin, Origin;
    }

    /** Append the event and add its three numbers to the totals; `maxWeight` is not checked. */
    method AddToBackpack(data: LifeEvent)
      modifies this
      ensures backpack == old(backpack) + [data]
      ensures currentWeight == old(currentWeight) + data.weight as int
      ensures currentValue == old(currentValue) + data.value as int
      ensures currentStress == old(currentStress) + data.stress as int
      ensures old(Valid()) ==> Valid()
      ensures maxWeight == old(maxWeight) && moveInput == old(moveInput)
      ensures position == old(position) && velocity == old(velocity)
    {
      backpack := backpack + [data];
      currentWeight := currentWeight + data.weight as int;
      currentValue := currentValue + data.value as int;
      currentStress := currentStress + data.stress as int;
      TotalAppend(old(backpack), data, Weight);
      TotalAppend(old(backpack), data, Value);
      TotalAppend(old(backpack), data, Stress);
    }

    /** Remove the first copy of the event and subtract its numbers; an absent event changes nothing. */
    method RemoveFromBackpack(data: LifeEvent)
      modifies this
      ensures data !in old(backpack) ==> unchanged(this)
      ensures data in old(backpack) ==>
        && backpack == RemoveFirst(old(backpack), data)
        && currentWeight == old(currentWeight) - data.weight as int
        && currentValue == old(currentValue) - data.value as int
        && currentStress == old(currentStress) - data.stress as int
      ensures old(Valid()) ==> Valid()
      ensures maxWeight == old(maxWeight) && moveInput == old(moveInput)
      ensures position == old(position) && velocity == old(velocity)
    {
      if data in backpack {
        TotalRemoveFirst(backpack, data, Weight);
        TotalRemoveFirst(backpack, data, Value);
        TotalRemoveFirst(backpack, data, Stress);
        backpack := RemoveFirst(backpack, data);
        currentWeight := currentWeight - data.weight as int;
        currentValue := currentValue - data.value as int;
        currentStress := currentStress - data.stress as int;
      }
    }

    /** Put the player back at the origin, at rest and with no input (the start of a decade). */
    method Respawn()
      modifies this
      ensures position == Origin && velocity == Origin && moveInput == Zero
      ensures backpack == old(backpack) && maxWeight == old(maxWeight)
      ensures currentWeight == old(currentWeight) && currentValue == old(currentValue)
      ensures currentStress == old(currentStress)
    {
      position := Origin;
      velocity := Origin;
      moveInput := Zero;
    }

    /**
     * Clamp the position to the map widened by 1 on every side; when that moves
     * the player (by Unity's vector comparison), write it back and stop the body.
     * `mapSize` is the map's size when a GameManager with a MapSystem exists.
     */
    method LateUpdate(mapSize: Option<Vec2>)
      modifies this
      ensures position == Settled(old(position), BoundsSize(mapSize))
      ensures velocity == if position == old(position) then old(velocity) else Origin
      ensures backpack == old(backpack) && moveInput == old(moveInput)
      ensures currentWeight == old(currentWeight) && currentValue == old(currentValue)
      ensures currentStress == old(currentStress) && maxWeight == old(maxWeight)
    {
      var size := BoundsSize(mapSize);
      var halfW := size.x / 2.0 + BoundsSlack;
      var halfH := size.y / 2.0 + BoundsSlack;
      var pos := Vec2(Clamp(position.x, -halfW, halfW), Clamp(position.y, -halfH, halfH));
      if !ApproxEqual(position, pos) {
        position := pos;
        velocity := Origin;
      }
    }
  }
}
