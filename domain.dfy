/**
 * The game's data records: the life-event asset an item carries (LifeEvent_SO),
 * the item entity placed on the map (ItemEntity), 2D vectors and the movement
 * direction a strategy hands to the player (the IStrategy result).
 */
module Domain {
  import opened Wrappers

  /** C#'s `int`: the fields of a life event are 32-bit. */
  newtype Int32 = x: int | -0x8000_0000 <= x < 0x8000_0000

  /**
   * One life-event asset: `id` stands for the identity of the Unity asset, so two
   * distinct assets with the same name and numbers are different events; then its
   * name and the three numbers the game uses.
   */
  datatype LifeEvent = LifeEvent(id: nat, eventName: string, value: Int32, weight: Int32, stress: Int32)

  datatype Vec2 = Vec2(x: real, y: real)

  const Origin := Vec2(0.0, 0.0)

  /** One spawned item entity; `id` stands for the identity of the Unity object. */
  datatype Item = Item(id: nat, eventData: LifeEvent, position: Vec2)

  /**
   * What a strategy returns: raw axes (the manual strategy, and the zero vector
   * every strategy returns when it has no target) or the direction towards a
   * chosen item.
   */
  datatype Direction = Axes(x: real, y: real) | Toward(target: Item)

  const Zero: Direction := Axes(0.0, 0.0)

  /** `(target - player).normalized` when a target was chosen, `Vector2.zero` otherwise. */
  function Aim(target: Option<Item>): (d: Direction)
    ensures d == Zero <==> target.None?
    ensures target.Some? ==> d.Toward? && d.target == target.value
  {
    if target.Some? then Toward(target.value) else Zero
  }

  /** `float.MinValue` and `float.MaxValue`, the sentinels the strategy loops start from. */
  const FloatMinValue: real := -340282346638528859811704183484516925440.0
  const FloatMaxValue: real := 340282346638528859811704183484516925440.0

  /** Every 32-bit integer lies strictly between the two float sentinels. */
  lemma Int32WithinSentinels(v: Int32)
    ensures FloatMinValue < v as real < FloatMaxValue
  {
  }
}
