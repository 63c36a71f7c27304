/**
 * AISystem: once per frame, unless the game is paused, ask the current
 * strategy for a move and hand it to the player; the number keys 1 to 3 and
 * the level-up buttons replace the strategy.
 */
module AI {
  import opened Wrappers
  import opened Domain
  import opened Strategies
  import BT = BacktrackStrategy
  import Player
  import Map

  /** The keys that switch strategy: Alpha1 manual, Alpha2 greedy, Alpha3 backtrack. */
  datatype Key = Alpha1 | Alpha2 | Alpha3

  /**
   * The strategy left by the three key checks, run in the order 1, 2, 3 with each
   * pressed key replacing the strategy: the last pressed key in that order wins.
   */
  function KeySwitch(keysDown: set<Key>): (r: Option<StrategyKind>)
    ensures r.None? <==> keysDown == {}
    ensures r == Some(BacktrackKind) <==> Alpha3 in keysDown
    ensures r == Some(GreedyKind) <==> Alpha2 in keysDown && Alpha3 !in keysDown
    ensures r == Some(ManualKind) <==> keysDown == {Alpha1}
    ensures r != Some(DPKind)
  {
    if Alpha3 in keysDown then Some(BacktrackKind)
    else if Alpha2 in keysDown then Some(GreedyKind)
    else if Alpha1 in keysDown then
      assert keysDown == {Alpha1} by {
        forall k | k in keysDown ensures k == Alpha1 {
        }
      }
      Some(ManualKind)
    else
      assert keysDown == {} by {
        assert forall k | k in keysDown :: k == Alpha1 || k == Alpha2 || k == Alpha3;
      }
      None
  }

  /** The list the strategy is given: the map's spawned items, or an empty list without a map. */
  function PerceivedItems(mapSystem: Map.MapSystem?): (items: seq<Option<Item>>)
    reads mapSystem
    ensures mapSystem == null ==> items == []
    ensures mapSystem != null ==> items == mapSystem.spawnedItems
  {
    if mapSystem != null then mapSystem.spawnedItems else []
  }

  /** A fresh instance of a strategy class. */
  method NewStrategy(kind: StrategyKind) returns (s: Strategy)
    ensures s.Kind() == kind
    ensures s.Backtrack? ==> fresh(s.state) && s.state.thinkTimer == 0.0
  {
    match kind
    case ManualKind => s := Manual;
    case GreedyKind => s := Greedy;
    case DPKind => s := DP;
    case BacktrackKind =>
      var b := new BT.BacktrackStrategy();
      s := Backtrack(b);
  }

  class AISystem {
    var player: Player.PlayerEntity?
    var mapSystem: Map.MapSystem?
    /** The strategy in use; None until `Start` runs. */
    var currentStrategy: Option<Strategy>

    constructor (player: Player.PlayerEntity?, mapSystem: Map.MapSystem?)
      ensures this.player == player && this.mapSystem == mapSystem
      ensures currentStrategy == None
    {
      this.player := player;
      this.mapSystem := mapSystem;
      currentStrategy := None;
    }

    /** The default strategy is manual control. */
    method Start()
      modifies this
      ensures currentStrategy == Some(Manual)
      ensures player == old(player) && mapSystem == old(mapSystem)
    {
      SetStrategy(Manual);
    }

    /** Replace the current strategy. */
    method SetStrategy(newStrategy: Strategy)
      modifies this
      ensures currentStrategy == Some(newStrategy)
      ensures player == old(player) && mapSystem == old(mapSystem)
    {
      currentStrategy := Some(newStrategy);
    }

    /**
     * The strategy buttons: the four known names install a fresh instance of the
     * matching class (a fresh Backtrack has not thought yet); any other name
     * leaves the current strategy as it was.
     */
    method SetStrategyByName(name: string)
      modifies this
      ensures Lookup(name).None? ==> currentStrategy == old(currentStrategy)
      ensures Lookup(name).Some? ==>
        && currentStrategy.Some? && currentStrategy.value.Kind() == Lookup(name).value
        && (currentStrategy.value.Backtrack? ==>
              fresh(currentStrategy.value.state) && currentStrategy.value.state.thinkTimer == 0.0)
      ensures player == old(player) && mapSystem == old(mapSystem)
    {
      var kind := Lookup(name);
      if kind.Some? {
        var s := NewStrategy(kind.value);
        SetStrategy(s);
      }
    }

    /**
     * One frame. `instancePaused` is the GameManager's pause flag, None when there
     * is no GameManager; `dt` is the frame time, `axes` the keyboard axes, `distTo`
     * the distance from the player to a point and `keysDown` the keys pressed this frame.
     */
    method Update(instancePaused: Option<bool>, dt: real, axes: Vec2, distTo: Vec2 -> real, keysDown: set<Key>)
      modifies this, player, Footprint(currentStrategy)
      ensures player == old(player) && mapSystem == old(mapSystem)
      // Without a running game: stop the player, leave the strategy alone.
      ensures instancePaused != Some(false) ==>
        && currentStrategy == old(currentStrategy)
        && unchanged(Footprint(currentStrategy))
        && (player != null ==> player.moveInput == Zero)
      // Nobody to steer or nothing to steer with: nothing happens.
      ensures instancePaused == Some(false) && (player == null || old(currentStrategy).None?) ==>
        && currentStrategy == old(currentStrategy)
        && unchanged(Footprint(currentStrategy))
        && (player != null ==> unchanged(player))
      // Otherwise the old strategy moves the player, then the keys may replace it.
      ensures instancePaused == Some(false) && player != null && old(currentStrategy).Some? ==>
        && player.moveInput == Decide(old(currentStrategy).value.Kind(), old(Timer(currentStrategy.value)),
                                      PerceivedItems(mapSystem), dt, axes, distTo)
        && (forall b: BT.BacktrackStrategy | old(currentStrategy) == Some(Backtrack(b)) ::
              b.thinkTimer == BT.ThinkStep(old(b.thinkTimer), dt).timer)
        && (KeySwitch(keysDown).None? ==> currentStrategy == old(currentStrategy))
        && (KeySwitch(keysDown).Some? ==>
              currentStrategy.Some? && currentStrategy.value.Kind() == KeySwitch(keysDown).value)
        && (KeySwitch(keysDown) == Some(BacktrackKind) ==>
              fresh(currentStrategy.value.state) && currentStrategy.value.state.thinkTimer == 0.0)
      ensures player != null ==>
        && player.backpack == old(player.backpack) && player.position == old(player.position)
        && player.velocity == old(player.velocity)
        && player.currentWeight == old(player.currentWeight) && player.currentValue == old(player.currentValue)
        && player.currentStress == old(player.currentStress) && player.maxWeight == old(player.maxWeight)
    {
      if instancePaused.None? || instancePaused.value {
        if player != null {
          player.moveInput := Zero;
        }
        return;
      }
      if player == null || currentStrategy.None? {
        return;
      }
      var items := if mapSystem != null then mapSystem.spawnedItems else [];
      var intention := CalculateMove(currentStrategy.value, items, dt, axes, distTo);
      player.moveInput := intention;
      if Alpha1 in keysDown {
        SetStrategy(Manual);
      }
      if Alpha2 in keysDown {
        SetStrategy(Greedy);
      }
      if Alpha3 in keysDown {
        var b := new BT.BacktrackStrategy();
        SetStrategy(Backtrack(b));
      }
    }
  }
}
