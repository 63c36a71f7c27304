/**
 * GameManager: the decade loop. A decade lasts 60 seconds of game time, which
 * runs faster under stress; too much stress or reaching 60 years ends the
 * game, otherwise the level-up panel offers a strategy for the next decade.
 * UI events are throttled by remembering what was last sent.
 */
module Game {
  import opened Wrappers
  import opened Domain
  import opened Lists
  import Player
  import Map
  import AI
  import UI
  import Strategies

  /** The age at which the game ends. */
  const FinalAge: int := 60
  /** Stress is divided by this in the time multiplier. */
  const StressScale: real := 50.0
  /** The time display is refreshed once the time has moved by more than this. */
  const TimeSendStep: real := 0.1

  /** Why the game ended (the messages shown are not modelled). */
  datatype Reason = StressOverload | OldAge

  /** What the EventManager broadcasts. */
  datatype GameEvent =
    | TimeChanged(time: real, age: int)
    | StatsChanged(value: int, weight: int, stress: int)
    | GameOverEvent(reason: Reason)

  function Abs(x: real): real {
    if x < 0.0 then -x else x
  }

  /** Game time runs `1 + stress / 50` times as fast as real time. */
  function TimeMultiplier(stress: int): (m: real)
    ensures stress >= 0 ==> m >= 1.0
    ensures stress <= 0 ==> m <= 1.0
  {
    1.0 + stress as real / StressScale
  }

  /** A non-negative factor at least 1 does not shrink a non-negative amount. */
  lemma ScaleAtLeast(dt: real, m: real)
    requires dt >= 0.0 && m >= 1.0
    ensures dt * m >= dt
  {
    assert dt * m - dt == dt * (m - 1.0);
  }

  /** The time left after a frame of `dt`: with no negative stress it drops by at least `dt`. */
  function Drained(time: real, dt: real, stress: int): (t: real)
    ensures dt >= 0.0 && stress >= 0 ==> t <= time - dt
  {
    var m := TimeMultiplier(stress);
    if dt >= 0.0 && stress >= 0 then ScaleAtLeast(dt, m); time - dt * m else time - dt * m
  }

  /** Stress strictly above the limit ends the game; stress equal to it does not. */
  function Overstressed(stress: int, stressLimit: real): (over: bool)
    ensures stressLimit == 100.0 ==> (over <==> stress >= 101)
  {
    stress as real > stressLimit
  }

  /** Whether the time event fires, and the time remembered as last sent afterwards. */
  datatype TimeSync = TimeSync(fire: bool, lastSent: real)

  function SyncTime(time: real, lastSent: real): (r: TimeSync)
    ensures r.fire <==> Abs(time - lastSent) > TimeSendStep
    ensures r.fire ==> r.lastSent == time
    ensures !r.fire ==> r.lastSent == lastSent
    ensures Abs(time - r.lastSent) <= TimeSendStep
  {
    if Abs(time - lastSent) > TimeSendStep then TimeSync(true, time) else TimeSync(false, lastSent)
  }

  /** Syncing twice with the same time sends nothing the second time. */
  lemma SyncTimeSettles(time: real, lastSent: real)
    ensures !SyncTime(time, SyncTime(time, lastSent).lastSent).fire
  {
  }

  /** The three stats shown in the UI. */
  datatype Stats = Stats(value: int, weight: int, stress: int)

  /** The stats event fires when any of the three differs from what was last sent. */
  function StatsChange(current: Stats, lastSent: Stats): (fire: bool)
    ensures fire <==> current != lastSent
  {
    current.value != lastSent.value || current.weight != lastSent.weight || current.stress != lastSent.stress
  }

  /** Whether the game is over at `age`. */
  function Retired(age: int): (over: bool)
    ensures over <==> age >= 60
    ensures over ==> forall b: UI.Button :: UI.Interactable(b, age)
  {
    age >= FinalAge
  }

  /** The age after one more decade: EndDecade adds the step. */
  function NextAge(age: int, step: int): (next: int)
    ensures step > 0 ==> next > age
  {
    age + step
  }

  /** The age after `k` decades of `step` years from the starting age 0. */
  function AgeAfter(k: nat, step: int): int {
    if k == 0 then 0 else NextAge(AgeAfter(k - 1, step), step)
  }

  lemma {:induction false} AgeAfterIsProduct(k: nat, step: int)
    ensures AgeAfter(k, step) == k * step
  {
    if k > 0 {
      AgeAfterIsProduct(k - 1, step);
    }
  }

  /** With the default 10-year step the game ends at the end of the sixth decade, not before. */
  lemma SixDecades(k: nat)
    ensures Retired(AgeAfter(k, 10)) <==> k >= 6
  {
    AgeAfterIsProduct(k, 10);
  }

  /** Every decade before the last shows the panel for its age; the fifth panel, at 50, offers all four strategies. */
  lemma PanelsBeforeRetirement(k: nat)
    requires 1 <= k <= 5
    ensures !Retired(AgeAfter(k, 10))
    ensures UI.UnlockedCount(AgeAfter(k, 10)) == (if k < 3 then k else 3) + 1
  {
    AgeAfterIsProduct(k, 10);
    UI.UnlockSchedule(k);
  }

  /** The stats a player has now. */
  function PlayerStats(p: Player.PlayerEntity): Stats
    reads p
  {
    Stats(p.currentValue, p.currentWeight, p.currentStress)
  }

  class GameManager {
    var currentAge: int
    var ageStep: int
    var timeLimit: real
    var stressLimit: real
    var timeRemaining: real
    var isPaused: bool
    var lastTimeSent: real
    var lastValueSent: int
    var lastWeightSent: int
    var lastStressSent: int
    var player: Player.PlayerEntity?
    var mapSystem: Map.MapSystem
    var aiSystem: AI.AISystem
    var uiManager: UI.UIManager
    /** Everything broadcast through the EventManager so far, oldest first. */
    ghost var events: seq<GameEvent>

    /** The inspector defaults. */
    constructor (player: Player.PlayerEntity?, mapSystem: Map.MapSystem, aiSystem: AI.AISystem, uiManager: UI.UIManager)
      ensures this.player == player && this.mapSystem == mapSystem
      ensures this.aiSystem == aiSystem && this.uiManager == uiManager
      ensures currentAge == 0 && ageStep == 10 && timeLimit == 60.0 && stressLimit == 100.0
      ensures timeRemaining == 0.0 && !isPaused && lastTimeSent == 0.0
      ensures LastStats() == Stats(0, 0, 0) && events == []
    {
      this.player := player;
      this.mapSystem := mapSystem;
      this.aiSystem := aiSystem;
      this.uiManager := uiManager;
      currentAge, ageStep, timeLimit, stressLimit := 0, 10, 60.0, 100.0;
      timeRemaining, isPaused, lastTimeSent := 0.0, false, 0.0;
      lastValueSent, lastWeightSent, lastStressSent := 0, 0, 0;
      events := [];
    }

    /** The stats last sent to the UI. */
    function LastStats(): Stats
      reads this
    {
      Stats(lastValueSent, lastWeightSent, lastStressSent)
    }

    /** The age resets to 0 and the first decade starts. */
    method Start(rng: nat -> Map.SpawnRoll)
      requires player != null
      modifies this, player, mapSystem, uiManager
      ensures player == old(player) && mapSystem == old(mapSystem)
      ensures aiSystem == old(aiSystem) && uiManager == old(uiManager)
      ensures currentAge == 0 && !isPaused
      ensures timeRemaining == timeLimit && lastTimeSent == timeLimit
      ensures ageStep == old(ageStep) && timeLimit == old(timeLimit) && stressLimit == old(stressLimit)
      ensures LastStats() == old(LastStats()) && events == old(events)
      ensures mapSystem.spawnedItems
        == Map.Spawns(Map.Leaves(Map.FullMap(mapSystem.mapSize), mapSystem.recursionDepth), old(mapSystem.nextId), rng, mapSystem.itemDatabase)
      ensures mapSystem.mapSize == old(mapSystem.mapSize) && mapSystem.recursionDepth == old(mapSystem.recursionDepth)
      ensures mapSystem.itemDatabase == old(mapSystem.itemDatabase)
      ensures player.position == Origin && player.velocity == Origin && player.moveInput == Zero
      ensures player.backpack == old(player.backpack) && PlayerStats(player) == old(PlayerStats(player))
      ensures player.maxWeight == old(player.maxWeight)
      ensures mapSystem.nextId == old(mapSystem.nextId) + |mapSystem.spawnedItems|
      ensures !uiManager.levelUpPanelActive
      ensures uiManager.levelUpTitleAge == old(uiManager.levelUpTitleAge)
      ensures uiManager.btnManual == old(uiManager.btnManual) && uiManager.btnGreedy == old(uiManager.btnGreedy)
      ensures uiManager.btnDP == old(uiManager.btnDP) && uiManager.btnBacktrack == old(uiManager.btnBacktrack)
    {
      currentAge := 0;
      StartNextDecade(rng);
    }

    /**
     * Unpause, give the decade its full time, regenerate the world, put the
     * player at the origin at rest and hide the level-up panel.
     */
    method StartNextDecade(rng: nat -> Map.SpawnRoll)
      requires player != null
      modifies this, player, mapSystem, uiManager
      ensures !isPaused && timeRemaining == timeLimit && lastTimeSent == timeLimit
      ensures currentAge == old(currentAge) && ageStep == old(ageStep)
      ensures timeLimit == old(timeLimit) && stressLimit == old(stressLimit)
      ensures LastStats() == old(LastStats()) && events == old(events)
      ensures player == old(player) && mapSystem == old(mapSystem)
      ensures aiSystem == old(aiSystem) && uiManager == old(uiManager)
      ensures mapSystem.spawnedItems
        == Map.Spawns(Map.Leaves(Map.FullMap(mapSystem.mapSize), mapSystem.recursionDepth), old(mapSystem.nextId), rng, mapSystem.itemDatabase)
      ensures mapSystem.mapSize == old(mapSystem.mapSize) && mapSystem.recursionDepth == old(mapSystem.recursionDepth)
      ensures mapSystem.itemDatabase == old(mapSystem.itemDatabase)
      ensures player.position == Origin && player.velocity == Origin && player.moveInput == Zero
      ensures player.backpack == old(player.backpack) && PlayerStats(player) == old(PlayerStats(player))
      ensures player.maxWeight == old(player.maxWeight)
      ensures mapSystem.nextId == old(mapSystem.nextId) + |mapSystem.spawnedItems|
      ensures !uiManager.levelUpPanelActive
      ensures uiManager.levelUpTitleAge == old(uiManager.levelUpTitleAge)
      ensures uiManager.btnManual == old(uiManager.btnManual) && uiManager.btnGreedy == old(uiManager.btnGreedy)
      ensures uiManager.btnDP == old(uiManager.btnDP) && uiManager.btnBacktrack == old(uiManager.btnBacktrack)
    {
      isPaused := false;
      timeRemaining := timeLimit;
      lastTimeSent := timeLimit;
      mapSystem.GenerateWorld(rng);
      player.Respawn();
      uiManager.HideLevelUpPanel();
    }

    /** Stop the game and tell the UI why; a player is stopped where they stand. */
    method GameOver(reason: Reason)
      modifies this, player
      ensures isPaused && events == old(events) + [GameOverEvent(reason)]
      ensures currentAge == old(currentAge) && timeRemaining == old(timeRemaining)
      ensures lastTimeSent == old(lastTimeSent) && LastStats() == old(LastStats())
      ensures ageStep == old(ageStep) && timeLimit == old(timeLimit) && stressLimit == old(stressLimit)
      ensures player == old(player) && mapSystem == old(mapSystem)
      ensures aiSystem == old(aiSystem) && uiManager == old(uiManager)
      ensures player != null ==>
        && player.moveInput == Zero && player.velocity == Origin
        && player.position == old(player.position) && player.backpack == old(player.backpack)
        && PlayerStats(player) == old(PlayerStats(player)) && player.maxWeight == old(player.maxWeight)
    {
      isPaused := true;
      events := events + [GameOverEvent(reason)];
      if player != null {
        player.moveInput := Zero;
        player.velocity := Origin;
      }
    }

    /**
     * The decade is over: pause, add the step to the age and stop the player;
     * at 60 the game ends, otherwise the level-up panel opens for the new age.
     */
    method EndDecade()
      modifies this, player, uiManager
      ensures isPaused && currentAge == NextAge(old(currentAge), ageStep)
      ensures timeRemaining == old(timeRemaining) && lastTimeSent == old(lastTimeSent)
      ensures LastStats() == old(LastStats())
      ensures ageStep == old(ageStep) && timeLimit == old(timeLimit) && stressLimit == old(stressLimit)
      ensures player == old(player) && mapSystem == old(mapSystem)
      ensures aiSystem == old(aiSystem) && uiManager == old(uiManager)
      ensures player != null ==>
        && player.moveInput == Zero && player.velocity == Origin
        && player.position == old(player.position) && player.backpack == old(player.backpack)
        && PlayerStats(player) == old(PlayerStats(player)) && player.maxWeight == old(player.maxWeight)
      ensures Retired(currentAge) ==> events == old(events) + [GameOverEvent(OldAge)] && unchanged(uiManager)
      ensures !Retired(currentAge) ==>
        && events == old(events)
        && uiManager.levelUpPanelActive && uiManager.levelUpTitleAge == currentAge
        && forall b: UI.Button :: uiManager.Flag(b) == UI.Interactable(b, currentAge)
    {
      isPaused := true;
      currentAge := currentAge + ageStep;
      if player != null {
        player.moveInput := Zero;
        player.velocity := Origin;
      }
      if currentAge >= FinalAge {
        GameOver(OldAge);
      } else {
        uiManager.ShowLevelUpPanel(currentAge);
      }
    }

    /**
     * One frame of `dt` seconds. Nothing happens while paused. Otherwise too much
     * stress ends the game at once; if not, the time runs down at the stress-scaled
     * rate, the time and stats events fire when their values have moved, and the
     * decade ends when the time is up.
     */
    method Update(dt: real)
      requires !isPaused ==> player != null
      modifies this, player, uiManager
      ensures player == old(player) && mapSystem == old(mapSystem)
      ensures aiSystem == old(aiSystem) && uiManager == old(uiManager)
      ensures ageStep == old(ageStep) && timeLimit == old(timeLimit) && stressLimit == old(stressLimit)
      ensures player != null ==>
        && player.position == old(player.position) && player.backpack == old(player.backpack)
        && PlayerStats(player) == old(PlayerStats(player)) && player.maxWeight == old(player.maxWeight)
      // Paused: no effect at all.
      ensures old(isPaused) ==>
        && unchanged(this) && unchanged(uiManager) && (player != null ==> unchanged(player))
      // Too much stress: game over before any time passes.
      ensures !old(isPaused) && Overstressed(player.currentStress, stressLimit) ==>
        && isPaused && events == old(events) + [GameOverEvent(StressOverload)]
        && timeRemaining == old(timeRemaining) && currentAge == old(currentAge)
        && lastTimeSent == old(lastTimeSent) && LastStats() == old(LastStats())
        && player.moveInput == Zero && player.velocity == Origin
        && unchanged(uiManager)
      // Otherwise the clock runs and the UI is brought up to date.
      ensures !old(isPaused) && !Overstressed(player.currentStress, stressLimit) ==>
        && timeRemaining == Drained(old(timeRemaining), dt, player.currentStress)
        && lastTimeSent == SyncTime(timeRemaining, old(lastTimeSent)).lastSent
        && LastStats() == PlayerStats(player)
        && events == old(events)
           + (if SyncTime(timeRemaining, old(lastTimeSent)).fire then [TimeChanged(timeRemaining, old(currentAge))] else [])
           + (if StatsChange(PlayerStats(player), old(LastStats())) then
                [StatsChanged(player.currentValue, player.currentWeight, player.currentStress)] else [])
           + (if timeRemaining <= 0.0 && Retired(old(currentAge) + ageStep) then [GameOverEvent(OldAge)] else [])
      // Time still left: the decade goes on.
      ensures !old(isPaused) && !Overstressed(player.currentStress, stressLimit) && timeRemaining > 0.0 ==>
        && !isPaused && currentAge == old(currentAge)
        && player.moveInput == old(player.moveInput) && player.velocity == old(player.velocity)
        && unchanged(uiManager)
      // Time up: the decade ends.
      ensures !old(isPaused) && !Overstressed(player.currentStress, stressLimit) && timeRemaining <= 0.0 ==>
        && isPaused && currentAge == NextAge(old(currentAge), ageStep)
        && player.moveInput == Zero && player.velocity == Origin
        && (Retired(currentAge) ==> unchanged(uiManager))
        && (!Retired(currentAge) ==>
              && uiManager.levelUpPanelActive && uiManager.levelUpTitleAge == currentAge
              && forall b: UI.Button :: uiManager.Flag(b) == UI.Interactable(b, currentAge))
    {
      if isPaused {
        return;
      }
      var timeMultiplier := 1.0 + player.currentStress as real / StressScale;
      assert timeMultiplier == TimeMultiplier(player.currentStress);
      if player.currentStress as real > stressLimit {
        GameOver(StressOverload);
        return;
      }
      timeRemaining := timeRemaining - dt * timeMultiplier;
      SendTime();
      SendStats();
      ghost var synced := events;
      if timeRemaining <= 0.0 {
        EndDecade();
      }
      assert events == synced + (if timeRemaining <= 0.0 && Retired(old(currentAge) + ageStep) then [GameOverEvent(OldAge)] else []);
    }

    /** Send the time to the UI when it has moved more than 0.1 from what was last sent. */
    method SendTime()
      modifies this
      ensures lastTimeSent == SyncTime(timeRemaining, old(lastTimeSent)).lastSent
      ensures events == old(events)
        + (if SyncTime(timeRemaining, old(lastTimeSent)).fire then [TimeChanged(timeRemaining, currentAge)] else [])
      ensures timeRemaining == old(timeRemaining) && currentAge == old(currentAge) && isPaused == old(isPaused)
      ensures LastStats() == old(LastStats())
      ensures ageStep == old(ageStep) && timeLimit == old(timeLimit) && stressLimit == old(stressLimit)
      ensures player == old(player) && mapSystem == old(mapSystem)
      ensures aiSystem == old(aiSystem) && uiManager == old(uiManager)
    {
      if Abs(timeRemaining - lastTimeSent) > TimeSendStep {
        events := events + [TimeChanged(timeRemaining, currentAge)];
        lastTimeSent := timeRemaining;
      }
    }

    /** Send the player's stats to the UI when any of them differs from what was last sent. */
    method SendStats()
      requires player != null
      modifies this
      ensures player == old(player) && mapSystem == old(mapSystem)
      ensures LastStats() == PlayerStats(player)
      ensures events == old(events)
        + (if StatsChange(PlayerStats(player), old(LastStats())) then
             [StatsChanged(player.currentValue, player.currentWeight, player.currentStress)] else [])
      ensures timeRemaining == old(timeRemaining) && currentAge == old(currentAge) && isPaused == old(isPaused)
      ensures lastTimeSent == old(lastTimeSent)
      ensures ageStep == old(ageStep) && timeLimit == old(timeLimit) && stressLimit == old(stressLimit)
      ensures aiSystem == old(aiSystem) && uiManager == old(uiManager)
    {
      if player.currentValue != lastValueSent || player.currentWeight != lastWeightSent
         || player.currentStress != lastStressSent {
        events := events + [StatsChanged(player.currentValue, player.currentWeight, player.currentStress)];
        lastValueSent := player.currentValue;
        lastWeightSent := player.currentWeight;
        lastStressSent := player.currentStress;
      }
    }

    /** A level-up button: switch the AI to the named strategy and start the next decade. */
    method OnStrategySelected(strategyName: string, rng: nat -> Map.SpawnRoll)
      requires player != null
      modifies this, player, mapSystem, uiManager, aiSystem
      ensures Strategies.Lookup(strategyName).None? ==> aiSystem.currentStrategy == old(aiSystem.currentStrategy)
      ensures Strategies.Lookup(strategyName).Some? ==>
        && aiSystem.currentStrategy.Some?
        && aiSystem.currentStrategy.value.Kind() == Strategies.Lookup(strategyName).value
        && (aiSystem.currentStrategy.value.Backtrack? ==>
              fresh(aiSystem.currentStrategy.value.state) && aiSystem.currentStrategy.value.state.thinkTimer == 0.0)
      ensures player == old(player) && mapSystem == old(mapSystem)
      ensures aiSystem == old(aiSystem) && uiManager == old(uiManager)
      ensures aiSystem.player == old(aiSystem.player) && aiSystem.mapSystem == old(aiSystem.mapSystem)
      ensures !isPaused && timeRemaining == timeLimit && lastTimeSent == timeLimit
      ensures currentAge == old(currentAge) && ageStep == old(ageStep)
      ensures timeLimit == old(timeLimit) && stressLimit == old(stressLimit)
      ensures LastStats() == old(LastStats()) && events == old(events)
      ensures mapSystem.spawnedItems
        == Map.Spawns(Map.Leaves(Map.FullMap(mapSystem.mapSize), mapSystem.recursionDepth), old(mapSystem.nextId), rng, mapSystem.itemDatabase)
      ensures mapSystem.mapSize == old(mapSystem.mapSize) && mapSystem.recursionDepth == old(mapSystem.recursionDepth)
      ensures mapSystem.itemDatabase == old(mapSystem.itemDatabase)
      ensures player.position == Origin && player.velocity == Origin && player.moveInput == Zero
      ensures player.backpack == old(player.backpack) && PlayerStats(player) == old(PlayerStats(player))
      ensures player.maxWeight == old(player.maxWeight)
      ensures mapSystem.nextId == old(mapSystem.nextId) + |mapSystem.spawnedItems|
      ensures !uiManager.levelUpPanelActive
      ensures uiManager.levelUpTitleAge == old(uiManager.levelUpTitleAge)
      ensures uiManager.btnManual == old(uiManager.btnManual) && uiManager.btnGreedy == old(uiManager.btnGreedy)
      ensures uiManager.btnDP == old(uiManager.btnDP) && uiManager.btnBacktrack == old(uiManager.btnBacktrack)
    {
      aiSystem.SetStrategyByName(strategyName);
      StartNextDecade(rng);
    }

    /**
     * A collected item: its life event goes into the player's backpack and its
     * first entry leaves the spawned list, so the AI stops chasing it. The C# handler
     * reads the item before its null check, so a player requires an item.
     */
    method OnItemCollected(item: Option<Item>)
      requires player != null ==> item.Some?
      modifies player, mapSystem
      ensures player != null ==>
        && player.backpack == old(player.backpack) + [item.value.eventData]
        && player.currentWeight == old(player.currentWeight) + item.value.eventData.weight as int
        && player.currentValue == old(player.currentValue) + item.value.eventData.value as int
        && player.currentStress == old(player.currentStress) + item.value.eventData.stress as int
        && (old(player.Valid()) ==> player.Valid())
        && player.position == old(player.position) && player.velocity == old(player.velocity)
        && player.moveInput == old(player.moveInput) && player.maxWeight == old(player.maxWeight)
      ensures item.Some? ==> mapSystem.spawnedItems == RemoveFirst(old(mapSystem.spawnedItems), item)
      ensures item.None? ==> mapSystem.spawnedItems == old(mapSystem.spawnedItems)
      ensures mapSystem.nextId == old(mapSystem.nextId) && mapSystem.itemDatabase == old(mapSystem.itemDatabase)
      ensures mapSystem.mapSize == old(mapSystem.mapSize) && mapSystem.recursionDepth == old(mapSystem.recursionDepth)
    {
      if player != null {
        player.AddToBackpack(item.value.eventData);
      }
      if item.Some? {
        if item in mapSystem.spawnedItems {
          mapSystem.spawnedItems := RemoveFirst(mapSystem.spawnedItems, item);
        }
      }
    }
  }
}
