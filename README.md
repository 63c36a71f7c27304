# LifePath — a Dafny model of the game's core

LifePath is a Unity game. A player, steered by hand or by an AI strategy,
collects "life events" from a 2D map during six ten-year decades. Every event
carries a value, a weight and a stress. Stress makes the clock of a decade run
faster. Too much stress ends the game, and so does reaching age 60. Between
decades a level-up panel offers the strategies unlocked so far.

This project models that core in Dafny and proves what it promises:

- **The three AI strategies** (`DPStrategy`, `GreedyStrategy`, `BacktrackStrategy`).
  Each is one pass over the spawned items that keeps the first item whose key
  is strictly better than the best so far. DP maximises the value. Greedy
  maximises value divided by distance, with the distance clamped below at 0.1.
  Backtrack minimises the stress, and thinks for about a second before each
  move. All three are verified loops, proved against one shared left-fold
  specification, `Selection.FirstArgMax`. Separate lemmas then prove what
  that fold chooses: the first entry with the best key, or nothing exactly
  when every entry is null.
- **AISystem**:
  - the per-frame update, including the pause check and the number keys that
    switch strategy;
  - `SetStrategy`;
  - the name lookup behind `SetStrategyByName`.
- **PlayerEntity**: the backpack with its three running totals, and the
  `LateUpdate` clamp that brings the player back inside the map.
- **MapSystem**:
  - world generation by divide and conquer over a quadtree of depth
    `recursionDepth`;
  - the spawn of one random item per cell;
  - the Gizmo drawing, which walks the same quadtree.
  The recursive method is proved to spawn exactly over the leaves of the
  quadtree, in order. Lemmas prove that there are 4^d leaves, that they tile
  the map, and that each has the map's size halved d times. They also prove
  that a spawn falls inside its cell inset by 0.5, when the cell is at least
  1 by 1 and the random fractions lie in [0, 1].
- **GameManager**: the decade loop, which covers:
  - the stress-scaled clock;
  - the throttled time and stats events;
  - the end of a decade, game over, starting the next decade, strategy
    selection and item collection.
- **UIManager**: the level-up panel and the age at which each button unlocks.

Modelling choices:

- **Unity objects.** A list entry that may be a destroyed or null Unity object
  is an `Option`.
- **Vectors.** Unity vectors are pairs of reals.
- **Strategy output.** What a strategy returns is a `Direction`: raw axes
  (the manual strategy, and the zero vector), or "towards this item" in place
  of the normalised difference of positions.
- **C# `int` fields.** The fields of a life event are 32-bit integers (the
  `Int32` newtype). This makes it provable that the `float.MinValue` and
  `float.MaxValue` sentinels the strategy loops start from never win a
  comparison.
- **Asset identity.** Life-event assets carry an `id` that stands for the
  identity of the Unity asset. Two distinct assets with the same name and
  numbers are therefore different events.
- **Randomness.** `Random.Range` and `GetRandomEvent` are a parameter
  `rng: nat -> SpawnRoll`. It is indexed by a counter of spawned entities,
  which also gives each entity its identity.
- **Events.** EventManager broadcasts are appended to a ghost log `events` of
  the GameManager.
- **Input and frame time.** The keyboard axes, the keys pressed this frame,
  `Time.deltaTime` and `GameManager.Instance` are parameters.

Despite its name, `DPStrategy.cs` is a single pass that picks the live item
of highest value, like Greedy but keyed on the value alone. That pass is what
is modelled.

## Model

| member | source | states |
|---|---|---|
| Domain.Aim | Assets/Scripts/Strategies/DPStrategy.cs:27-31 | the zero vector exactly when no target was chosen, otherwise a direction towards the chosen item itself |
| Domain.Int32WithinSentinels | Assets/Scripts/Strategies/DPStrategy.cs:12-20 | every 32-bit key lies strictly between float.MinValue and float.MaxValue, so the first non-null item always replaces the sentinel |
| AI.PerceivedItems | Assets/Scripts/Systems/AISystem.cs:45 | the strategy sees the map's spawned list, or an empty list when there is no map |
| Selection.FirstArgMax | Assets/Scripts/Strategies/DPStrategy.cs:14-25 | the index the strategy loop holds, when there is one, is in range and designates a non-null entry |
| Selection.FirstArgMaxNoneIffAllNull | Assets/Scripts/Strategies/DPStrategy.cs:14-25 | the loop ends without a best entry if and only if every entry is null (an empty list included) |
| Selection.FirstArgMaxIsFirstMax | Assets/Scripts/Strategies/DPStrategy.cs:14-25 | the entry the loop keeps has a key at least every other key and strictly above every earlier key: ties go to the first |
| Selection.FirstMaxUnique | Assets/Scripts/Strategies/DPStrategy.cs:14-25 | at most one entry is a first greatest one |
| Selection.FirstArgMaxCharacterised | Assets/Scripts/Strategies/DPStrategy.cs:14-25 | the loop keeps entry k if and only if k is the first greatest entry, in both directions |
| Selection.FirstArgMaxSameOrder | Assets/Scripts/Strategies/DPStrategy.cs:14-25 | two key lists with nulls in the same places that order their entries alike make the loop choose the same index |
| Selection.Pick | Assets/Scripts/Strategies/DPStrategy.cs:27-31 | the item chosen is the entry at the fold's index, and nothing is chosen exactly when the fold finds no index |
| DPStrategy.CalculateMove | Assets/Scripts/Strategies/DPStrategy.cs:9-32 | the loop with its float.MinValue start returns the direction to the first non-null item of highest value, or zero |
| DPStrategy.NoTargetIffAllNull | Assets/Scripts/Strategies/DPStrategy.cs:11-32 | DP has no target exactly when the list holds no live item |
| DPStrategy.ChosenIsFirstHighestValue | Assets/Scripts/Strategies/DPStrategy.cs:14-25 | item k is chosen if and only if it is live, no live item has a higher value and every earlier live item has a lower one |
| DPStrategy.ChoiceDependsOnlyOnValues | Assets/Scripts/Strategies/DPStrategy.cs:20-24 | DP ignores positions, weights and stress: two lists with the same values in the same places give the same choice |
| GreedyStrategy.ClampDistance | Assets/Scripts/Strategies/GreedyStrategy.cs:19 | the divisor is never below 0.1 or below the distance, and is one of the two |
| GreedyStrategy.Score | Assets/Scripts/Strategies/GreedyStrategy.cs:15-21 | an item within 0.1 of the player scores ten times its value; a non-negative value scores between 0 and ten times the value |
| GreedyStrategy.QuotientBound | Assets/Scripts/Strategies/GreedyStrategy.cs:19-21 | dividing a non-negative value by a clamped distance gives at most ten times the value |
| GreedyStrategy.ScoreAboveSentinel | Assets/Scripts/Strategies/GreedyStrategy.cs:9-23 | every score of a 32-bit value beats the starting float.MinValue, so the first live item is always taken |
| GreedyStrategy.CalculateMove | Assets/Scripts/Strategies/GreedyStrategy.cs:6-35 | the loop returns the direction to the first live item of best value per clamped distance, or zero |
| GreedyStrategy.NoTargetIffAllNull | Assets/Scripts/Strategies/GreedyStrategy.cs:6-35 | Greedy has no target exactly when the list holds no live item |
| GreedyStrategy.ChosenIsFirstBestScore | Assets/Scripts/Strategies/GreedyStrategy.cs:11-28 | item k is chosen if and only if it is live, no live item scores higher and every earlier live item scores lower |
| GreedyStrategy.CloseItemsRankedByValue | Assets/Scripts/Strategies/GreedyStrategy.cs:19-21 | two items closer than 0.1 are ranked by their values alone |
| GreedyStrategy.AllCloseAgreesWithDP | Assets/Scripts/Strategies/GreedyStrategy.cs:11-28 | when every live item is within 0.1 of the player, Greedy chooses the same item as DP |
| BacktrackStrategy.ThinkStep | Assets/Scripts/Strategies/BacktrackStrategy.cs:11-17 | a call decides if and only if the advanced timer reached 1; the timer drops to 0 exactly when it passed 1.2; a timer in [0, 1.2] stays there under a non-negative tick |
| BacktrackStrategy.MoveOf | Assets/Scripts/Strategies/BacktrackStrategy.cs:8-39 | a thinking call returns zero; a deciding call heads for a live entry of the list, and returns zero exactly when there is none |
| BacktrackStrategy.TimerStaysInRange | Assets/Scripts/Strategies/BacktrackStrategy.cs:11-17 | over any run of non-negative ticks from a timer in [0, 1.2], the timer stays in [0, 1.2] |
| BacktrackStrategy.BacktrackStrategy.constructor | Assets/Scripts/Strategies/BacktrackStrategy.cs:6 | a new instance has not thought yet |
| BacktrackStrategy.BacktrackStrategy.CalculateMove | Assets/Scripts/Strategies/BacktrackStrategy.cs:8-39 | the timer advances by one think step; while thinking the move is zero, otherwise it heads for the first live item of least stress |
| BacktrackStrategy.NoTargetIffAllNull | Assets/Scripts/Strategies/BacktrackStrategy.cs:34-38 | a deciding call has no target exactly when the list holds no live item |
| BacktrackStrategy.ChosenIsFirstLeastStress | Assets/Scripts/Strategies/BacktrackStrategy.cs:19-32 | item k is chosen if and only if it is live, no live item has less stress and every earlier live item has more |
| BacktrackStrategy.ThinkingIgnoresItems | Assets/Scripts/Strategies/BacktrackStrategy.cs:11-15 | a call that is still thinking returns zero whatever the items are |
| Strategies.Lookup | Assets/Scripts/Systems/AISystem.cs:65-74 | exactly the four names Manual, Greedy, DP and Backtrack are known, each to the strategy of that name; any other name selects nothing |
| Strategies.LookupKindName | Assets/Scripts/Systems/AISystem.cs:67-73 | every strategy is found again under its own name |
| Strategies.ManualMove | Assets/Scripts/Strategies/ManualStrategy.cs:6-12 | the manual move is the raw axes, unnormalised |
| Strategies.Decide | Assets/Scripts/Systems/AISystem.cs:48 | the manual strategy passes the axes through; any other strategy heads only for a live entry of the list and, whenever it decides, returns zero exactly when the list holds no live item |
| Strategies.CalculateMove | Assets/Scripts/Strategies/IStrategy.cs:7 | one call of any strategy returns what its kind decides from its timer before the call, and a Backtrack instance's timer advances by one think step |
| Lists.RemoveFirst | Assets/Scripts/GameManager.cs:132-135 | removing an absent element changes nothing; removing a present one shortens the list by one |
| Lists.FirstIndex | Assets/Scripts/PlayerEntity.cs:37-39 | the first position holding the element: it holds it and no earlier position does |
| Lists.RemoveFirstCutsFirstIndex | Assets/Scripts/PlayerEntity.cs:37-39 | `List.Remove` cuts out exactly the first occurrence and keeps everything else in order |
| Lists.RemoveFirstMultiset | Assets/Scripts/PlayerEntity.cs:37-39 | removal takes exactly one copy of the element out of the contents |
| Player.TotalAppend | Assets/Scripts/PlayerEntity.cs:26-32 | appending an event adds its stat to the sum over the backpack |
| Player.TotalRemoveFirst | Assets/Scripts/PlayerEntity.cs:35-44 | removing a present event subtracts its stat from the sum over the backpack |
| Player.AddThenRemoveRestores | Assets/Scripts/PlayerEntity.cs:26-44 | adding an event and removing it again restores the contents (as a multiset) and all three sums |
| Player.Clamp | Assets/Scripts/PlayerEntity.cs:66-67 | `Mathf.Clamp` lands within the bounds and leaves a value already within them alone |
| Player.BoundsSize | Assets/Scripts/PlayerEntity.cs:50-54 | the map's size when it can be read, 20 by 15 otherwise |
| Player.ApproxEqual | Assets/Scripts/PlayerEntity.cs:70 | Unity's vector `==`: a vector equals itself, and two vectors differing by 1e-5 or more on one axis are unequal |
| Player.ClampToMap | Assets/Scripts/PlayerEntity.cs:59-67 | the clamped position lies inside the map widened by 1 on every side, and a position already inside is kept |
| Player.Settled | Assets/Scripts/PlayerEntity.cs:62-75 | LateUpdate leaves either the old position or the clamped one |
| Player.SettledIsInsideAndStable | Assets/Scripts/PlayerEntity.cs:47-76 | after LateUpdate the player is inside the widened map up to Unity's vector tolerance; a second call changes nothing; an inside position is kept |
| Player.PlayerEntity.constructor | Assets/Scripts/PlayerEntity.cs:7-13 | an empty backpack with zero totals and a weight limit of 50 |
| Player.PlayerEntity.AddToBackpack | Assets/Scripts/PlayerEntity.cs:26-32 | the event is appended and its three numbers added; the totals stay the sums over the backpack |
| Player.PlayerEntity.RemoveFromBackpack | Assets/Scripts/PlayerEntity.cs:35-44 | an absent event changes nothing; a present one loses its first copy and its numbers; the totals stay the sums over the backpack |
| Player.PlayerEntity.Respawn | Assets/Scripts/GameManager.cs:86-88 | the player is at the origin, at rest and without input; the backpack and totals are kept |
| Player.PlayerEntity.LateUpdate | Assets/Scripts/PlayerEntity.cs:47-76 | the position becomes the settled one; the body is stopped exactly when the position moved |
| Map.FullMap | Assets/Scripts/Systems/MapSystem.cs:37 | the rectangle divided has the map's size and is centred on the origin |
| Map.Quadrant | Assets/Scripts/Systems/MapSystem.cs:90-101 | the i-th rectangle DivideAndConquer recurses into: lower-left, lower-right, upper-left, upper-right (QuadrantSize states its size) |
| Map.QuadrantSize | Assets/Scripts/Systems/MapSystem.cs:90-101 | each quadrant is half as wide and half as high as its rectangle |
| Map.Leaves | Assets/Scripts/Systems/MapSystem.cs:80-102 | the cells DivideAndConquer reaches, in order; dividing to depth d gives 4^d cells |
| Map.DefaultDepthGives64Cells | Assets/Scripts/Systems/MapSystem.cs:8 | the default depth 3 gives 64 cells |
| Map.HalvedIsDivision | Assets/Scripts/Systems/MapSystem.cs:90-91 | halving d times divides by 2^d |
| Map.LeafSize | Assets/Scripts/Systems/MapSystem.cs:80-102 | every cell at depth d has the map's width and height halved d times |
| Map.QuadrantLeafSize | Assets/Scripts/Systems/MapSystem.cs:93-101 | every cell of one quadrant has its rectangle's size halved d times |
| Map.LeavesWithin | Assets/Scripts/Systems/MapSystem.cs:80-102 | every cell lies inside the rectangle that was divided |
| Map.QuadrantLeavesWithin | Assets/Scripts/Systems/MapSystem.cs:93-101 | every cell of one quadrant lies inside the rectangle that was divided |
| Map.CoverCountAppend | Assets/Scripts/Systems/MapSystem.cs:93-101 | the cells covering a point in two lists add up |
| Map.QuadrantsTile | Assets/Scripts/Systems/MapSystem.cs:90-101 | a point of a rectangle lies in exactly one of its four quadrants, a point outside in none |
| Map.LeavesTile | Assets/Scripts/Systems/MapSystem.cs:80-102 | the cells at any depth tile the map: no gaps and no overlaps |
| Map.BoxOf | Assets/Scripts/Systems/MapSystem.cs:142 | the wire box drawn for a cell has the cell's size and spans exactly the cell's x and y ranges |
| Map.BoxesOf | Assets/Scripts/Systems/MapSystem.cs:142 | one wire box per cell |
| Map.GizmoBoxes | Assets/Scripts/Systems/MapSystem.cs:137-151 | the wire boxes DrawGizmoRect draws, in drawing order (GizmoDrawsTheLeaves relates them to the spawn cells) |
| Map.GizmoDrawsTheLeaves | Assets/Scripts/Systems/MapSystem.cs:137-151 | the Gizmo draws the box of every cell world generation spawns into, in the same order |
| Map.SpawnAt | Assets/Scripts/Systems/MapSystem.cs:109-124 | the item spawned for a cell carries the spawn's identity and an event taken from the database |
| Map.Range | Assets/Scripts/Systems/MapSystem.cs:112-113 | a roll of 0 gives the lower end of the range and a roll of 1 the upper end |
| Map.RangeBetween | Assets/Scripts/Systems/MapSystem.cs:111-114 | a random coordinate stays between the ends of its range |
| Map.SpawnInsidePaddedCell | Assets/Scripts/Systems/MapSystem.cs:109-114 | in a cell at least 1 by 1, a spawn lies in the cell inset by 0.5 on every side |
| Map.HasEvents | Assets/Scripts/Systems/MapSystem.cs:107 | a spawn can happen exactly when the database exists and holds at least one event |
| Map.Spawns | Assets/Scripts/Systems/MapSystem.cs:107 | one entry per cell when the database has events, none otherwise |
| Map.SpawnsAt | Assets/Scripts/Systems/MapSystem.cs:111-127 | the i-th entry is the item spawned into the i-th cell with the i-th roll and identity |
| Map.SpawnsAppend | Assets/Scripts/Systems/MapSystem.cs:93-101 | spawning into two lists of cells one after the other is spawning into their concatenation, the numbering continuing |
| Map.GeneratedWorld | Assets/Scripts/Systems/MapSystem.cs:23-41 | a generated world holds 4^d live items (none without events), one per cell, each cell inside the map and, for rolls in [0, 1] and cells at least 1 by 1, each item inside its cell inset by 0.5 |
| Map.MapSystem.constructor | Assets/Scripts/Systems/MapSystem.cs:7-16 | a 20 by 15 map of depth 3 with no items spawned |
| Map.MapSystem.Start | Assets/Scripts/Systems/MapSystem.cs:18-21 | the first frame generates the world: the list becomes the spawns over every cell of the full map and the counter advances by their number |
| Map.MapSystem.GenerateWorld | Assets/Scripts/Systems/MapSystem.cs:23-41 | the old list is dropped and the new one is the spawns over every cell of the full map, in quadtree order |
| Map.MapSystem.DivideAndConquer | Assets/Scripts/Systems/MapSystem.cs:80-102 | the recursion appends exactly the spawns over the cells of its area, in order, numbering them on from the counter |
| Map.MapSystem.SpawnItemInArea | Assets/Scripts/Systems/MapSystem.cs:105-128 | without a database or events nothing happens; otherwise the one item spawned for the area is appended |
| UI.Interactable | Assets/Scripts/Systems/UIManager.cs:30-33 | Manual is always interactable; Greedy, DP and Backtrack exactly from ages 10, 20 and 30 |
| UI.UnlockIsMonotone | Assets/Scripts/Systems/UIManager.cs:30-33 | a button open at one age is open at every later age |
| UI.UnlocksAreNested | Assets/Scripts/Systems/UIManager.cs:31-33 | Backtrack open implies DP open, which implies Greedy open |
| UI.UnlockSchedule | Assets/Scripts/Systems/UIManager.cs:30-33 | the panel at age 10k offers min(k, 3) + 1 strategies |
| UI.UIManager.constructor | Assets/Scripts/Systems/UIManager.cs:13-21 | the level-up panel starts hidden, its title age 0 and every button interactable |
| UI.UIManager.ShowLevelUpPanel | Assets/Scripts/Systems/UIManager.cs:23-34 | the panel shows, titled with the age, and every button's flag is its unlock rule at that age |
| UI.UIManager.HideLevelUpPanel | Assets/Scripts/Systems/UIManager.cs:36-39 | the panel hides; the title and the buttons keep their state |
| AI.KeySwitch | Assets/Scripts/Systems/AISystem.cs:54-56 | no switch exactly when no key is pressed; 3 wins over everything, 2 over 1, and 1 only alone; DP is never selected by key |
| AI.NewStrategy | Assets/Scripts/Systems/AISystem.cs:69-72 | a fresh instance of the requested strategy; a fresh Backtrack has a zero timer |
| AI.AISystem.constructor | Assets/Scripts/Systems/AISystem.cs:6-11 | the AI holds the given player and map and has no strategy until Start runs |
| AI.AISystem.Start | Assets/Scripts/Systems/AISystem.cs:17-24 | the initial strategy is manual control |
| AI.AISystem.SetStrategy | Assets/Scripts/Systems/AISystem.cs:60-64 | the given instance becomes the current strategy |
| AI.AISystem.SetStrategyByName | Assets/Scripts/Systems/AISystem.cs:65-74 | a known name installs a fresh strategy of that name; an unknown name leaves the current one |
| AI.AISystem.Update | Assets/Scripts/Systems/AISystem.cs:26-57 | paused or without a game: zero input, strategy kept; no player or strategy: nothing changes; else the player's input is what the old strategy decides, its timer steps, then the keys may replace the strategy (key 3 with a fresh Backtrack whose timer is 0); the player's stats never change |
| Game.TimeMultiplier | Assets/Scripts/GameManager.cs:43 | stress speeds the clock up, negative stress slows it down |
| Game.Overstressed | Assets/Scripts/GameManager.cs:46 | stress ends the game only strictly above the limit: with the limit 100, from stress 101 on |
| Game.ScaleAtLeast | Assets/Scripts/GameManager.cs:52 | a non-negative frame scaled by at least 1 is not shortened |
| Game.Drained | Assets/Scripts/GameManager.cs:43-52 | without negative stress a frame takes at least its own length off the clock |
| Game.SyncTime | Assets/Scripts/GameManager.cs:56-60 | the time event fires exactly when the time moved more than 0.1 from the last sent one; afterwards the last sent time is within 0.1 |
| Game.SyncTimeSettles | Assets/Scripts/GameManager.cs:56-60 | syncing the same time again sends nothing |
| Game.StatsChange | Assets/Scripts/GameManager.cs:63 | the stats event fires exactly when the stats differ from the last sent ones |
| Game.NextAge | Assets/Scripts/GameManager.cs:98 | EndDecade's age update; a positive step makes the player older |
| Game.AgeAfterIsProduct | Assets/Scripts/GameManager.cs:98 | k decades (k applications of EndDecade's NextAge from 0) add up to k times the step |
| Game.Retired | Assets/Scripts/GameManager.cs:106 | the game ends exactly from age 60, by which every strategy button is unlocked |
| Game.SixDecades | Assets/Scripts/GameManager.cs:98-109 | with 10-year decades the game ends after the sixth decade and not before |
| Game.PanelsBeforeRetirement | Assets/Scripts/GameManager.cs:98-113 | each of the first five decades ends on the level-up panel, offering min(k, 3) + 1 strategies |
| Game.GameManager.constructor | Assets/Scripts/GameManager.cs:9-22 | age 0, 10-year decades of 60 s, stress limit 100, nothing sent yet |
| Game.GameManager.Start | Assets/Scripts/GameManager.cs:32-36 | the age resets to 0 and the first decade starts with a freshly generated world; the limits, the last sent stats, the backpack and the map's configuration are kept; the spawn counter advances by the number of items; the panel's title and buttons are kept |
| Game.GameManager.StartNextDecade | Assets/Scripts/GameManager.cs:78-93 | unpaused, full time, world regenerated over every cell, player at the origin at rest, panel hidden with its title and buttons kept; the spawn counter advanced by the number of items; age and stats kept |
| Game.GameManager.GameOver | Assets/Scripts/GameManager.cs:141-152 | paused, the reason broadcast once, a present player stopped in place |
| Game.GameManager.EndDecade | Assets/Scripts/GameManager.cs:95-114 | paused, the age advanced by a step and the player stopped; at 60 the game-over event fires, otherwise the panel shows the new age's unlocks |
| Game.GameManager.Update | Assets/Scripts/GameManager.cs:38-76 | paused: no effect; over the stress limit: game over with no time passing; otherwise the clock drains, the throttled events fire in order and the decade ends exactly when the time is up, showing the panel before 60 and leaving the UI alone from 60 on |
| Game.GameManager.SendTime | Assets/Scripts/GameManager.cs:56-60 | the time event and the last sent time follow the 0.1 throttle; nothing else changes |
| Game.GameManager.SendStats | Assets/Scripts/GameManager.cs:63-69 | the stats event fires exactly when a stat changed, and the last sent stats become the player's |
| Game.GameManager.OnStrategySelected | Assets/Scripts/GameManager.cs:116-120 | the named strategy is installed as a fresh instance (a Backtrack with a zero timer; an unknown name keeps the current one) and the next decade starts, keeping the age, limits, last sent stats, backpack and map configuration, the panel's title and buttons, and the AI's player and map; the spawn counter advances by the number of items |
| Game.GameManager.OnItemCollected | Assets/Scripts/GameManager.cs:122-139 | the item's event goes into the backpack with its numbers, and its first entry leaves the spawned list; the player's position, motion and weight limit and the map's configuration are kept |

## Left out

- Rendering, physics and the Unity lifecycle are not modelled:
  - `Awake`, `OnEnable` and `OnDisable`;
  - the `Instance` singleton, which becomes a parameter;
  - the Rigidbody integration in StatsSystem;
  - colliders and the boundary walls built by `CreateBoundaries`;
  - `Destroy`, `Instantiate` and `ItemEntity.Setup` beyond storing the event;
  - `RecycleItem`;
  - text fields, `Debug.Log` output and the game-over messages, of which only the reason is kept.
- Floating point: every `float` is a real. Single-precision rounding,
  `Vector2.normalized` and the square root inside `Vector2.Distance` are not
  modelled. The distance to the player is the parameter `distTo`.
- Domain.Aim: a chosen target is `Toward(item)`. In C#,
  `(target - player).normalized` is also the zero vector when the target
  stands exactly at the player's position. "Zero exactly when no target" holds
  for the symbolic direction only.
- Player.PlayerEntity: the running totals are unbounded integers. C#'s 32-bit
  wrap-around on very large totals is not modelled.
- Player.PlayerEntity.LateUpdate: a missing Rigidbody is not modelled. The z
  coordinate of the transform is not modelled either.
- Player.PlayerEntity.RemoveFromBackpack: C# compares asset references. The
  model compares events by value, including the asset `id`. It therefore
  assumes that distinct assets carry distinct ids.
- Game.GameManager: `player.rb` is taken to exist in StartNextDecade, EndDecade
  and GameOver. The C# code stops the body there without a null check.
- Game.GameManager: `mapSystem`, `aiSystem` and `uiManager` are non-null
  references in the model. The C# code dereferences them without checks, in
  StartNextDecade, EndDecade and OnStrategySelected, so a missing reference
  would throw there. That failure is not modelled.
- Map.MapSystem: `recursionDepth` is a natural number. A negative depth, on
  which the C# recursion never reaches its base case, is not modelled.
- Map.MapSystem.SpawnItemInArea: `Random.Range` and `GetRandomEvent` are the
  roll `rng(n)` of the n-th spawn. Rolls are assumed to be fractions in [0, 1]
  only where a lemma needs it.
- Game.GameManager.OnItemCollected: the source reads the item's data before
  its null check, so a null item with a player present throws. The model
  requires an item whenever there is a player.
- Game.GameManager.Start, StartNextDecade and OnStrategySelected require a
  player, because the source dereferences it there without a check. Update
  requires one while the game is not paused.
- Game: the EventManager subscribers (UIManager's text updates) are not
  modelled. Broadcasts are recorded in the ghost log `events`.
