/**
 * IStrategy and its four implementations as one closed variant, the manual
 * strategy, and the name lookup the strategy buttons use.
 */
module Strategies {
  import opened Wrappers
  import opened Domain
  import DPStrategy
  import GreedyStrategy
  import BT = BacktrackStrategy

  datatype StrategyKind = ManualKind | GreedyKind | DPKind | BacktrackKind

  /**
   * A live strategy instance. Manual, Greedy and DP have no fields; a Backtrack
   * instance is an object whose `thinkTimer` its calls advance.
   */
  datatype Strategy = Manual | Greedy | DP | Backtrack(state: BT.BacktrackStrategy) {
    function Kind(): StrategyKind {
      match this
      case Manual => ManualKind
      case Greedy => GreedyKind
      case DP => DPKind
      case Backtrack(_) => BacktrackKind
    }
  }

  /** The objects a strategy's calls may change. */
  function Footprint(s: Option<Strategy>): set<object> {
    if s.Some? && s.value.Backtrack? then {s.value.state} else {}
  }

  /** The name each strategy goes by in `SetStrategyByName`. */
  function KindName(k: StrategyKind): string {
    match k
    case ManualKind => "Manual"
    case GreedyKind => "Greedy"
    case DPKind => "DP"
    case BacktrackKind => "Backtrack"
  }

  /** The switch of `SetStrategyByName`: exactly the four names are known, there is no default. */
  function Lookup(name: string): (r: Option<StrategyKind>)
    ensures r.Some? ==> KindName(r.value) == name
    ensures r.None? <==> name !in {"Manual", "Greedy", "DP", "Backtrack"}
  {
    match name
    case "Manual" => Some(ManualKind)
    case "Greedy" => Some(GreedyKind)
    case "DP" => Some(DPKind)
    case "Backtrack" => Some(BacktrackKind)
    case _ => None
  }

  /** Every strategy is found again under its own name. */
  lemma LookupKindName(k: StrategyKind)
    ensures Lookup(KindName(k)) == Some(k)
  {
  }

  /** ManualStrategy: the raw horizontal and vertical axes, passed through unnormalised. */
  function ManualMove(axes: Vec2): (d: Direction)
    ensures d.Axes? && d.x == axes.x && d.y == axes.y
  {
    Axes(axes.x, axes.y)
  }

  /**
   * What one `CalculateMove` call of a strategy of kind `kind` returns; `timer` is
   * the Backtrack timer before the call, `axes` the keyboard axes and `distTo` the
   * distance from the player to a point.
   */
  function Decide(kind: StrategyKind, timer: real, allItems: seq<Option<Item>>, dt: real,
                  axes: Vec2, distTo: Vec2 -> real): (move: Direction)
    ensures kind == ManualKind ==> move.Axes? && move.x == axes.x && move.y == axes.y
    ensures move.Toward? ==> kind != ManualKind && Some(move.target) in allItems
    ensures kind != ManualKind && (kind == BacktrackKind ==> BT.ThinkStep(timer, dt).deciding) ==>
      (move == Zero <==> forall j | 0 <= j < |allItems| :: allItems[j].None?)
  {
    match kind
    case ManualKind => ManualMove(axes)
    case GreedyKind =>
      GreedyStrategy.NoTargetIffAllNull(allItems, distTo);
      Aim(GreedyStrategy.Target(allItems, distTo))
    case DPKind =>
      DPStrategy.NoTargetIffAllNull(allItems);
      Aim(DPStrategy.Target(allItems))
    case BacktrackKind => BT.MoveOf(timer, dt, allItems)
  }

  /** The timer a strategy holds (only Backtrack has one). */
  function Timer(s: Strategy): real
    reads Footprint(Some(s))
  {
    if s.Backtrack? then s.state.thinkTimer else 0.0
  }

  /** `currentStrategy.CalculateMove(player, items)`, dispatched on the strategy's class. */
  method CalculateMove(s: Strategy, allItems: seq<Option<Item>>, dt: real, axes: Vec2,
                       distTo: Vec2 -> real) returns (move: Direction)
    modifies Footprint(Some(s))
    ensures move == Decide(s.Kind(), old(Timer(s)), allItems, dt, axes, distTo)
    ensures s.Backtrack? ==> s.state.thinkTimer == BT.ThinkStep(old(s.state.thinkTimer), dt).timer
  {
    match s
    case Manual => move := ManualMove(axes);
    case Greedy => move := GreedyStrategy.CalculateMove(allItems, distTo);
    case DP => move := DPStrategy.CalculateMove(allItems);
    case Backtrack(b) => move := b.CalculateMove(allItems, dt);
  }
}
