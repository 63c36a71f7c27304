/**
 * UIManager: the level-up panel shown between decades, whose four strategy
 * buttons unlock with age. Text fields, the game-over panel and the event
 * subscriptions are presentation only.
 */
module UI {

  /** The four strategy buttons of the level-up panel. */
  datatype Button = ManualButton | GreedyButton | DPButton | BacktrackButton

  /** The age from which a button is unlocked; the manual button has none. */
  function UnlockAge(b: Button): int
    requires b != ManualButton
  {
    match b
    case GreedyButton => 10
    case DPButton => 20
    case BacktrackButton => 30
  }

  /** Whether a button is interactable on the panel for `age`. */
  function Interactable(b: Button, age: int): (r: bool)
    ensures b == ManualButton ==> r
    ensures b != ManualButton ==> (r <==> age >= UnlockAge(b))
  {
    match b
    case ManualButton => true
    case GreedyButton => age >= 10
    case DPButton => age >= 20
    case BacktrackButton => age >= 30
  }

  /** Unlocks are never taken back: what is open at one age is open at every later one. */
  lemma UnlockIsMonotone(b: Button, age: int, later: int)
    requires age <= later && Interactable(b, age)
    ensures Interactable(b, later)
  {
  }

  /** The buttons unlock in a fixed order: Backtrack implies DP, DP implies Greedy. */
  lemma UnlocksAreNested(age: int)
    ensures Interactable(BacktrackButton, age) ==> Interactable(DPButton, age)
    ensures Interactable(DPButton, age) ==> Interactable(GreedyButton, age)
  {
  }

  /** How many buttons are interactable at `age`. */
  function UnlockedCount(age: int): nat {
    (if Interactable(ManualButton, age) then 1 else 0) + (if Interactable(GreedyButton, age) then 1 else 0)
    + (if Interactable(DPButton, age) then 1 else 0) + (if Interactable(BacktrackButton, age) then 1 else 0)
  }

  /**
   * On the panels of a game that starts at age 0 and advances 10 years a decade,
   * decade `k` (ages 10 to 50) offers min(k, 3) + 1 strategies.
   */
  lemma UnlockSchedule(k: nat)
    requires 1 <= k <= 5
    ensures UnlockedCount(10 * k) == (if k < 3 then k else 3) + 1
  {
  }

  class UIManager {
    /** `levelUpPanel.activeSelf`. */
    var levelUpPanelActive: bool
    /** The age written in the panel's title. */
    var levelUpTitleAge: int
    /** The `interactable` flag of each strategy button. */
    var btnManual: bool
    var btnGreedy: bool
    var btnDP: bool
    var btnBacktrack: bool

    /** The panel starts hidden; Unity buttons start interactable. */
    constructor ()
      ensures !levelUpPanelActive && levelUpTitleAge == 0
      ensures btnManual && btnGreedy && btnDP && btnBacktrack
    {
      levelUpPanelActive := false;
      levelUpTitleAge := 0;
      btnManual, btnGreedy, btnDP, btnBacktrack := true, true, true, true;
    }

    /** The flag the panel holds for button `b`. */
    function Flag(b: Button): bool
      reads this
    {
      match b
      case ManualButton => btnManual
      case GreedyButton => btnGreedy
      case DPButton => btnDP
      case BacktrackButton => btnBacktrack
    }

    /** Show the panel for `age`; every button's flag is set from the age alone. */
    method ShowLevelUpPanel(age: int)
      modifies this
      ensures levelUpPanelActive && levelUpTitleAge == age
      ensures forall b: Button :: Flag(b) == Interactable(b, age)
    {
      levelUpPanelActive := true;
      levelUpTitleAge := age;
      btnManual := true;
      btnGreedy := age >= 10;
      btnDP := age >= 20;
      btnBacktrack := age >= 30;
    }

    /** Hide the panel; the buttons and the title keep their state. */
    method HideLevelUpPanel()
      modifies this
      ensures !levelUpPanelActive
      ensures levelUpTitleAge == old(levelUpTitleAge)
      ensures btnManual == old(btnManual) && btnGreedy == old(btnGreedy)
      ensures btnDP == old(btnDP) && btnBacktrack == old(btnBacktrack)
    {
      levelUpPanelActive := false;
    }
  }
}
