/** The five screens of the app and the back-navigation map between them. */
module Screens {

  datatype Screen = Welcome | JoinGroup | Filters | SwipeDishes | Results

  /** `goBack`: one screen back along the main path; nothing happens on Welcome. */
  function Back(s: Screen): (r: Screen)
    ensures s == Welcome ==> r == Welcome
    ensures s != Welcome ==> Stage(r) + 1 == Stage(s)
  {
    match s
    case JoinGroup => Welcome
    case Filters => JoinGroup
    case SwipeDishes => Filters
    case Results => SwipeDishes
    case Welcome => Welcome
  }

  /** The position of a screen along the group-session path Welcome, JoinGroup, Filters,
      SwipeDishes, Results, which the forward buttons walk one step at a time. */
  function Stage(s: Screen): (n: nat)
    ensures n == 0 <==> s == Welcome
  {
    match s
    case Welcome => 0
    case JoinGroup => 1
    case Filters => 2
    case SwipeDishes => 3
    case Results => 4
  }

  /** The back button is shown everywhere except on Welcome. */
  function ShowsBackButton(s: Screen): (shown: bool)
    ensures shown <==> Back(s) != s
  {
    s != Welcome
  }

  /** Back undoes one forward step: whatever screen t sits one stage before s is where back
      from s lands. */
  lemma BackIsPreviousStage(s: Screen, t: Screen)
    ensures Stage(t) + 1 == Stage(s) ==> Back(s) == t
  {
  }

  /** The screen reached by pressing back n times. */
  function BackTimes(s: Screen, n: nat): Screen
    decreases n
  {
    if n == 0 then s else BackTimes(Back(s), n - 1)
  }

  /** Pressing back at least Stage(s) times from any screen always ends on Welcome. */
  lemma {:induction false} BackReachesWelcome(s: Screen, n: nat)
    requires n >= Stage(s)
    ensures BackTimes(s, n) == Welcome
    decreases n
  {
    if n > 0 {
      if s == Welcome {
        BackReachesWelcome(s, n - 1);
      } else {
        BackReachesWelcome(Back(s), n - 1);
      }
    }
  }

  /** `headerTitle` */
  function HeaderTitle(s: Screen): (t: string)
    ensures t == "" <==> s == Welcome
  {
    match s
    case Welcome => ""
    case JoinGroup => "Create Group"
    case Filters => "Preferences"
    case SwipeDishes => "Swipe Dishes"
    case Results => "Results"
  }

  /** Each screen has its own title. */
  lemma HeaderTitlesDistinct(a: Screen, b: Screen)
    ensures HeaderTitle(a) == HeaderTitle(b) ==> a == b
  {
  }
}
