/** The swipe-session controller: the state `ContentView` keeps and the actions that change it. */
module Controller {
  import opened Models
  import opened Deck
  import opened Screens
  import opened FilterToggle
  import opened QRCode

  /** The drag offset (`CGSize`). */
  datatype Offset = Offset(width: real, height: real)

  const Zero: Offset := Offset(0.0, 0.0)

  /** The member list solo mode installs. */
  const SoloMembers: seq<string> := ["You"]

  class ContentView {
    /** The dish catalog (`sampleDishes`) each session starts from. */
    const catalog: seq<Dish>

    var currentScreen: Screen
    var currentGroup: Group
    /** The remaining deck; its last element is the top card. */
    var dishes: seq<Dish>
    /** The liked dishes, in the order they were liked. */
    var selectedDishes: seq<Dish>
    var offset: Offset
    var cardRemovalTransition: Transition
    var scannedCode: string
    var showingQRResult: bool
    /** Jumps to Results scheduled with `asyncAfter` that have not fired yet; none is ever
        cancelled. */
    var pendingResultJumps: nat

    /** The deck is what is left of the catalog after removing from the end; every liked dish
        comes from the catalog, has left the deck, and was liked once. */
    ghost predicate Valid()
      reads this
    {
      && UniqueIds(catalog)
      && |dishes| <= |catalog| && dishes == catalog[..|dishes|]
      && LikedOutside(dishes)
    }

    /** Every liked dish comes from the catalog, lies outside `deck`, and was liked once. */
    ghost predicate LikedOutside(deck: seq<Dish>)
      reads this
    {
      && (forall d :: d in selectedDishes ==> d in catalog && d !in deck)
      && (forall i, j :: 0 <= i < j < |selectedDishes| ==> selectedDishes[i] != selectedDishes[j])
    }

    /** The invariant as it stands between liking the top card and removing it: the liked
        dishes lie outside the deck once its top card is gone. */
    ghost predicate ReadyToPop()
      reads this
    {
      && UniqueIds(catalog)
      && |dishes| <= |catalog| && dishes == catalog[..|dishes|]
      && LikedOutside(Popped(dishes))
    }

    /** The initial `@State` values. */
    constructor (catalog: seq<Dish>, group: Group)
      requires UniqueIds(catalog)
      ensures Valid()
      ensures this.catalog == catalog && currentGroup == group
      ensures currentScreen == Welcome && dishes == catalog && selectedDishes == []
      ensures offset == Zero && cardRemovalTransition == TrailingBottom
      ensures scannedCode == "" && !showingQRResult && pendingResultJumps == 0
    {
      this.catalog := catalog;
      currentScreen := Welcome;
      currentGroup := group;
      dishes := catalog;
      selectedDishes := [];
      offset := Zero;
      cardRemovalTransition := TrailingBottom;
      scannedCode := "";
      showingQRResult := false;
      pendingResultJumps := 0;
    }

    /** `removeTopCard`: reset the offset, pop the top card if any, and schedule the jump to
        Results when that pop empties the deck. */
    method RemoveTopCard()
      requires ReadyToPop()
      modifies this`offset, this`dishes, this`pendingResultJumps
      ensures Valid()
      ensures offset == Zero
      ensures |old(dishes)| > 0 ==> dishes == old(dishes)[..|old(dishes)| - 1]
      ensures |old(dishes)| == 0 ==> dishes == old(dishes)
      ensures pendingResultJumps == old(pendingResultJumps) + (if |old(dishes)| == 1 then 1 else 0)
    {
      offset := Zero;
      if |dishes| > 0 {
        dishes := dishes[..|dishes| - 1];
        if |dishes| == 0 {
          pendingResultJumps := pendingResultJumps + 1;
        }
      }
    }

    /** The scheduled callback runs: the screen becomes Results, whatever it is now. */
    method FireResultsJump()
      requires pendingResultJumps > 0
      modifies this`currentScreen, this`pendingResultJumps
      ensures currentScreen == Results
      ensures pendingResultJumps == old(pendingResultJumps) - 1
    {
      currentScreen := Results;
      pendingResultJumps := pendingResultJumps - 1;
    }

    /** The drag `onChanged` handler: the offset follows the gesture. */
    method DragChanged(translation: Offset)
      modifies this`offset
      ensures offset == translation
    {
      offset := translation;
    }

    /** The drag `onEnded` handler: past the threshold the sign decides; a right swipe likes the
        top card; the card is removed. Otherwise the card snaps back. */
    method DragEnded()
      requires Valid()
      modifies this`offset, this`dishes, this`selectedDishes, this`cardRemovalTransition,
        this`pendingResultJumps
      ensures Valid()
      ensures offset == Zero
      ensures DragDecision(old(offset.width)) == SnapBack ==>
        dishes == old(dishes) && pendingResultJumps == old(pendingResultJumps)
        && cardRemovalTransition == old(cardRemovalTransition)
      ensures DragDecision(old(offset.width)) == Accept ==> cardRemovalTransition == TrailingBottom
      ensures DragDecision(old(offset.width)) == Reject ==> cardRemovalTransition == LeadingBottom
      ensures DragDecision(old(offset.width)) != SnapBack ==>
        dishes == Popped(old(dishes))
        && pendingResultJumps == old(pendingResultJumps) + (if |old(dishes)| == 1 then 1 else 0)
      ensures selectedDishes ==
        if DragDecision(old(offset.width)) == Accept then old(selectedDishes) + TopAsList(old(dishes))
        else old(selectedDishes)
    {
      if Abs(offset.width) > SwipeThreshold {
        cardRemovalTransition := if offset.width > 0.0 then TrailingBottom else LeadingBottom;
        if offset.width > 0.0 && |dishes| > 0 {
          LikeTop();
        }
        RemoveTopCard();
      } else {
        offset := Zero;
      }
    }

    /** Appends the top card to the liked list (`selectedDishes.append(topDish)`). */
    method LikeTop()
      requires Valid() && |dishes| > 0
      modifies this`selectedDishes
      ensures ReadyToPop()
      ensures selectedDishes == old(selectedDishes) + [dishes[|dishes| - 1]]
    {
      var n := |dishes|;
      var top := dishes[n - 1];
      var rest := dishes[..n - 1];
      assert top in catalog by { assert catalog[n - 1] == top; }
      assert top !in rest by {
        forall j | 0 <= j < n - 1 ensures rest[j] != top {
          assert rest[j].id == catalog[j].id && top.id == catalog[n - 1].id;
        }
      }
      assert top !in selectedDishes;
      forall d | d in selectedDishes ensures d !in rest {
        assert d !in dishes;
      }
      selectedDishes := selectedDishes + [top];
    }

    /** The X button: removes the top card without liking it. */
    method RejectTapped()
      requires Valid()
      modifies this`offset, this`dishes, this`cardRemovalTransition, this`pendingResultJumps
      ensures Valid()
      ensures cardRemovalTransition == LeadingBottom && offset == Zero
      ensures dishes == Popped(old(dishes))
      ensures pendingResultJumps == old(pendingResultJumps) + (if |old(dishes)| == 1 then 1 else 0)
    {
      cardRemovalTransition := LeadingBottom;
      RemoveTopCard();
    }

    /** The heart button: likes the top card, when there is one, and removes it. */
    method AcceptTapped()
      requires Valid()
      modifies this`offset, this`dishes, this`selectedDishes, this`cardRemovalTransition,
        this`pendingResultJumps
      ensures Valid()
      ensures cardRemovalTransition == TrailingBottom && offset == Zero
      ensures selectedDishes == old(selectedDishes) + TopAsList(old(dishes))
      ensures dishes == Popped(old(dishes))
      ensures pendingResultJumps == old(pendingResultJumps) + (if |old(dishes)| == 1 then 1 else 0)
    {
      if |dishes| > 0 {
        LikeTop();
      }
      cardRemovalTransition := TrailingBottom;
      RemoveTopCard();
    }

    /** "Start Group Session" on Welcome. */
    method StartGroupSession()
      modifies this`currentScreen
      ensures currentScreen == JoinGroup
    {
      currentScreen := JoinGroup;
    }

    /** "Solo Mode" on Welcome: the group shrinks to the single member "You" and the flow skips
        JoinGroup. */
    method SoloMode()
      modifies this`currentGroup, this`currentScreen
      ensures currentGroup == old(currentGroup).(members := SoloMembers)
      ensures currentScreen == Filters
    {
      currentGroup := currentGroup.(members := SoloMembers);
      currentScreen := Filters;
    }

    /** "Continue" on JoinGroup. */
    method ContinueToFilters()
      modifies this`currentScreen
      ensures currentScreen == Filters
    {
      currentScreen := Filters;
    }

    /** "Start Swiping" on Filters. */
    method StartSwiping()
      modifies this`currentScreen
      ensures currentScreen == SwipeDishes
    {
      currentScreen := SwipeDishes;
    }

    /** "See Results", shown once the deck is empty. */
    method SeeResults()
      modifies this`currentScreen
      ensures currentScreen == Results
    {
      currentScreen := Results;
    }

    /** The back button (`goBack`). */
    method GoBack()
      modifies this`currentScreen
      ensures currentScreen == Back(old(currentScreen))
      ensures Stage(old(currentScreen)) > 0 ==> Stage(currentScreen) + 1 == Stage(old(currentScreen))
    {
      match currentScreen
      case JoinGroup => currentScreen := Welcome;
      case Filters => currentScreen := JoinGroup;
      case SwipeDishes => currentScreen := Filters;
      case Results => currentScreen := SwipeDishes;
      case Welcome =>
    }

    /** "Try Again" on an empty Results screen: a fresh deck, no likes, back to Filters. */
    method TryAgain()
      requires UniqueIds(catalog)
      modifies this`dishes, this`selectedDishes, this`currentScreen
      ensures Valid()
      ensures dishes == catalog && selectedDishes == [] && currentScreen == Filters
    {
      dishes := catalog;
      selectedDishes := [];
      currentScreen := Filters;
    }

    /** "Start Over" on Results: a fresh deck, no likes, back to Welcome. */
    method StartOver()
      requires UniqueIds(catalog)
      modifies this`dishes, this`selectedDishes, this`currentScreen
      ensures Valid()
      ensures dishes == catalog && selectedDishes == [] && currentScreen == Welcome
    {
      dishes := catalog;
      selectedDishes := [];
      currentScreen := Welcome;
    }

    /** Tapping a dietary check box; computes `FilterToggle.Toggle` in place. */
    method ToggleDietary(option: string)
      requires option in DietaryOptions
      modifies this`currentGroup
      ensures currentGroup == old(currentGroup).(dietaryFilters := Toggle(old(currentGroup.dietaryFilters), option))
    {
      var filters := currentGroup.dietaryFilters;
      if option in filters {
        filters := RemoveAll(filters, option);
      } else {
        filters := filters + [option];
      }
      currentGroup := currentGroup.(dietaryFilters := filters);
    }

    /** Tapping a vibe check box; computes `FilterToggle.Toggle` in place. */
    method ToggleVibe(option: string)
      requires option in VibeOptions
      modifies this`currentGroup
      ensures currentGroup == old(currentGroup).(vibeFilters := Toggle(old(currentGroup.vibeFilters), option))
    {
      var filters := currentGroup.vibeFilters;
      if option in filters {
        filters := RemoveAll(filters, option);
      } else {
        filters := filters + [option];
      }
      currentGroup := currentGroup.(vibeFilters := filters);
    }

    /** `processQRCode`, carrying out `QRCode.Classify`: only the unrecognised case raises the
        alert. */
    method ProcessQRCode(code: string, openable: string -> bool) returns (action: QRAction)
      modifies this`showingQRResult
      ensures action == Classify(code, openable)
      ensures showingQRResult == (action.ShowAlert? || old(showingQRResult))
    {
      if openable(code) {
        return OpenURL(code);
      }
      if HasPrefix(code, RestaurantPrefix) {
        var id := RemoveOccurrences(code, RestaurantPrefix);
        return RestaurantRef(id);
      }
      showingQRResult := true;
      action := ShowAlert(code);
    }

    /** The scanner writes the scanned code; `onChange` processes a new, non-empty value. */
    method CodeScanned(code: string, openable: string -> bool) returns (action: Option<QRAction>)
      modifies this`scannedCode, this`showingQRResult
      ensures scannedCode == code
      ensures action == if code != old(scannedCode) && code != "" then Some(Classify(code, openable)) else None
      ensures showingQRResult == ((action.Some? && action.value.ShowAlert?) || old(showingQRResult))
    {
      var changed := code != scannedCode;
      scannedCode := code;
      if changed && code != "" {
        var a := ProcessQRCode(code, openable);
        action := Some(a);
      } else {
        action := None;
      }
    }

    /** "OK" on the alert: it closes and the scanned code is cleared. */
    method DismissAlert()
      modifies this`scannedCode, this`showingQRResult
      ensures scannedCode == "" && !showingQRResult
    {
      showingQRResult := false;
      scannedCode := "";
    }
  }

  /** Solo mode from a fresh session, then back: the group is just "You", and back lands on
      JoinGroup although solo mode skipped it. */
  method SoloModeThenBack(catalog: seq<Dish>, group: Group) returns (screen: Screen, members: seq<string>)
    requires UniqueIds(catalog)
    ensures screen == JoinGroup && members == ["You"]
  {
    var view := new ContentView(catalog, group);
    view.SoloMode();
    view.GoBack();
    screen, members := view.currentScreen, view.currentGroup.members;
  }

  /** Swiping right on the only card of a one-dish deck likes it, empties the deck and
      schedules exactly one jump to Results. */
  method LastCardSwipedRight(dish: Dish, group: Group, width: real)
    returns (liked: seq<Dish>, remaining: seq<Dish>, jumps: nat)
    requires width > SwipeThreshold
    ensures liked == [dish] && remaining == [] && jumps == 1
  {
    var view := new ContentView([dish], group);
    view.DragChanged(Offset(width, 0.0));
    view.DragEnded();
    liked, remaining, jumps := view.selectedDishes, view.dishes, view.pendingResultJumps;
  }

  /** The group path from a fresh session: each forward button, pressed on the screen that
      shows it, moves up exactly one stage, and back from the screen it reached returns to the
      screen the button was pressed on. `forward[k]` is the screen after the (k+1)-th button,
      `back[k]` the screen after pressing back there. */
  method GroupPathForwardThenBack(catalog: seq<Dish>, group: Group)
    returns (forward: seq<Screen>, back: seq<Screen>)
    requires UniqueIds(catalog)
    ensures |forward| == 4 && |back| == 4
    ensures forall k :: 0 <= k < 4 ==> Stage(forward[k]) == k + 1
    ensures back[0] == Welcome
    ensures forall k :: 1 <= k < 4 ==> back[k] == forward[k - 1]
  {
    var view := new ContentView(catalog, group);
    view.StartGroupSession();
    var f0 := view.currentScreen;
    view.GoBack();
    var b0 := view.currentScreen;
    view.StartGroupSession();
    view.ContinueToFilters();
    var f1 := view.currentScreen;
    view.GoBack();
    var b1 := view.currentScreen;
    view.ContinueToFilters();
    view.StartSwiping();
    var f2 := view.currentScreen;
    view.GoBack();
    var b2 := view.currentScreen;
    view.StartSwiping();
    view.SeeResults();
    var f3 := view.currentScreen;
    view.GoBack();
    var b3 := view.currentScreen;
    forward, back := [f0, f1, f2, f3], [b0, b1, b2, b3];
  }
}
