/** The card deck: the top card is the LAST element, found by a first-index search. */
module Deck {
  import opened Models

  /** `dishes.firstIndex(where: { $0.id == id })`. */
  function FirstIndex(deck: seq<Dish>, id: Uuid): (r: Option<nat>)
    ensures r.Some? ==> r.value < |deck| && deck[r.value].id == id
    ensures r.Some? ==> forall j :: 0 <= j < r.value ==> deck[j].id != id
    ensures r.None? <==> forall j :: 0 <= j < |deck| ==> deck[j].id != id
  {
    if |deck| == 0 then None
    else if deck[0].id == id then Some(0)
    else match FirstIndex(deck[1..], id)
      case None => None
      case Some(k) => Some(k + 1)
  }

  /** `isTopCard`: the first card with the dish's id sits at index `count - 1`. */
  function IsTopCard(deck: seq<Dish>, dish: Dish): (r: bool)
    ensures r <==> |deck| > 0 && deck[|deck| - 1].id == dish.id
                   && forall j :: 0 <= j < |deck| - 1 ==> deck[j].id != dish.id
    ensures (forall j :: 0 <= j < |deck| ==> deck[j].id != dish.id) ==> !r
  {
    match FirstIndex(deck, dish.id)
    case None => false
    case Some(i) => i == |deck| - 1
  }

  /** With distinct ids, the top card is exactly the one whose id is the last card's. */
  lemma TopCardIsLast(deck: seq<Dish>, dish: Dish)
    requires UniqueIds(deck)
    ensures IsTopCard(deck, dish) <==> |deck| > 0 && deck[|deck| - 1].id == dish.id
  {
  }

  /** With distinct ids, exactly one card of a deck is interactive: the last one. */
  lemma OnlyLastIsTop(deck: seq<Dish>, i: nat)
    requires UniqueIds(deck) && i < |deck|
    ensures IsTopCard(deck, deck[i]) <==> i == |deck| - 1
  {
  }

  /** The deck after `removeTopCard`: `removeLast()` when non-empty, otherwise unchanged. */
  function Popped(deck: seq<Dish>): (r: seq<Dish>)
    ensures |r| == if |deck| == 0 then 0 else |deck| - 1
    ensures forall i :: 0 <= i < |r| ==> r[i] == deck[i]
  {
    if |deck| == 0 then deck else deck[..|deck| - 1]
  }

  /** The former top card when there was one, as appended to the liked list. */
  function TopAsList(deck: seq<Dish>): (r: seq<Dish>)
    ensures |r| <= 1
    ensures Popped(deck) + r == deck
  {
    if |deck| == 0 then [] else [deck[|deck| - 1]]
  }

  /** The cards in the order successive removals take them off the deck. */
  function RemovalOrder(deck: seq<Dish>): seq<Dish>
    decreases |deck|
  {
    if |deck| == 0 then [] else [deck[|deck| - 1]] + RemovalOrder(deck[..|deck| - 1])
  }

  /** Removal is tail first: the k-th card taken is the k-th from the end of the deck. */
  lemma {:induction false} RemovalOrderIsReverse(deck: seq<Dish>)
    ensures |RemovalOrder(deck)| == |deck|
    ensures forall k :: 0 <= k < |deck| ==> RemovalOrder(deck)[k] == deck[|deck| - 1 - k]
    decreases |deck|
  {
    if |deck| > 0 {
      var n := |deck|;
      var rest := deck[..n - 1];
      RemovalOrderIsReverse(rest);
      var order := RemovalOrder(deck);
      assert order == [deck[n - 1]] + RemovalOrder(rest);
      forall k | 0 <= k < n
        ensures order[k] == deck[n - 1 - k]
      {
        if k > 0 {
          assert order[k] == RemovalOrder(rest)[k - 1] == rest[n - 1 - k];
        }
      }
    }
  }

  /** The fixed horizontal distance a drag must exceed to decide (`swipeThreshold`). */
  const SwipeThreshold: real := 120.0

  datatype Decision = Accept | Reject | SnapBack

  /** The removal animation of a card (`.trailingBottom` / `.leadingBottom`). */
  datatype Transition = TrailingBottom | LeadingBottom

  function Abs(x: real): real {
    if x < 0.0 then -x else x
  }

  /** The rule of the drag `onEnded` handler on the final horizontal offset. */
  function DragDecision(width: real): (d: Decision)
    ensures d == Accept <==> width > SwipeThreshold
    ensures d == Reject <==> width < -SwipeThreshold
    ensures d == SnapBack <==> -SwipeThreshold <= width <= SwipeThreshold
  {
    if Abs(width) > SwipeThreshold then
      (if width > 0.0 then Accept else Reject)
    else SnapBack
  }

  /** The boundary values: exactly 120 snaps back, anything past it decides. */
  lemma ThresholdBoundaries()
    ensures DragDecision(120.0) == SnapBack && DragDecision(-120.0) == SnapBack
    ensures DragDecision(120.0001) == Accept && DragDecision(-120.0001) == Reject
  {
  }
}
