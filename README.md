# Dish Decider swipe session, modelled in Dafny

This project models the swipe-session controller of the Dish Decider iOS app. In the app, a
group (or one person in solo mode) picks dietary and vibe preferences. They then swipe through
a deck of dishes: right or the heart button likes a dish, left or the X button passes on it.
The liked dishes appear on a Results screen. The controller state lives in the SwiftUI view
`ContentView` (ContentView.swift). The model keeps that state in the Dafny class
`Controller.ContentView` and turns each button, gesture and scan handler into a method.

- `Models`: the `Dish` and `Group` values. A UUID is an opaque number, and `UniqueIds` says the
  catalog's UUIDs are distinct.
- `Deck`: the deck rules.
  - The top card is the last element, and `isTopCard` does a first-index search by id
    (`FirstIndex`, `IsTopCard`).
  - Cards leave the deck tail first.
  - `DragDecision` is the 120-point threshold rule applied when a drag ends.
- `Screens`: the five screens, the `goBack` map, the header titles, and the order in which the
  forward buttons walk the screens.
- `FilterToggle`: the check-box toggle. If the option is present, every copy is removed;
  otherwise it is appended.
- `QRCode`: classifies a scanned code as an openable URL, a `restaurant:` reference or plain
  text. It deletes every occurrence of `restaurant:` from a reference, as the code does.
- `Controller`: the `ContentView` class.
  - `Valid()` is its invariant. The deck is always a prefix of the catalog. The liked dishes
    are distinct catalog dishes that have left the deck.
  - The delayed jump to Results (`DispatchQueue.main.asyncAfter`) is a counter of scheduled
    callbacks that have not fired yet. `FireResultsJump` is one callback firing. It sets
    Results unconditionally, because the app never cancels the callback.

Three behaviours of the code are kept as written:

- The id of a `restaurant:` code is the code with every `restaurant:` occurrence deleted, not
  just the leading one (ContentView.swift:880). `QRCode.MiddleMarkerRemoved` and
  `QRCode.RepeatedMarkerRemoved` show the difference.
- After solo mode skips JoinGroup, back from Filters still goes to JoinGroup
  (`Controller.SoloModeThenBack`).
- A pending jump to Results fires whatever screen is showing by then.

The source has no loops of its own. `firstIndex`, `removeAll` and `replacingOccurrences` are
library calls, so they are modelled as recursive functions.

## Model

| member | source | states |
|---|---|---|
| `Deck.FirstIndex` | ContentView.swift:849 | the index found holds the id and no earlier card does; none is found exactly when no card has the id |
| `Deck.IsTopCard` | ContentView.swift:848-853 | true iff the deck is non-empty, its last card has the dish's id, and no earlier card has it; false for a dish not in the deck |
| `Deck.TopCardIsLast` | ContentView.swift:848-853 | with distinct ids, a dish is the top card iff its id is the last card's id |
| `Deck.OnlyLastIsTop` | ContentView.swift:577-581 | with distinct ids, the card at index i is the one rendered and interactive iff i is the last index |
| `Deck.Popped` | ContentView.swift:858-860 | removing the top card shortens a non-empty deck by one and keeps every remaining card at its index; an empty deck stays empty |
| `Deck.TopAsList` | ContentView.swift:596-597 | the former top card as a list of at most one element; the popped deck followed by it is the original deck |
| `Deck.RemovalOrderIsReverse` | ContentView.swift:856-861 | repeated removal takes the cards in reverse deck order: the k-th taken is the k-th from the end |
| `Deck.DragDecision` | ContentView.swift:590-593 | accept iff width > 120, reject iff width < -120, snap back iff -120 <= width <= 120 |
| `Deck.ThresholdBoundaries` | ContentView.swift:590-591 | exactly ±120 snaps back; 120.0001 accepts and -120.0001 rejects |
| `Screens.Stage` | ContentView.swift:204-210 | numbers the screens along the group path; stage 0 is exactly Welcome (that the forward buttons climb it one step at a time is `Controller.GroupPathForwardThenBack`) |
| `Screens.Back` | ContentView.swift:832-845 | back from Welcome stays on Welcome; from any other screen it lands one stage earlier |
| `Screens.ShowsBackButton` | ContentView.swift:230 | the back button is shown exactly on the screens where back moves |
| `Screens.BackIsPreviousStage` | ContentView.swift:832-845 | whatever screen sits one stage before s is where back from s lands |
| `Screens.BackReachesWelcome` | ContentView.swift:832-845 | pressing back Stage(s) or more times from any screen ends on Welcome |
| `Screens.HeaderTitle` | ContentView.swift:816-829 | the header title is empty exactly on Welcome |
| `Screens.HeaderTitlesDistinct` | ContentView.swift:816-829 | different screens have different titles |
| `FilterToggle.RemoveAll` | ContentView.swift:477 | the result keeps every other element with its multiplicity and holds no copy of the option |
| `FilterToggle.Toggle` | ContentView.swift:476-480 | a present option loses every copy and nothing else changes; an absent option is appended at the end |
| `FilterToggle.RemoveAllAbsent` | ContentView.swift:477 | removing an option that does not occur leaves the list unchanged |
| `FilterToggle.ToggleTwiceRestores` | ContentView.swift:476-480 | toggling an absent option twice restores the original list |
| `FilterToggle.RemoveAllNoDuplicates` | ContentView.swift:477 | removal keeps a duplicate-free list duplicate-free |
| `FilterToggle.ToggleKeepsNoDuplicates` | ContentView.swift:476-480 | a toggle keeps a duplicate-free filter list duplicate-free |
| `FilterToggle.ToggleTwiceSameOptions` | ContentView.swift:476-480 | toggling a present option of a duplicate-free list twice gives back the same options |
| `QRCode.HasPrefix` | ContentView.swift:879 | true iff the marker occurs at index 0, in which case the code is the marker followed by the rest |
| `QRCode.RemoveOccurrences` | ContentView.swift:880 | deleting occurrences never lengthens the code, and shortens it by at least one marker's length whenever a marker occurs anywhere |
| `QRCode.UnchangedIffNoMarker` | ContentView.swift:880 | the code comes back unchanged exactly when no marker occurs in it |
| `QRCode.NoOccurrenceUnchanged` | ContentView.swift:880 | a string with no occurrence of the marker is returned unchanged |
| `QRCode.MarkerFreePartKept` | ContentView.swift:880 | a part in which no marker starts is kept as it is wherever it stands, and deletion goes on after it |
| `QRCode.MiddleMarkerRemoved` | ContentView.swift:880 | a marker in the middle is deleted too: "restaurant:1restaurant:2" gives "12" |
| `QRCode.RestaurantIdOfPlainCode` | ContentView.swift:879-880 | for "restaurant:" + rest, with no marker in rest, the id is rest |
| `QRCode.RepeatedMarkerRemoved` | ContentView.swift:880 | "restaurant:restaurant:" + rest yields rest, which differs from what stripping only the prefix gives |
| `QRCode.Classify` | ContentView.swift:871-887 | open the URL iff it is openable; otherwise a restaurant reference iff the code has the prefix, with the id being the code with every marker deleted; otherwise the alert with the raw code |
| `QRCode.RestaurantIdIsRemainder` | ContentView.swift:879-882 | a non-openable restaurant code with no further marker yields the rest after the prefix as its id |
| `QRCode.ClassifyExamples` | ContentView.swift:871-887 | "https://example.com" opens, "restaurant:42" gives id "42", "hello" raises the alert with "hello" |
| `Controller.ContentView.constructor` | ContentView.swift:212-223 | starts on Welcome with the full catalog as the deck, no likes, zero offset, no alert and no pending jump |
| `Controller.ContentView.RemoveTopCard` | ContentView.swift:856-869 | the offset becomes zero; a non-empty deck loses its last card and keeps its prefix; an empty deck is unchanged; one jump to Results is scheduled exactly when this call empties the deck; the invariant is kept |
| `Controller.ContentView.FireResultsJump` | ContentView.swift:864-866 | a scheduled callback fires: the screen becomes Results whatever it was, and one fewer jump is pending |
| `Controller.ContentView.DragChanged` | ContentView.swift:586-588 | the offset becomes the gesture's translation |
| `Controller.ContentView.DragEnded` | ContentView.swift:589-610 | below the threshold, the deck, likes and pending jumps stay unchanged and the offset snaps to zero; past it, exactly one card is removed, the transition matches the sign, and the former top is appended to the likes iff the width is positive |
| `Controller.ContentView.LikeTop` | ContentView.swift:596-598 | appends the current top card to the likes, which then lie outside the deck once its top is removed |
| `Controller.ContentView.RejectTapped` | ContentView.swift:619-623 | the X button removes the top card with the leading transition and leaves the likes unchanged |
| `Controller.ContentView.AcceptTapped` | ContentView.swift:636-644 | the heart button appends the former top card, if any, to the likes and removes it with the trailing transition |
| `Controller.ContentView.StartGroupSession` | ContentView.swift:312 | the screen becomes JoinGroup |
| `Controller.ContentView.SoloMode` | ContentView.swift:319-322 | the members become ["You"], the other group fields stay as they were, and the screen becomes Filters |
| `Controller.ContentView.ContinueToFilters` | ContentView.swift:416 | the screen becomes Filters |
| `Controller.ContentView.StartSwiping` | ContentView.swift:539 | the screen becomes SwipeDishes |
| `Controller.ContentView.SeeResults` | ContentView.swift:567 | the screen becomes Results |
| `Controller.ContentView.GoBack` | ContentView.swift:832-845 | the screen becomes Back of the old screen, one stage earlier unless it was Welcome |
| `Controller.ContentView.TryAgain` | ContentView.swift:682-686 | from any prior state: the deck is the catalog, there are no likes, the screen is Filters, and the invariant holds |
| `Controller.ContentView.StartOver` | ContentView.swift:794-798 | from any prior state: the deck is the catalog, there are no likes, the screen is Welcome, and the invariant holds |
| `Controller.ContentView.ToggleDietary` | ContentView.swift:475-481 | the dietary filters become their toggle by the tapped option, and nothing else in the group changes |
| `Controller.ContentView.ToggleVibe` | ContentView.swift:512-518 | the vibe filters become their toggle by the tapped option, and nothing else in the group changes |
| `Controller.ContentView.ProcessQRCode` | ContentView.swift:871-887 | the action taken is the classification of the code; the alert flag is raised only for unrecognised codes |
| `Controller.ContentView.CodeScanned` | ContentView.swift:269-273 | the scanned code is stored; a changed, non-empty code is processed, and any other value is not |
| `Controller.ContentView.DismissAlert` | ContentView.swift:274-277 | "OK" closes the alert and clears the scanned code |
| `Controller.GroupPathForwardThenBack` | ContentView.swift:312-567 | from a fresh session, each group-path forward button (lines 312, 416, 539, 567) pressed on its screen climbs exactly one stage, and back (lines 832-845) then returns to the screen it was pressed on |
| `Controller.SoloModeThenBack` | ContentView.swift:319-322 | solo mode and then back from a fresh session give members ["You"] and the JoinGroup screen |
| `Controller.LastCardSwipedRight` | ContentView.swift:589-603 | a right swipe past the threshold on a one-card deck likes that card, empties the deck, and schedules exactly one jump to Results |

## Left out

- SwiftUI layout and styling are left out: `AppTheme`, the screen view bodies, and
  `DishCardView` with its `showDetails` toggle. They are presentational.
- Animations and transitions are left out. The chosen removal direction is kept only as the
  two-valued `Transition` tag.
- The rotation `width / 40` and the vertical damping `* 0.4` (ContentView.swift:582-583) are
  left out. They are floating-point rendering hints. The offset's height is stored but never
  read, and its width is a `real` used only in the threshold test.
- The `QRScannerView`, `QRScannerViewController`, `QRScannerButton` and `QRScannerSheet` types
  (ContentView.swift:918-1108) are left out, along with the `isShowingScanner` flag. They are
  camera and UIKit plumbing. The scanner appears only as the caller of
  `ContentView.CodeScanned`.
- `URL(string:)`, `UIApplication.canOpenURL` and `open` are platform calls. They are the
  parameter `openable`, and opening the URL is the returned `OpenURL` action.
- The 0.5-second delay of `asyncAfter` is not modelled as time. A scheduled jump is a pending
  count, and its firing is the separate event `FireResultsJump`.
- These are left out as having no behaviour to state:
  - `Restaurant.distanceToUser`, a stub returning 0.0;
  - the radius slider (ContentView.swift:443);
  - the empty "Share Link" and "QR Code" actions (ContentView.swift:372-412);
  - the Results screen showing at most three likes (ContentView.swift:723).
- The sample catalog and the sample group are constructor parameters, not their contents.
  `Dish.id` comes from `UUID()`, so the constructor requires distinct ids.
- Item.swift is not part of this model. It is a SwiftData record holding a date, with no
  behaviour.
- Swift compares strings by Unicode canonical equivalence. Here strings are sequences of
  characters compared one by one, in `Toggle`, `HasPrefix` and `RemoveOccurrences`.
