/** Classification of a scanned QR code: an openable URL, a restaurant reference, or text. */
module QRCode {

  /** The literal marker of a restaurant reference. */
  const RestaurantPrefix: string := "restaurant:"

  /** `hasPrefix`: the string is `p` followed by the rest. */
  function HasPrefix(s: string, p: string): (r: bool)
    ensures r <==> OccursAt(s, p, 0)
    ensures r ==> s == p + s[|p|..]
  {
    |p| <= |s| && s[..|p|] == p
  }

  /** `pat` occurs in `s` starting at index i. */
  predicate OccursAt(s: string, pat: string, i: nat) {
    i + |pat| <= |s| && s[i..i + |pat|] == pat
  }

  predicate Occurs(s: string, pat: string) {
    exists i: nat | i <= |s| :: OccursAt(s, pat, i)
  }

  /** `replacingOccurrences(of: pat, with: "")`: scanning left to right, every non-overlapping
      occurrence of `pat` is deleted, not only a leading one. */
  function RemoveOccurrences(s: string, pat: string): (r: string)
    requires |pat| > 0
    ensures |r| <= |s|
    ensures Occurs(s, pat) ==> |r| <= |s| - |pat|
    decreases |s|
  {
    if |s| == 0 then ""
    else if HasPrefix(s, pat) then RemoveOccurrences(s[|pat|..], pat)
    else
      OccursInTail(s, pat);
      [s[0]] + RemoveOccurrences(s[1..], pat)
  }

  /** An occurrence that does not start at the front starts in the tail. */
  lemma OccursInTail(s: string, pat: string)
    requires |s| > 0 && !OccursAt(s, pat, 0)
    ensures Occurs(s, pat) ==> Occurs(s[1..], pat)
  {
    if Occurs(s, pat) {
      var i: nat :| i <= |s| && OccursAt(s, pat, i);
      assert i > 0;
      assert s[1..][i - 1..i - 1 + |pat|] == s[i..i + |pat|];
      assert OccursAt(s[1..], pat, i - 1);
    }
  }

  /** Deleting occurrences leaves the string unchanged exactly when it has none. */
  lemma UnchangedIffNoMarker(s: string, pat: string)
    requires |pat| > 0
    ensures RemoveOccurrences(s, pat) == s <==> !Occurs(s, pat)
  {
    if !Occurs(s, pat) {
      NoOccurrenceUnchanged(s, pat);
    }
  }

  /** A string without any occurrence is left as it is. */
  lemma {:induction false} NoOccurrenceUnchanged(s: string, pat: string)
    requires |pat| > 0 && !Occurs(s, pat)
    ensures RemoveOccurrences(s, pat) == s
    decreases |s|
  {
    if |s| > 0 {
      assert !OccursAt(s, pat, 0);
      assert !Occurs(s[1..], pat) by {
        forall i: nat | i <= |s[1..]| && OccursAt(s[1..], pat, i) ensures false {
          assert s[1..][i..i + |pat|] == s[i + 1..i + 1 + |pat|];
          assert OccursAt(s, pat, i + 1);
        }
      }
      NoOccurrenceUnchanged(s[1..], pat);
    }
  }

  /** A leading occurrence is removed and scanning continues after it. */
  lemma LeadingOccurrenceRemoved(pat: string, rest: string)
    requires |pat| > 0
    ensures RemoveOccurrences(pat + rest, pat) == RemoveOccurrences(rest, pat)
  {
  }

  /** A part `a` in which no occurrence starts is kept as it is, and scanning goes on after it,
      wherever `a` stands in the code. */
  lemma {:induction false} MarkerFreePartKept(a: string, t: string, pat: string)
    requires |pat| > 0
    requires forall i :: 0 <= i < |a| ==> !OccursAt(a + t, pat, i)
    ensures RemoveOccurrences(a + t, pat) == a + RemoveOccurrences(t, pat)
    decreases |a|
  {
    if |a| == 0 {
      assert a + t == t;
    } else {
      var s := a + t;
      assert !OccursAt(s, pat, 0);
      assert s[1..] == a[1..] + t;
      forall i | 0 <= i < |a[1..]| ensures !OccursAt(a[1..] + t, pat, i) {
        assert !OccursAt(s, pat, i + 1);
        if i + |pat| <= |s[1..]| {
          assert s[1..][i..i + |pat|] == s[i + 1..i + 1 + |pat|];
        }
      }
      MarkerFreePartKept(a[1..], t, pat);
      assert s[0] == a[0] && a == [a[0]] + a[1..];
    }
  }

  /** A marker in the middle of a code is deleted too: "restaurant:1restaurant:2" gives "12". */
  lemma MiddleMarkerRemoved()
    ensures RemoveOccurrences("restaurant:1restaurant:2", RestaurantPrefix) == "12"
  {
    var tail := RestaurantPrefix + "2";
    assert "restaurant:1restaurant:2" == RestaurantPrefix + ("1" + tail);
    LeadingOccurrenceRemoved(RestaurantPrefix, "1" + tail);
    assert !OccursAt("1" + tail, RestaurantPrefix, 0);
    MarkerFreePartKept("1", tail, RestaurantPrefix);
    LeadingOccurrenceRemoved(RestaurantPrefix, "2");
    assert !Occurs("2", RestaurantPrefix);
    NoOccurrenceUnchanged("2", RestaurantPrefix);
  }

  /** For a code "restaurant:" + rest with no further marker, the id is exactly rest. */
  lemma RestaurantIdOfPlainCode(rest: string)
    requires !Occurs(rest, RestaurantPrefix)
    ensures RemoveOccurrences(RestaurantPrefix + rest, RestaurantPrefix) == rest
  {
    LeadingOccurrenceRemoved(RestaurantPrefix, rest);
    NoOccurrenceUnchanged(rest, RestaurantPrefix);
  }

  /** Every marker is removed: "restaurant:restaurant:" + rest yields rest, not
      "restaurant:" + rest as stripping only the prefix would. */
  lemma RepeatedMarkerRemoved(rest: string)
    requires !Occurs(rest, RestaurantPrefix)
    ensures RemoveOccurrences(RestaurantPrefix + RestaurantPrefix + rest, RestaurantPrefix) == rest
    ensures RemoveOccurrences(RestaurantPrefix + RestaurantPrefix + rest, RestaurantPrefix)
            != (RestaurantPrefix + RestaurantPrefix + rest)[|RestaurantPrefix|..]
  {
    assert RestaurantPrefix + RestaurantPrefix + rest == RestaurantPrefix + (RestaurantPrefix + rest);
    LeadingOccurrenceRemoved(RestaurantPrefix, RestaurantPrefix + rest);
    RestaurantIdOfPlainCode(rest);
  }

  /** What `processQRCode` does with a code. */
  datatype QRAction = OpenURL(url: string) | RestaurantRef(id: string) | ShowAlert(text: string)

  /** The classification in `processQRCode`; `openable` stands for "`URL(string:)` parses
      and `canOpenURL` accepts it", a platform query. */
  function Classify(code: string, openable: string -> bool): (a: QRAction)
    ensures a.OpenURL? <==> openable(code)
    ensures a.OpenURL? ==> a.url == code
    ensures a.RestaurantRef? <==> !openable(code) && HasPrefix(code, RestaurantPrefix)
    ensures a.RestaurantRef? ==> a.id == RemoveOccurrences(code, RestaurantPrefix)
    ensures a.ShowAlert? <==> !openable(code) && !HasPrefix(code, RestaurantPrefix)
    ensures a.ShowAlert? ==> a.text == code
  {
    if openable(code) then OpenURL(code)
    else if HasPrefix(code, RestaurantPrefix) then RestaurantRef(RemoveOccurrences(code, RestaurantPrefix))
    else ShowAlert(code)
  }

  /** A restaurant code whose remainder has no marker yields the remainder as its id. */
  lemma RestaurantIdIsRemainder(code: string, openable: string -> bool)
    requires !openable(code) && HasPrefix(code, RestaurantPrefix)
    requires !Occurs(code[|RestaurantPrefix|..], RestaurantPrefix)
    ensures Classify(code, openable) == RestaurantRef(code[|RestaurantPrefix|..])
  {
    assert code == RestaurantPrefix + code[|RestaurantPrefix|..];
    RestaurantIdOfPlainCode(code[|RestaurantPrefix|..]);
  }

  /** The three example codes: a web address, a restaurant reference and plain text. */
  lemma ClassifyExamples(openable: string -> bool)
    requires openable("https://example.com")
    requires !openable("restaurant:42") && !openable("hello")
    ensures Classify("https://example.com", openable) == OpenURL("https://example.com")
    ensures Classify("restaurant:42", openable) == RestaurantRef("42")
    ensures Classify("hello", openable) == ShowAlert("hello")
  {
  }
}
