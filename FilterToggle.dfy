/** The dietary and vibe check boxes: tapping an option toggles its membership in a list. */
module FilterToggle {

  /** The options offered on the Filters screen. */
  const DietaryOptions: seq<string> := ["Vegetarian", "Vegan", "Gluten-Free", "Dairy-Free", "Nut-Free"]
  const VibeOptions: seq<string> := ["Casual", "Upscale", "Fast", "Family-Friendly", "Date Night"]

  /** `removeAll { $0 == x }`: drops every copy of x and keeps everything else in order. */
  function RemoveAll(s: seq<string>, x: string): (r: seq<string>)
    ensures multiset(r) == multiset(s)[x := 0]
    ensures x !in r
  {
    if |s| == 0 then []
    else
      assert s == [s[0]] + s[1..];
      if s[0] == x then RemoveAll(s[1..], x) else [s[0]] + RemoveAll(s[1..], x)
  }

  /** The tap handler: remove every copy when present, otherwise append at the end. */
  function Toggle(s: seq<string>, option: string): (r: seq<string>)
    ensures option in s ==> option !in r && multiset(r) == multiset(s)[option := 0]
    ensures option !in s ==> r == s + [option]
  {
    if option in s then RemoveAll(s, option) else s + [option]
  }

  /** A list in which no option occurs twice. */
  predicate NoDuplicates(s: seq<string>) {
    forall i, j :: 0 <= i < j < |s| ==> s[i] != s[j]
  }

  /** Removing an option that does not occur changes nothing. */
  lemma {:induction false} RemoveAllAbsent(s: seq<string>, x: string)
    requires x !in s
    ensures RemoveAll(s, x) == s
  {
    if |s| > 0 {
      RemoveAllAbsent(s[1..], x);
    }
  }

  /** Removing from a concatenation removes from each part. */
  lemma {:induction false} RemoveAllConcat(s: seq<string>, t: seq<string>, x: string)
    ensures RemoveAll(s + t, x) == RemoveAll(s, x) + RemoveAll(t, x)
  {
    if |s| > 0 {
      assert (s + t)[1..] == s[1..] + t;
      RemoveAllConcat(s[1..], t, x);
    } else {
      assert s + t == t;
    }
  }

  /** Toggling an absent option twice restores the original list. */
  lemma ToggleTwiceRestores(s: seq<string>, option: string)
    requires option !in s
    ensures Toggle(Toggle(s, option), option) == s
  {
    RemoveAllConcat(s, [option], option);
    RemoveAllAbsent(s, option);
  }

  /** Removing copies never introduces a duplicate. */
  lemma {:induction false} RemoveAllNoDuplicates(s: seq<string>, x: string)
    requires NoDuplicates(s)
    ensures NoDuplicates(RemoveAll(s, x))
  {
    if |s| > 0 {
      assert NoDuplicates(s[1..]) by {
        forall i, j | 0 <= i < j < |s[1..]| ensures s[1..][i] != s[1..][j] {
          assert s[1..][i] == s[i + 1] && s[1..][j] == s[j + 1];
        }
      }
      RemoveAllNoDuplicates(s[1..], x);
      if s[0] != x {
        var tail := RemoveAll(s[1..], x);
        assert s[0] !in s[1..];
        assert s[0] !in tail by {
          assert multiset(tail)[s[0]] == multiset(s[1..])[s[0]] == 0;
        }
        var r := [s[0]] + tail;
        forall i, j | 0 <= i < j < |r| ensures r[i] != r[j] {
          if i == 0 {
            assert r[j] == tail[j - 1];
          } else {
            assert r[i] == tail[i - 1] && r[j] == tail[j - 1];
          }
        }
      }
    }
  }

  /** Toggling keeps a duplicate-free filter list duplicate-free. */
  lemma ToggleKeepsNoDuplicates(s: seq<string>, option: string)
    requires NoDuplicates(s)
    ensures NoDuplicates(Toggle(s, option))
  {
    if option in s {
      RemoveAllNoDuplicates(s, option);
    } else {
      var r := s + [option];
      forall i, j | 0 <= i < j < |r| ensures r[i] != r[j] {
        if j == |s| {
          assert r[i] == s[i];
        } else {
          assert r[i] == s[i] && r[j] == s[j];
        }
      }
    }
  }

  /** In a duplicate-free list an option that occurs occurs exactly once. */
  lemma {:induction false} OccursOnce(s: seq<string>, x: string)
    requires NoDuplicates(s) && x in s
    ensures multiset(s)[x] == 1
  {
    assert s == [s[0]] + s[1..];
    assert NoDuplicates(s[1..]) by {
      forall i, j | 0 <= i < j < |s[1..]| ensures s[1..][i] != s[1..][j] {
        assert s[1..][i] == s[i + 1] && s[1..][j] == s[j + 1];
      }
    }
    if s[0] == x {
      assert x !in s[1..] by {
        forall i | 0 <= i < |s[1..]| ensures s[1..][i] != x { assert s[1..][i] == s[i + 1]; }
      }
    } else {
      OccursOnce(s[1..], x);
    }
  }

  /** Toggling a present option of a duplicate-free list twice keeps the same options
      (the option moves to the end). */
  lemma ToggleTwiceSameOptions(s: seq<string>, option: string)
    requires NoDuplicates(s) && option in s
    ensures multiset(Toggle(Toggle(s, option), option)) == multiset(s)
  {
    OccursOnce(s, option);
    var once := Toggle(s, option);
    assert Toggle(once, option) == once + [option];
    assert multiset(once + [option]) == multiset(s)[option := 0] + multiset{option};
  }
}
