/**
 * The processed-id sets (`processedMessageIds`, `processedPresenceEvents`,
 * `processedJarifLoginIds` and the login-access `processedLoginIds`): a
 * JavaScript `Set`, which keeps insertion order, that is replaced by its
 * newest half once it grows past its cap
 * (firebase-notification-server.js:322-328, 543-547, 651-655, 739-743).
 * The set is modelled as the sequence of its elements in insertion order.
 */
module Bounded {
  import opened Basics

  const MESSAGE_IDS_CAP := 2000
  const MESSAGE_IDS_KEEP := 1000
  /** Cap and kept half of the event-key and login-id sets. */
  const SMALL_SET_CAP := 200
  const SMALL_SET_KEEP := 100

  /** A processed-id set within its cap. */
  predicate WithinCap(s: seq<string>, cap: nat) {
    NoDup(s) && |s| <= cap
  }

  /** `r` is what remains of `t` after dropping some of its oldest elements. */
  predicate IsSuffix(r: seq<string>, t: seq<string>) {
    |r| <= |t| && t[|t| - |r|..] == r
  }

  /** `set.add(x)`: an element already present keeps its place. */
  function Inserted(s: seq<string>, x: string): (t: seq<string>)
    ensures x in t && (forall y :: y in t <==> y in s || y == x)
    ensures NoDup(s) ==> NoDup(t)
    ensures x in s ==> t == s
    ensures x !in s ==> |t| == |s| + 1 && t[|s|] == x && t[..|s|] == s
  {
    if x in s then s else s + [x]
  }

  /** `set.add(x)` followed by `if (set.size > cap) set = new Set(Array.from(set).slice(-keep))`:
      a set within its cap stays within it and holds `x` afterwards. */
  function AddBounded(s: seq<string>, x: string, cap: nat, keep: nat): (r: seq<string>)
    requires 0 < keep <= cap
    ensures WithinCap(s, cap) ==> WithinCap(r, cap) && x in r
    ensures |s| <= cap ==> |r| <= cap
  {
    var t := Inserted(s, x);
    if |t| > cap then t[|t| - keep..] else t
  }

  /** What the trimming keeps: the newest elements of the set with `x`
      added, all of them while within the cap and exactly `keep` once past
      it, so a new `x` is the newest. */
  lemma AddBoundedKeepsNewest(s: seq<string>, x: string, cap: nat, keep: nat)
    requires 0 < keep <= cap
    ensures IsSuffix(AddBounded(s, x, cap, keep), Inserted(s, x))
    ensures |Inserted(s, x)| <= cap ==> AddBounded(s, x, cap, keep) == Inserted(s, x)
    ensures |Inserted(s, x)| > cap ==> |AddBounded(s, x, cap, keep)| == keep
    ensures x !in s ==> AddBounded(s, x, cap, keep)[|AddBounded(s, x, cap, keep)| - 1] == x
  {
  }

  /** Nothing but `x` is ever new in the set. */
  lemma AddBoundedAddsOnly(s: seq<string>, x: string, cap: nat, keep: nat, y: string)
    requires 0 < keep <= cap
    requires y in AddBounded(s, x, cap, keep)
    ensures y in s || y == x
  {
  }

  /** Adding a non-empty id never brings the empty one in. */
  lemma AddBoundedAddsNothingEmpty(s: seq<string>, x: string)
    requires x != "" && "" !in s
    ensures "" !in AddBounded(s, x, MESSAGE_IDS_CAP, MESSAGE_IDS_KEEP)
  {
    if "" in AddBounded(s, x, MESSAGE_IDS_CAP, MESSAGE_IDS_KEEP) {
      AddBoundedAddsOnly(s, x, MESSAGE_IDS_CAP, MESSAGE_IDS_KEEP, "");
    }
  }

  /** Adding the elements of `xs` one after another. */
  function AddAll(s: seq<string>, xs: seq<string>, cap: nat, keep: nat): seq<string>
    requires 0 < keep <= cap
    decreases |xs|
  {
    if xs == [] then s else AddAll(AddBounded(s, xs[0], cap, keep), xs[1..], cap, keep)
  }

  /** One addition moves the element `d` places from the newest back by
      at most one place, and keeps it while fewer than `keep` are newer. */
  lemma OneAddKeeps(s: seq<string>, x: string, y: string, d: nat, cap: nat, keep: nat)
    requires 0 < keep <= cap
    requires |s| <= cap
    requires d < |s| && s[|s| - 1 - d] == y
    requires d + 1 < keep
    ensures var r := AddBounded(s, x, cap, keep);
      var d' := if x in s then d else d + 1;
      d' < |r| && r[|r| - 1 - d'] == y
  {
    var t := Inserted(s, x);
    var r := AddBounded(s, x, cap, keep);
    AddBoundedKeepsNewest(s, x, cap, keep);
    var d' := if x in s then d else d + 1;
    assert t[|t| - 1 - d'] == y by {
      if x !in s {
        assert t[..|s|] == s;
      }
    }
    assert r == t[|t| - |r|..];
  }

  /** An element among the `d + 1` newest of a set survives any `keep - d - 1`
      further additions: the newest element added is trimmed away only once
      `keep` newer ones exist. */
  lemma {:induction false} RecentSurvives(s: seq<string>, xs: seq<string>, y: string, d: nat, cap: nat, keep: nat)
    requires 0 < keep <= cap
    requires |s| <= cap
    requires d < |s| && s[|s| - 1 - d] == y
    requires d + |xs| < keep
    ensures y in AddAll(s, xs, cap, keep)
    decreases |xs|
  {
    if xs == [] {
      assert y == s[|s| - 1 - d];
    } else {
      var r := AddBounded(s, xs[0], cap, keep);
      var d' := if xs[0] in s then d else d + 1;
      OneAddKeeps(s, xs[0], y, d, cap, keep);
      RecentSurvives(r, xs[1..], y, d', cap, keep);
    }
  }
}
