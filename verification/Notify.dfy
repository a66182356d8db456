/** internal/shared/notify/command.go: the dedup window and the message ids. */
module Notify {

  const MIN_INT64: int := -0x8000_0000_0000_0000
  const MAX_INT64: int := 0x7FFF_FFFF_FFFF_FFFF

  /** Go's time.Duration is an int64 of nanoseconds. */
  predicate IsDuration(d: int) {
    MIN_INT64 <= d <= MAX_INT64
  }

  function Wrap64(x: int): int {
    (x - MIN_INT64) % 0x1_0000_0000_0000_0000 + MIN_INT64
  }

  function DedupWindow(scanInterval: int): (w: int)
    ensures IsDuration(w)
  {
    Wrap64(3 * scanInterval)
  }

  /** The window is three intervals exactly when three intervals fit in a Duration. */
  lemma DedupWindowIsThreeIntervals(scanInterval: int)
    requires IsDuration(scanInterval)
    ensures DedupWindow(scanInterval) == 3 * scanInterval
            <==> -(MAX_INT64 / 3) <= scanInterval <= MAX_INT64 / 3
  {
    assert MAX_INT64 / 3 == 3074457345618258602;
    var m := 0x1_0000_0000_0000_0000;
    var x := 3 * scanInterval - MIN_INT64;
    assert x == m * (x / m) + x % m;
    if 0 <= x < m {
      assert x / m == 0;
    }
  }

  function ConfirmationDedupID(token: string): string {
    "confirmation:" + token
  }

  function ReleaseDedupID(repo: string, tag: string, email: string): string {
    "release:" + repo + ":" + tag + ":" + email
  }

  /** A text is cut in only one way at its first colon. */
  lemma CutAtColon(a: string, b: string, c: string, d: string)
    requires ':' !in a && ':' !in c
    requires a + ":" + b == c + ":" + d
    ensures a == c && b == d
  {
    var s, t := a + ":" + b, c + ":" + d;
    assert s[|a|] == ':' && t[|c|] == ':';
    assert forall k :: 0 <= k < |a| ==> s[k] == a[k] != ':';
    assert forall k :: 0 <= k < |c| ==> t[k] == c[k] != ':';
    assert |a| == |c|;
    assert s[..|a|] == a && t[..|c|] == c;
    assert s[|a| + 1..] == b && t[|c| + 1..] == d;
  }

  lemma ReleaseTail(repo: string, tag: string, email: string)
    ensures ReleaseDedupID(repo, tag, email)[8..] == repo + ":" + (tag + ":" + email)
  {
    assert ReleaseDedupID(repo, tag, email) == "release:" + (repo + ":" + (tag + ":" + email));
  }

  /** Exactly when two release ids collide, for repos without a colon (all that subscribe lets in). */
  lemma ReleaseIdsCollideIff(r1: string, t1: string, e1: string, r2: string, t2: string, e2: string)
    requires ':' !in r1 && ':' !in r2
    ensures ReleaseDedupID(r1, t1, e1) == ReleaseDedupID(r2, t2, e2)
            <==> r1 == r2 && t1 + ":" + e1 == t2 + ":" + e2
  {
    ReleaseTail(r1, t1, e1);
    ReleaseTail(r2, t2, e2);
    if ReleaseDedupID(r1, t1, e1) == ReleaseDedupID(r2, t2, e2) {
      CutAtColon(r1, t1 + ":" + e1, r2, t2 + ":" + e2);
    }
    assert ReleaseDedupID(r1, t1, e1) == "release:" + (r1 + ":" + (t1 + ":" + e1));
    assert ReleaseDedupID(r2, t2, e2) == "release:" + (r2 + ":" + (t2 + ":" + e2));
  }

  /** With colon-free tags too, an id names one repo, one tag and one recipient. */
  lemma ReleaseIdInjective(r1: string, t1: string, e1: string, r2: string, t2: string, e2: string)
    requires ':' !in r1 && ':' !in r2 && ':' !in t1 && ':' !in t2
    requires ReleaseDedupID(r1, t1, e1) == ReleaseDedupID(r2, t2, e2)
    ensures r1 == r2 && t1 == t2 && e1 == e2
  {
    ReleaseIdsCollideIff(r1, t1, e1, r2, t2, e2);
    CutAtColon(t1, e1, t2, e2);
  }

  /** A colon in the tag is enough to make two recipients share an id. */
  lemma ColonTagsCollide()
    ensures ReleaseDedupID("o/r", "v1:a", "b@x") == ReleaseDedupID("o/r", "v1", "a:b@x")
  {
    ReleaseIdsCollideIff("o/r", "v1:a", "b@x", "o/r", "v1", "a:b@x");
    assert "v1:a" + ":" + "b@x" == "v1" + ":" + "a:b@x";
  }

  lemma ReleaseIdIsNoConfirmationId(repo: string, tag: string, email: string, token: string)
    ensures ReleaseDedupID(repo, tag, email) != ConfirmationDedupID(token)
  {
    assert ReleaseDedupID(repo, tag, email)[0] == 'r';
    assert ConfirmationDedupID(token)[0] == 'c';
  }

  lemma ConfirmationIdInjective(t1: string, t2: string)
    requires ConfirmationDedupID(t1) == ConfirmationDedupID(t2)
    ensures t1 == t2
  {
    assert ConfirmationDedupID(t1)[13..] == t1;
    assert ConfirmationDedupID(t2)[13..] == t2;
  }
}
