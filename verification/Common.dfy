/** Vocabulary shared by every component: optional values, the ways a remote write can end,
    and counting in sequences. */
module Common {

  datatype Option<+T> = None | Some(value: T)

  /** How a call that writes to another process ended, seen from both sides.
      `DoneUnreported` is the ambiguous case: the write took effect but the caller got an error. */
  datatype Outcome = Done | NotDone | DoneUnreported {
    predicate Applied() {
      !NotDone?
    }
  }

  function Lookup<K, V>(m: map<K, V>, k: K): Option<V> {
    if k in m then Some(m[k]) else None
  }

  ghost predicate NoDup<T>(s: seq<T>) {
    forall i, j :: 0 <= i < j < |s| ==> s[i] != s[j]
  }

  function Count<T>(s: seq<T>, p: T -> bool): nat {
    if s == [] then 0 else Count(s[..|s| - 1], p) + (if p(s[|s| - 1]) then 1 else 0)
  }

  lemma CountSnoc<T>(s: seq<T>, x: T, p: T -> bool)
    ensures Count(s + [x], p) == Count(s, p) + (if p(x) then 1 else 0)
  {
    assert (s + [x])[..|s|] == s;
  }

  lemma {:induction false} CountUpdate<T>(s: seq<T>, i: nat, x: T, p: T -> bool)
    requires i < |s|
    ensures Count(s[i := x], p) == Count(s, p) - (if p(s[i]) then 1 else 0) + (if p(x) then 1 else 0)
  {
    var n := |s| - 1;
    if i == n {
      assert s[i := x][..n] == s[..n];
    } else {
      assert s[i := x][..n] == s[..n][i := x];
      CountUpdate(s[..n], i, x, p);
    }
  }

  lemma {:induction false} CountNone<T>(s: seq<T>, p: T -> bool)
    ensures Count(s, p) == 0 <==> forall i :: 0 <= i < |s| ==> !p(s[i])
  {
    if s != [] {
      var n := |s| - 1;
      CountNone(s[..n], p);
      assert forall i :: 0 <= i < n ==> s[..n][i] == s[i];
      if Count(s, p) == 0 {
        forall i | 0 <= i < |s|
          ensures !p(s[i])
        {
          if i < n {
            assert s[..n][i] == s[i];
          }
        }
      }
    }
  }

  lemma {:induction false} CountAtMost<T>(s: seq<T>, p: T -> bool)
    ensures Count(s, p) <= |s|
  {
    if s != [] {
      CountAtMost(s[..|s| - 1], p);
    }
  }

  /** Two disjoint classes, both inside a third, together are no larger than the third. */
  lemma {:induction false} CountDisjoint<T>(s: seq<T>, p: T -> bool, q: T -> bool, r: T -> bool)
    requires forall i :: 0 <= i < |s| ==> !(p(s[i]) && q(s[i])) && (p(s[i]) || q(s[i]) ==> r(s[i]))
    ensures Count(s, p) + Count(s, q) <= Count(s, r)
  {
    if s != [] {
      var n := |s| - 1;
      assert forall i :: 0 <= i < n ==> s[..n][i] == s[i];
      CountDisjoint(s[..n], p, q, r);
    }
  }
}
