/** The subscribe-time format check (internal/app/service/service.go:16) and the split that the
    service and the scanner apply to the same text. */
module RepoFormat {

  predicate IsNameChar(c: char) {
    'a' <= c <= 'z' || 'A' <= c <= 'Z' || '0' <= c <= '9' || c == '.' || c == '_' || c == '-'
  }

  /** The automaton of ^[a-zA-Z0-9._-]+/[a-zA-Z0-9._-]+$ */
  datatype Scan = NoOwner | InOwner | NoName | InName | Reject

  function Advance(q: Scan, c: char): Scan {
    match q
    case NoOwner => if IsNameChar(c) then InOwner else Reject
    case InOwner => if IsNameChar(c) then InOwner else if c == '/' then NoName else Reject
    case NoName => if IsNameChar(c) then InName else Reject
    case InName => if IsNameChar(c) then InName else Reject
    case Reject => Reject
  }

  function ScanFrom(q: Scan, s: string): Scan
    decreases |s|
  {
    if s == "" then q else ScanFrom(Advance(q, s[0]), s[1..])
  }

  predicate MatchString(s: string) {
    ScanFrom(NoOwner, s) == InName
  }

  function IndexOf(s: string, c: char): (i: nat)
    ensures i <= |s|
    ensures forall k :: 0 <= k < i ==> s[k] != c
    ensures i < |s| ==> s[i] == c
  {
    if s == "" || s[0] == c then 0 else 1 + IndexOf(s[1..], c)
  }

  /** strings.SplitN(s, "/", 2) */
  function SplitN(s: string): seq<string> {
    var i := IndexOf(s, '/');
    if i == |s| then [s] else [s[..i], s[i + 1..]]
  }

  ghost predicate IsName(s: string) {
    s != "" && forall k :: 0 <= k < |s| ==> IsNameChar(s[k])
  }

  lemma {:induction false} ScanReject(s: string)
    ensures ScanFrom(Reject, s) == Reject
  {
    if s != "" {
      ScanReject(s[1..]);
    }
  }

  lemma {:induction false} ScanName(s: string)
    ensures ScanFrom(InName, s) == InName <==> forall k :: 0 <= k < |s| ==> IsNameChar(s[k])
  {
    if s != "" {
      ScanName(s[1..]);
      ScanReject(s[1..]);
      assert s == [s[0]] + s[1..];
    }
  }

  /** From inside the owner part: the rest of the owner, a slash, a name. */
  lemma {:induction false} ScanOwner(s: string)
    ensures ScanFrom(InOwner, s) == InName
            <==> var i := IndexOf(s, '/');
                 i < |s| && (forall k :: 0 <= k < i ==> IsNameChar(s[k])) && IsName(s[i + 1..])
  {
    if s == "" {
    } else if s[0] == '/' {
      var t := s[1..];
      if t != "" {
        ScanName(t[1..]);
        ScanReject(t[1..]);
        assert t == [t[0]] + t[1..];
      }
    } else {
      var t := s[1..];
      ScanOwner(t);
      ScanReject(t);
      assert s == [s[0]] + t;
      var i := IndexOf(t, '/');
      if i < |t| {
        assert s[i + 2..] == t[i + 1..];
      }
    }
  }

  /** The check accepts exactly the texts that split at their first slash into two names. */
  lemma MatchIffTwoNames(s: string)
    ensures MatchString(s)
            <==> |SplitN(s)| == 2 && IsName(SplitN(s)[0]) && IsName(SplitN(s)[1])
  {
    if s != "" {
      var t := s[1..];
      ScanOwner(t);
      ScanReject(t);
      assert s == [s[0]] + t;
      if IsNameChar(s[0]) {
        var i := IndexOf(t, '/');
        assert IndexOf(s, '/') == i + 1;
        if i < |t| {
          assert s[i + 2..] == t[i + 1..];
          assert s[..i + 1] == [s[0]] + t[..i];
          assert forall k :: 0 <= k < i ==> t[..i][k] == t[k];
        }
      } else if IndexOf(s, '/') < |s| && 0 < IndexOf(s, '/') {
        assert s[..IndexOf(s, '/')][0] == s[0];
      }
    }
  }

  /** ASCII letters, digits, full stop, low line and hyphen, by their codes. */
  ghost predicate IsCoded(s: string) {
    s != "" && forall k :: 0 <= k < |s| ==>
      var n := s[k] as int;
      97 <= n <= 122 || 65 <= n <= 90 || 48 <= n <= 57 || n == 46 || n == 95 || n == 45
  }

  lemma NamesAreCoded(s: string)
    ensures IsName(s) <==> IsCoded(s)
  {
    assert forall k :: 0 <= k < |s| ==> ('a' <= s[k] <= 'z' <==> 97 <= s[k] as int <= 122);
    assert forall k :: 0 <= k < |s| ==> ('A' <= s[k] <= 'Z' <==> 65 <= s[k] as int <= 90);
    assert forall k :: 0 <= k < |s| ==> ('0' <= s[k] <= '9' <==> 48 <= s[k] as int <= 57);
  }

  /** The same from the other side: two such texts joined by a slash are all that is accepted. */
  lemma AcceptsJoinedNames(owner: string, name: string)
    ensures '/' !in owner ==> (MatchString(owner + "/" + name) <==> IsCoded(owner) && IsCoded(name))
  {
    if '/' !in owner {
      var s := owner + "/" + name;
      assert forall k :: 0 <= k < |owner| ==> s[k] == owner[k] && owner[k] in owner;
      assert s[|owner|] == '/';
      assert IndexOf(s, '/') == |owner|;
      assert s[..|owner|] == owner && s[|owner| + 1..] == name;
      MatchIffTwoNames(s);
      NamesAreCoded(owner);
      NamesAreCoded(name);
    }
  }

  /** What an accepted repo guarantees downstream: a lossless split and no colon. */
  lemma AcceptedRepoSplits(s: string)
    requires MatchString(s)
    ensures var p := SplitN(s);
            && |p| == 2 && s == p[0] + "/" + p[1]
            && p[0] != "" && p[1] != "" && '/' !in p[0] && '/' !in p[1]
    ensures ':' !in s
  {
    MatchIffTwoNames(s);
    var p := SplitN(s);
    var i := IndexOf(s, '/');
    assert s == s[..i] + [s[i]] + s[i + 1..];
    forall k | 0 <= k < |s|
      ensures s[k] != ':'
    {
      if k < i {
        assert s[k] == p[0][k];
      } else if i < k {
        assert s[k] == p[1][k - i - 1];
      }
    }
  }
}
