/** What the system does, as a log of events, and which event may follow which history. The
    whole-run theorems are read off a log in which every event was admissible when it happened. */
module History {
  import opened Common
  import RepoFormat

  /** A subscription row's id and its columns that never change. */
  datatype Who = Who(sub: nat, email: string, repo: string, unsub: string)

  datatype Event =
    | Created(who: Who, confirm: string)              // row and token committed together
    | Presented(who: Who, confirm: string)            // a confirm call found this token's row
    | RowConfirmed(who: Who)
    | Removed(who: Who)
    | ConfirmationSent(who: Who, confirm: string, o: Outcome)
    | Fetched(repo: string, tag: string)              // a non-empty tag arrived for a repo
    | Snapshot(repo: string, tag: string, fetchAt: nat, recs: seq<Who>)
    | ReleaseSent(who: Who, tag: string, snapAt: nat, o: Outcome)
    | Saved(repo: string, prev: Option<string>, tag: string, fetchAt: nat, round: Option<nat>)

  predicate SavesRepo(e: Event, repo: string) {
    e.Saved? && e.repo == repo
  }

  /** The stored cursor of a repo: the tag of its latest save. */
  function Cursor(log: seq<Event>, repo: string): Option<string> {
    if log == [] then None
    else
      var e := log[|log| - 1];
      if SavesRepo(e, repo) then Some(e.tag) else Cursor(log[..|log| - 1], repo)
  }

  ghost predicate NoSaveSince(log: seq<Event>, repo: string, from: nat) {
    forall i :: from <= i < |log| ==> !SavesRepo(log[i], repo)
  }

  /** The tag was fetched for the repo at `at`, and its cursor has not been written since. */
  ghost predicate FetchedAt(log: seq<Event>, repo: string, tag: string, at: nat) {
    tag != "" && at < |log| && log[at] == Fetched(repo, tag) && NoSaveSince(log, repo, at)
  }

  ghost predicate AllAccepted(log: seq<Event>, recs: seq<Who>, n: nat, tag: string, snapAt: nat)
    requires n <= |recs|
  {
    forall k :: 0 <= k < n ==> ReleaseSent(recs[k], tag, snapAt, Done) in log
  }

  /** A save may follow: silently when the tag is no news, else after every recipient of the
      round's snapshot had their publish accepted. */
  ghost predicate MaySave(log: seq<Event>, repo: string, tag: string, fetchAt: nat, round: Option<nat>) {
    && FetchedAt(log, repo, tag, fetchAt)
    && match round
       case None => Cursor(log, repo) == None || Cursor(log, repo) == Some(tag)
       case Some(at) =>
         && Cursor(log, repo).Some? && Cursor(log, repo) != Some(tag)
         && fetchAt < at < |log| && log[at].Snapshot? && log[at].repo == repo && log[at].tag == tag
         && log[at].fetchAt == fetchAt
         && AllAccepted(log, log[at].recs, |log[at].recs|, tag, at)
  }

  /** The recipients are exactly the confirmed subscriptions of the repo that are still there. */
  ghost predicate ExactRecipients(log: seq<Event>, repo: string, recs: seq<Who>) {
    && NoDup(recs)
    && forall w :: w in recs <==> w.repo == repo && RowConfirmed(w) in log && Removed(w) !in log
  }

  /** Some subscription of the repo has been confirmed. */
  ghost predicate HasConfirmation(log: seq<Event>, repo: string) {
    exists w: Who :: w.repo == repo && RowConfirmed(w) in log
  }

  ghost predicate FreshBirth(log: seq<Event>, w: Who, confirm: string) {
    forall i :: 0 <= i < |log| && log[i].Created? ==>
      && log[i].who.sub != w.sub && log[i].who.unsub != w.unsub && log[i].confirm != confirm
      && (log[i].who.email == w.email && log[i].who.repo == w.repo ==> Removed(log[i].who) in log)
  }

  ghost predicate EventOk(log: seq<Event>, e: Event) {
    match e
    case Created(w, c) => RepoFormat.MatchString(w.repo) && FreshBirth(log, w, c)
    case Presented(w, c) => Created(w, c) in log
    case RowConfirmed(w) => exists c :: Presented(w, c) in log
    case Removed(w) => exists c :: Created(w, c) in log
    case ConfirmationSent(w, c, _) => Created(w, c) in log
    case Fetched(repo, tag) => tag != "" && HasConfirmation(log, repo)
    case Snapshot(repo, tag, fetchAt, recs) =>
      && Cursor(log, repo).Some? && Cursor(log, repo) != Some(tag) && FetchedAt(log, repo, tag, fetchAt)
      && ExactRecipients(log, repo, recs)
    case ReleaseSent(w, tag, at, _) =>
      && at < |log| && log[at].Snapshot? && log[at].repo == w.repo && log[at].tag == tag && w in log[at].recs
      && NoSaveSince(log, w.repo, at)
    case Saved(repo, prev, tag, fetchAt, round) =>
      prev == Cursor(log, repo) && MaySave(log, repo, tag, fetchAt, round)
  }

  ghost predicate LogOk(log: seq<Event>) {
    forall k {:trigger log[..k]} :: 0 <= k < |log| ==> EventOk(log[..k], log[k])
  }

  lemma AppendOk(log: seq<Event>, e: Event)
    requires LogOk(log) && EventOk(log, e)
    ensures LogOk(log + [e])
  {
    forall k | 0 <= k < |log| + 1
      ensures EventOk((log + [e])[..k], (log + [e])[k])
    {
      if k < |log| {
        assert (log + [e])[..k] == log[..k];
      } else {
        assert (log + [e])[..k] == log;
      }
    }
  }

  lemma CursorAppend(log: seq<Event>, e: Event, repo: string)
    ensures Cursor(log + [e], repo) == if SavesRepo(e, repo) then Some(e.tag) else Cursor(log, repo)
  {
    assert (log + [e])[..|log|] == log;
  }

  /** A cursor that is there was written by a last save, no later than any other. */
  lemma {:induction false} LastSave(log: seq<Event>, repo: string) returns (m: nat)
    requires Cursor(log, repo).Some?
    ensures m < |log| && SavesRepo(log[m], repo) && log[m].tag == Cursor(log, repo).value
    ensures forall i :: m < i < |log| ==> !SavesRepo(log[i], repo)
  {
    m := |log| - 1;
    if !SavesRepo(log[m], repo) {
      m := LastSave(log[..m], repo);
    }
  }

  lemma {:induction false} NoCursorNoSave(log: seq<Event>, repo: string)
    requires Cursor(log, repo).None?
    ensures forall i :: 0 <= i < |log| ==> !SavesRepo(log[i], repo)
  {
    if log != [] {
      NoCursorNoSave(log[..|log| - 1], repo);
    }
  }

  // ---- theorems about admissible logs ----

  /** Double opt-in: behind every release command, whatever became of it, stand in this order the
      creation of that same subscription, a presentation of its own confirmation token, its
      confirmation, and the snapshot it was taken from. */
  lemma DoubleOptIn(log: seq<Event>, k: nat) returns (created: nat, presented: nat, confirmed: nat)
    requires LogOk(log) && k < |log| && log[k].ReleaseSent?
    ensures created < presented < confirmed < log[k].snapAt < k
    ensures log[created].Created? && log[created].who == log[k].who
    ensures log[presented] == Presented(log[k].who, log[created].confirm)
    ensures log[confirmed] == RowConfirmed(log[k].who)
    ensures log[log[k].snapAt].Snapshot? && log[k].who in log[log[k].snapAt].recs
  {
    var w, at := log[k].who, log[k].snapAt;
    assert EventOk(log[..k], log[k]);
    assert EventOk(log[..at], log[at]);
    assert RowConfirmed(w) in log[..at];
    confirmed :| 0 <= confirmed < at && log[confirmed] == RowConfirmed(w);
    assert EventOk(log[..confirmed], log[confirmed]);
    var c :| Presented(w, c) in log[..confirmed];
    presented :| 0 <= presented < confirmed && log[presented] == Presented(w, c);
    assert EventOk(log[..presented], log[presented]);
    created :| 0 <= created < presented && log[created] == Created(w, c);
  }

  /** A confirmation command names a token that was committed with its subscription before. */
  lemma ConfirmationNamesCommittedToken(log: seq<Event>, k: nat) returns (created: nat)
    requires LogOk(log) && k < |log| && log[k].ConfirmationSent?
    ensures created < k && log[created] == Created(log[k].who, log[k].confirm)
  {
    assert EventOk(log[..k], log[k]);
    created :| 0 <= created < k && log[created] == Created(log[k].who, log[k].confirm);
  }

  /** Ids, tokens and unsubscribe tokens are each minted once, ever. */
  lemma BornOnce(log: seq<Event>, i: nat, j: nat)
    requires LogOk(log) && i < j < |log| && log[i].Created? && log[j].Created?
    ensures log[i].who.sub != log[j].who.sub && log[i].who.unsub != log[j].who.unsub
    ensures log[i].confirm != log[j].confirm
    ensures log[i].who.email == log[j].who.email && log[i].who.repo == log[j].who.repo
            ==> Removed(log[i].who) in log[..j]
  {
    assert EventOk(log[..j], log[j]);
    assert log[..j][i] == log[i];
  }

  /** Unsubscribe is final: later snapshots leave the subscription out, and a release published to
      it later still comes from a snapshot taken before the delete. */
  lemma RemovedIsFinal(log: seq<Event>, d: nat, k: nat)
    requires LogOk(log) && d < k < |log| && log[d].Removed?
    ensures log[k].Snapshot? ==> log[d].who !in log[k].recs
    ensures log[k].ReleaseSent? && log[k].who == log[d].who ==> log[k].snapAt < d
  {
    assert EventOk(log[..k], log[k]);
    assert log[..k][d] == log[d];
    if log[k].ReleaseSent? && log[k].who == log[d].who {
      var at := log[k].snapAt;
      assert EventOk(log[..at], log[at]);
      assert forall i :: 0 <= i < at ==> log[i] in log[..at];
    }
  }

  ghost predicate OccursBetween(log: seq<Event>, lo: nat, hi: nat, e: Event)
    requires hi <= |log|
  {
    exists j :: lo < j < hi && log[j] == e
  }

  /** Whenever a cursor moves from a present tag to another one, everyone in that round's snapshot
      had their publish accepted between the snapshot and the move. */
  lemma MoveAnnounced(log: seq<Event>, k: nat)
    requires LogOk(log) && k < |log| && log[k].Saved? && log[k].prev.Some? && log[k].prev != Some(log[k].tag)
    ensures log[k].round.Some?
    ensures var at := log[k].round.value;
      && log[k].fetchAt < at < k
      && log[at].Snapshot? && log[at].repo == log[k].repo && log[at].tag == log[k].tag
      && log[at].fetchAt == log[k].fetchAt
      && ExactRecipients(log[..at], log[k].repo, log[at].recs)
      && forall w :: w in log[at].recs ==> OccursBetween(log, at, k, ReleaseSent(w, log[k].tag, at, Done))
  {
    assert EventOk(log[..k], log[k]);
    var at := log[k].round.value;
    assert EventOk(log[..at], log[at]);
    forall w | w in log[at].recs
      ensures OccursBetween(log, at, k, ReleaseSent(w, log[k].tag, at, Done))
    {
      var r :| 0 <= r < |log[at].recs| && log[at].recs[r] == w;
      assert ReleaseSent(log[at].recs[r], log[k].tag, at, Done) in log[..k];
      var j :| 0 <= j < k && log[j] == ReleaseSent(w, log[k].tag, at, Done);
      assert EventOk(log[..j], log[j]);
    }
  }

  /** Before a repo's first save nothing is ever published for it: a first sighting is silent. */
  lemma FirstSightingSilent(log: seq<Event>, repo: string, k: nat)
    requires LogOk(log) && k < |log| && Cursor(log, repo).None?
    ensures !(log[k].ReleaseSent? && log[k].who.repo == repo)
    ensures !(log[k].Snapshot? && log[k].repo == repo)
  {
    NoCursorNoSave(log, repo);
    assert EventOk(log[..k], log[k]);
    var at := if log[k].ReleaseSent? then log[k].snapAt else k;
    assert EventOk(log[..at], log[at]);
    assert forall i :: 0 <= i < at ==> log[..at][i] == log[i];
    if Cursor(log[..at], repo).Some? {
      var m := LastSave(log[..at], repo);
    }
  }

  /** The feed of a repo never comes back to a tag it left. */
  ghost predicate NeverReturns(log: seq<Event>, repo: string) {
    forall i, j, k :: i < j < k && IsFetch(log, i, repo) && IsFetch(log, j, repo) && IsFetch(log, k, repo)
      && log[i].tag == log[k].tag
      ==> log[j].tag == log[i].tag
  }

  predicate IsFetch(log: seq<Event>, i: int, repo: string) {
    0 <= i < |log| && log[i].Fetched? && log[i].repo == repo
  }

  /** A save's own fetch comes after every earlier save of that repo. */
  lemma FetchFollowsSaves(log: seq<Event>, i: nat, k: nat)
    requires LogOk(log) && i < k < |log| && log[k].Saved? && SavesRepo(log[i], log[k].repo)
    ensures i < log[k].fetchAt < k && log[log[k].fetchAt] == Fetched(log[k].repo, log[k].tag)
  {
    assert EventOk(log[..k], log[k]);
    assert log[..k][i] == log[i];
  }

  /** On such a feed the cursor never revisits a value it left. */
  lemma CursorNeverRevisits(log: seq<Event>, i: nat, m: nat, k: nat)
    requires LogOk(log) && i < m < k < |log| && log[k].Saved? && NeverReturns(log, log[k].repo)
    requires SavesRepo(log[i], log[k].repo) && SavesRepo(log[m], log[k].repo)
    requires log[i].tag == log[k].tag
    ensures log[m].tag == log[i].tag
  {
    assert EventOk(log[..i], log[i]);
    FetchFollowsSaves(log, i, m);
    FetchFollowsSaves(log, m, k);
    var repo := log[k].repo;
    assert log[..i][log[i].fetchAt] == log[log[i].fetchAt];
    assert IsFetch(log, log[i].fetchAt, repo) && IsFetch(log, log[m].fetchAt, repo)
           && IsFetch(log, log[k].fetchAt, repo);
  }

  /** And each tag has at most one announcing round that ends in a save. */
  lemma AnnouncedOnce(log: seq<Event>, i: nat, k: nat)
    requires LogOk(log) && i < k < |log| && log[k].Saved? && NeverReturns(log, log[k].repo)
    requires SavesRepo(log[i], log[k].repo) && log[i].tag == log[k].tag
    ensures log[k].round.None?
  {
    assert EventOk(log[..k], log[k]);
    if log[k].round.Some? {
      var m := LastSave(log[..k], log[k].repo);
      assert SavesRepo(log[..k][i], log[k].repo) && log[..k][m] == log[m];
      if i < m {
        CursorNeverRevisits(log, i, m, k);
      }
    }
  }

  /** And once a tag is saved, no release of it is published any more, whoever comes to subscribe. */
  lemma NoPublishAfterSave(log: seq<Event>, j: nat, k: nat)
    requires LogOk(log) && j < k < |log| && log[k].ReleaseSent?
    requires SavesRepo(log[j], log[k].who.repo) && NeverReturns(log, log[k].who.repo)
    ensures log[k].tag != log[j].tag
  {
    var repo, tag, at := log[k].who.repo, log[k].tag, log[k].snapAt;
    assert EventOk(log[..k], log[k]);
    assert log[..k][j] == log[j];
    assert j < at;
    SnapshotFollowsSave(log, j, at, repo);
  }

  /** A snapshot of a tag that was saved before, with another tag saved since, has its fetch after
      both saves: the feed returned. */
  lemma SnapshotFollowsSave(log: seq<Event>, j: nat, at: nat, repo: string)
    requires LogOk(log) && j < at < |log| && log[at].Snapshot? && log[at].repo == repo
    requires SavesRepo(log[j], repo) && NeverReturns(log, repo)
    ensures log[at].tag != log[j].tag
  {
    var before, f := log[..at], log[at].fetchAt;
    assert EventOk(before, log[at]);
    assert EventOk(log[..j], log[j]);
    var m := LastSave(before, repo);
    assert before[m] == log[m] && before[j] == log[j] && before[f] == log[f];
    assert j <= m < f;
    if j < m {
      FetchFollowsSaves(log, j, m);
      assert IsFetch(log, log[j].fetchAt, repo) && IsFetch(log, log[m].fetchAt, repo) && IsFetch(log, f, repo);
    }
  }

  /** Every tag is fetched after some subscription of its repo was confirmed. */
  lemma FetchFollowsConfirmation(log: seq<Event>, k: nat) returns (c: nat)
    requires LogOk(log) && k < |log| && log[k].Fetched?
    ensures c < k && log[c].RowConfirmed? && log[c].who.repo == log[k].repo
  {
    assert EventOk(log[..k], log[k]);
    var w: Who :| w.repo == log[k].repo && RowConfirmed(w) in log[..k];
    c :| 0 <= c < k && log[c] == RowConfirmed(w);
  }

  /** The saves behind the cursor at three moments of one history. */
  lemma LastSavesInOrder(a: seq<Event>, b: seq<Event>, c: seq<Event>, repo: string) returns (x: nat, y: nat, z: nat)
    requires a <= b <= c && Cursor(a, repo).Some? && Cursor(c, repo).Some?
    ensures Cursor(b, repo).Some? && x <= y <= z < |c|
    ensures SavesRepo(c[x], repo) && c[x].tag == Cursor(a, repo).value
    ensures SavesRepo(c[y], repo) && c[y].tag == Cursor(b, repo).value
    ensures SavesRepo(c[z], repo) && c[z].tag == Cursor(c, repo).value
  {
    x := LastSave(a, repo);
    assert b[x] == a[x] && c[x] == a[x];
    if Cursor(b, repo).None? {
      NoCursorNoSave(b, repo);
    }
    y := LastSave(b, repo);
    assert c[y] == b[y];
    z := LastSave(c, repo);
  }
}
