/** internal/app/scanner/scanner.go: one undisturbed checkRepo, as a function of the environment. */
module ScannerSpec {
  import opened Common
  import opened WorldState
  import RepoFormat
  import Notify
  import Bus
  import Store

  datatype FetchReply = Release(tag: string) | RateLimited | Unreachable

  /** `sends(k)` is how the k-th recipient's publish ended. */
  datatype CheckEnv = CheckEnv(fetch: FetchReply, readCursor: bool, readSubs: bool,
                               sends: nat -> Outcome, save: Outcome)

  datatype CheckReply = Checked | InvalidRepoFormat | ErrRateLimited | Failed

  /** The stream after publishing to the first `n` recipients. */
  function Sent(s: Bus.Stream, repo: string, tag: string, emails: seq<string>, sends: nat -> Outcome,
                n: nat): Bus.Stream
    requires n <= |emails|
  {
    if n == 0 then s
    else
      var before := Sent(s, repo, tag, emails, sends, n - 1);
      var email := emails[n - 1];
      Bus.Publish(before, Notify.ReleaseDedupID(repo, tag, email), Bus.ReleaseCommand(repo, tag, email), sends(n - 1))
  }

  function EmailsOf(subs: map<nat, Store.Subscription>, rows: seq<nat>): (emails: seq<string>)
    ensures |emails| == |rows|
  {
    seq(|rows|, k requires 0 <= k < |rows| => if rows[k] in subs then subs[rows[k]].email else "")
  }

  predicate AllSent(sends: nat -> Outcome, n: nat) {
    forall k: nat :: k < n ==> sends(k).Done?
  }

  function Saved(w: World, repo: string, tag: string, o: Outcome): World {
    if o.Applied() then w.(db := Store.SaveTag(w.db, repo, tag)) else w
  }

  /** `emails` are the recipients, in the order the database returned their rows. */
  function CheckRepo(w: World, repo: string, env: CheckEnv, emails: seq<string>): (World, CheckReply) {
    if |RepoFormat.SplitN(repo)| != 2 then (w, InvalidRepoFormat)
    else if env.fetch.RateLimited? then (w, ErrRateLimited)
    else if env.fetch.Unreachable? then (w, Failed)
    else if env.fetch.tag == "" then (w, Checked)
    else if !env.readCursor then (w, Failed)
    else if Lookup(w.db.watched, repo) == None || Lookup(w.db.watched, repo) == Some(env.fetch.tag) then
      (Saved(w, repo, env.fetch.tag, env.save), if env.save.Done? then Checked else Failed)
    else if !env.readSubs then (w, Failed)
    else
      var sent := w.(stream := Sent(w.stream, repo, env.fetch.tag, emails, env.sends, |emails|));
      (if AllSent(env.sends, |emails|) then Saved(sent, repo, env.fetch.tag, env.save) else sent, Checked)
  }

  /** The check has a release to announce and can read what it needs. */
  predicate Announces(w: World, repo: string, env: CheckEnv) {
    && |RepoFormat.SplitN(repo)| == 2 && env.fetch.Release? && env.fetch.tag != "" && env.readCursor && env.readSubs
    && Lookup(w.db.watched, repo) != None && Lookup(w.db.watched, repo) != Some(env.fetch.tag)
  }

  function Id(repo: string, tag: string, email: string): string {
    Notify.ReleaseDedupID(repo, tag, email)
  }

  lemma {:induction false} SentKeepsOk(s: Bus.Stream, repo: string, tag: string, emails: seq<string>,
                                       sends: nat -> Outcome, n: nat)
    requires Bus.Ok(s) && n <= |emails|
    ensures var s' := Sent(s, repo, tag, emails, sends, n);
      && Bus.Ok(s') && s.log <= s'.log && s'.now == s.now && s'.window == s.window
      && forall k :: 0 <= k < n && sends(k).Applied() ==> Bus.HasCopy(s', Id(repo, tag, emails[k]))
  {
    if n > 0 {
      var s0 := Sent(s, repo, tag, emails, sends, n - 1);
      SentKeepsOk(s, repo, tag, emails, sends, n - 1);
      Bus.PublishKeepsOk(s0, Bus.ReleaseCommand(repo, tag, emails[n - 1]), sends(n - 1));
      var s' := Sent(s, repo, tag, emails, sends, n);
      forall k | 0 <= k < n && sends(k).Applied()
        ensures Bus.HasCopy(s', Id(repo, tag, emails[k]))
      {
        if k < n - 1 {
          var i :| 0 <= i < |s0.log| && s0.log[i].id == Id(repo, tag, emails[k]);
          assert s'.log[i].id == Id(repo, tag, emails[k]);
        }
      }
    }
  }

  /** An announcing check moves the cursor exactly when every publish was accepted and the save
      went through; then every recipient has a copy. Otherwise the cursor stays, so that the next
      check announces again. */
  lemma CursorMovesIff(w: World, repo: string, env: CheckEnv, emails: seq<string>)
    requires Announces(w, repo, env) && Bus.Ok(w.stream)
    ensures var w' := CheckRepo(w, repo, env, emails).0;
      && (Lookup(w'.db.watched, repo) == Some(env.fetch.tag) <==> AllSent(env.sends, |emails|) && env.save.Applied())
      && (Lookup(w'.db.watched, repo) != Some(env.fetch.tag) ==> w'.db == w.db && Announces(w', repo, env))
      && (Lookup(w'.db.watched, repo) == Some(env.fetch.tag) ==>
            forall k :: 0 <= k < |emails| ==> Bus.HasCopy(w'.stream, Id(repo, env.fetch.tag, emails[k])))
      && w.stream.log <= w'.stream.log
  {
    SentKeepsOk(w.stream, repo, env.fetch.tag, emails, env.sends, |emails|);
  }

  // ---- what a check answers and what it leaves alone ----

  /** The check comes to reading its cursor. */
  predicate NeedsCursor(repo: string, env: CheckEnv) {
    |RepoFormat.SplitN(repo)| == 2 && env.fetch.Release? && env.fetch.tag != ""
  }

  /** It has read that there is news, and comes to reading the subscribers. */
  predicate NeedsSubs(w: World, repo: string, env: CheckEnv) {
    && NeedsCursor(repo, env) && env.readCursor
    && Lookup(w.db.watched, repo).Some? && Lookup(w.db.watched, repo).value != env.fetch.tag
  }

  /** It has read that there is none, and comes to recording the poll. */
  predicate RecordsPoll(w: World, repo: string, env: CheckEnv) {
    NeedsCursor(repo, env) && env.readCursor && !NeedsSubs(w, repo, env)
  }

  /** A read that the check came to failed. */
  predicate ReadFails(w: World, repo: string, env: CheckEnv) {
    (NeedsCursor(repo, env) && !env.readCursor) || (NeedsSubs(w, repo, env) && !env.readSubs)
  }

  /** Exactly when a check answers what. */
  lemma CheckReplyIff(w: World, repo: string, env: CheckEnv, emails: seq<string>)
    ensures var r := CheckRepo(w, repo, env, emails).1;
      && (r == InvalidRepoFormat <==> |RepoFormat.SplitN(repo)| != 2)
      && (r == ErrRateLimited <==> |RepoFormat.SplitN(repo)| == 2 && env.fetch.RateLimited?)
      && (r == Failed <==>
            || (|RepoFormat.SplitN(repo)| == 2 && env.fetch.Unreachable?)
            || ReadFails(w, repo, env)
            || (RecordsPoll(w, repo, env) && !env.save.Done?))
  {
  }

  /** When GitHub gives no tag, or a read fails, nothing at all has changed. */
  lemma FailedCheckChangesNothing(w: World, repo: string, env: CheckEnv, emails: seq<string>)
    requires !NeedsCursor(repo, env) || ReadFails(w, repo, env)
    ensures CheckRepo(w, repo, env, emails).0 == w
  {
  }

  /** A check touches no row of a subscription or token and no other repo's cursor, and publishes
      only with news and the subscribers read. */
  lemma CheckTouchesOnlyItsCursor(w: World, repo: string, env: CheckEnv, emails: seq<string>, other: string)
    requires other != repo
    ensures var w' := CheckRepo(w, repo, env, emails).0;
      && w'.db == w.db.(watched := w'.db.watched)
      && Lookup(w'.db.watched, other) == Lookup(w.db.watched, other)
      && (w'.stream != w.stream ==> NeedsSubs(w, repo, env) && env.readSubs)
  {
  }

  /** What a check can do to its own cursor: it moves from a present tag only to the fetched one, and
      only with both reads done, every publish accepted and the save applied; and a first sighting
      is recorded exactly when its save is applied. */
  lemma CheckMovesCursorIff(w: World, repo: string, env: CheckEnv, emails: seq<string>)
    ensures var was, now := Lookup(w.db.watched, repo), Lookup(CheckRepo(w, repo, env, emails).0.db.watched, repo);
      && (was.Some? ==>
            (now != was <==>
               NeedsSubs(w, repo, env) && env.readSubs && AllSent(env.sends, |emails|) && env.save.Applied()))
      && (was.None? ==> (now != was <==> NeedsCursor(repo, env) && env.readCursor && env.save.Applied()))
      && (now != was ==> env.fetch.Release? && now == Some(env.fetch.tag))
  {
  }

  predicate CopyFrom(s: Bus.Stream, id: string, at: nat) {
    exists i :: 0 <= i < |s.log| && s.log[i].id == id && s.log[i].at == at
  }

  /** A first announcement leaves a copy of this very moment for everyone it reached. */
  lemma {:induction false} SentServes(s: Bus.Stream, repo: string, tag: string, emails: seq<string>,
                                      sends: nat -> Outcome, n: nat)
    requires n <= |emails| && s.window > 0
    requires forall k :: 0 <= k < n ==> !Bus.HasCopy(s, Id(repo, tag, emails[k]))
    ensures var s' := Sent(s, repo, tag, emails, sends, n);
      && s.log <= s'.log && s'.now == s.now && s'.window == s.window
      && (forall i :: |s.log| <= i < |s'.log| ==> s'.log[i].at == s.now)
      && forall k :: 0 <= k < n && sends(k).Applied() ==> CopyFrom(s', Id(repo, tag, emails[k]), s.now)
  {
    if n > 0 {
      var s0, s' := Sent(s, repo, tag, emails, sends, n - 1), Sent(s, repo, tag, emails, sends, n);
      SentServes(s, repo, tag, emails, sends, n - 1);
      forall k | 0 <= k < n && sends(k).Applied()
        ensures CopyFrom(s', Id(repo, tag, emails[k]), s.now)
      {
        var id := Id(repo, tag, emails[k]);
        if k < n - 1 {
          var i :| 0 <= i < |s0.log| && s0.log[i].id == id && s0.log[i].at == s.now;
          assert s'.log[i] == s0.log[i];
        } else if Bus.Fresh(s0, id) {
          assert s'.log[|s0.log|].id == id;
        } else {
          var i :| 0 <= i < |s0.log| && s0.log[i].id == id && s0.log[i].at + s0.window > s0.now;
          assert forall j :: 0 <= j < |s.log| ==> s0.log[j] == s.log[j] && s.log[j].id != id;
          assert s'.log[i] == s0.log[i];
        }
      }
    }
  }

  /** While an id is not fresh, no publish stores it again. */
  lemma {:induction false} SentSkips(s: Bus.Stream, repo: string, tag: string, emails: seq<string>,
                                     sends: nat -> Outcome, n: nat, id: string)
    requires n <= |emails| && !Bus.Fresh(s, id)
    ensures var s' := Sent(s, repo, tag, emails, sends, n);
      && s.log <= s'.log && s'.now == s.now && s'.window == s.window
      && forall i :: |s.log| <= i < |s'.log| ==> s'.log[i].id != id
  {
    if n > 0 {
      var s0 := Sent(s, repo, tag, emails, sends, n - 1);
      SentSkips(s, repo, tag, emails, sends, n - 1, id);
      var i :| 0 <= i < |s.log| && s.log[i].id == id && s.log[i].at + s.window > s.now;
      assert s0.log[i] == s.log[i];
    }
  }

  function Later(w: World, now: nat): World {
    w.(stream := w.stream.(now := now))
  }

  /** Redelivery is idempotent inside the window: when a first announcement did not get its cursor
      saved, a retry less than a window later - with whatever recipients and outcomes - stores no
      second copy for anyone the first one reached. */
  lemma RetryStoresOnlyTheMissing(w: World, repo: string, env: CheckEnv, emails: seq<string>, now: nat,
                                  env2: CheckEnv, emails2: seq<string>, k: nat)
    requires Announces(w, repo, env) && w.stream.window > 0 && now < w.stream.now + w.stream.window
    requires forall j :: 0 <= j < |emails| ==> !Bus.HasCopy(w.stream, Id(repo, env.fetch.tag, emails[j]))
    requires k < |emails| && env.sends(k).Applied()
    ensures var w1 := Later(CheckRepo(w, repo, env, emails).0, now);
            var w2 := CheckRepo(w1, repo, env2.(fetch := env.fetch), emails2).0;
      && w1.stream.log <= w2.stream.log
      && forall i :: |w1.stream.log| <= i < |w2.stream.log| ==>
           w2.stream.log[i].id != Id(repo, env.fetch.tag, emails[k])
  {
    var tag, id := env.fetch.tag, Id(repo, env.fetch.tag, emails[k]);
    var w1 := Later(CheckRepo(w, repo, env, emails).0, now);
    SentServes(w.stream, repo, tag, emails, env.sends, |emails|);
    var i :| 0 <= i < |w1.stream.log| && w1.stream.log[i].id == id && w1.stream.log[i].at == w.stream.now;
    assert !Bus.Fresh(w1.stream, id);
    SentSkips(w1.stream, repo, tag, emails2, env2.sends, |emails2|, id);
  }

  /** An environment in which everything works and GitHub's answer is `tag`. */
  function Good(tag: string): CheckEnv {
    CheckEnv(Release(tag), true, true, (k: nat) => Done, Done)
  }

  /** The checks of one repo over a feed of answers, with nothing failing. */
  function AfterFeed(w: World, repo: string, feed: seq<string>, emails: seq<string>): World {
    if feed == [] then w
    else
      var n := |feed| - 1;
      CheckRepo(AfterFeed(w, repo, feed[..n], emails), repo, Good(feed[n]), emails).0
  }

  /** The last answer that was a tag at all: GitHub answers "" while there is no release. */
  function LastTag(feed: seq<string>): Option<string> {
    if feed == [] then None
    else
      var n := |feed| - 1;
      if feed[n] != "" then Some(feed[n]) else LastTag(feed[..n])
  }

  lemma {:induction false} FeedCursor(w: World, repo: string, feed: seq<string>, emails: seq<string>)
    requires |RepoFormat.SplitN(repo)| == 2 && Lookup(w.db.watched, repo) == None
    ensures Lookup(AfterFeed(w, repo, feed, emails).db.watched, repo) == LastTag(feed)
  {
    if feed != [] {
      FeedCursor(w, repo, feed[..|feed| - 1], emails);
    }
  }

  /** Exactly when an answer is announced for a repo that had no cursor: when some release was seen
      before and the answer is another one. In particular the first release ever seen is not
      announced, even if earlier checks had seen that there was none yet. */
  lemma {:induction false} AnnouncedIff(w: World, repo: string, feed: seq<string>, emails: seq<string>, tag: string)
    requires |RepoFormat.SplitN(repo)| == 2 && Lookup(w.db.watched, repo) == None
    ensures Announces(AfterFeed(w, repo, feed, emails), repo, Good(tag))
            <==> tag != "" && LastTag(feed).Some? && LastTag(feed).value != tag
  {
    FeedCursor(w, repo, feed, emails);
  }

  /** A repo without a release when the first checks run: its first release is recorded in silence,
      though it appeared after the subscriptions, and later checks that see it are silent too. */
  lemma {:induction false} FirstReleaseIsSkipped(w: World, repo: string, before: nat, after: nat, emails: seq<string>,
                                                 tag: string)
    requires |RepoFormat.SplitN(repo)| == 2 && Lookup(w.db.watched, repo) == None && tag != ""
    ensures var w' := AfterFeed(w, repo, seq(before, i => "") + seq(after + 1, i => tag), emails);
            w'.stream == w.stream && Lookup(w'.db.watched, repo) == Some(tag)
  {
    var none, feed := seq(before, i => ""), seq(before, i => "") + seq(after + 1, i => tag);
    var n := |feed| - 1;
    if after > 0 {
      assert feed[..n] == none + seq(after, i => tag);
      FirstReleaseIsSkipped(w, repo, before, after - 1, emails, tag);
    } else {
      assert feed[..n] == none;
      NothingYet(w, repo, before, emails);
    }
  }

  lemma {:induction false} NothingYet(w: World, repo: string, before: nat, emails: seq<string>)
    requires |RepoFormat.SplitN(repo)| == 2
    ensures AfterFeed(w, repo, seq(before, i => ""), emails) == w
  {
    if before > 0 {
      assert seq(before, i => "")[..before - 1] == seq(before - 1, i => "");
      NothingYet(w, repo, before - 1, emails);
    }
  }

  predicate NewCopy(s: Bus.Stream, s': Bus.Stream, id: string) {
    exists i :: |s.log| <= i < |s'.log| && s'.log[i].id == id
  }

  /** The send loop stores a new copy for a recipient it reaches iff no copy is inside the window. */
  lemma {:induction false} SentStoresIff(s: Bus.Stream, repo: string, tag: string, emails: seq<string>,
                                         sends: nat -> Outcome, n: nat, k: nat)
    requires k < n <= |emails| && sends(k).Applied()
    ensures var s' := Sent(s, repo, tag, emails, sends, n);
            s.log <= s'.log && (NewCopy(s, s', Id(repo, tag, emails[k])) <==> Bus.Fresh(s, Id(repo, tag, emails[k])))
  {
    var id := Id(repo, tag, emails[k]);
    var s0, s' := Sent(s, repo, tag, emails, sends, n - 1), Sent(s, repo, tag, emails, sends, n);
    if !Bus.Fresh(s, id) {
      SentSkips(s, repo, tag, emails, sends, n, id);
    } else if k < n - 1 {
      SentStoresIff(s, repo, tag, emails, sends, n - 1, k);
      var i :| |s.log| <= i < |s0.log| && s0.log[i].id == id;
      assert s'.log[i].id == id;
    } else {
      SentGrows(s, repo, tag, emails, sends, n - 1);
      if Bus.Fresh(s0, id) {
        assert s'.log[|s0.log|].id == id;
      } else {
        assert forall j :: 0 <= j < |s.log| ==> s0.log[j] == s.log[j];
        var i :| 0 <= i < |s0.log| && s0.log[i].id == id && s0.log[i].at + s0.window > s0.now;
        assert s'.log[i].id == id;
      }
    }
  }

  lemma {:induction false} SentGrows(s: Bus.Stream, repo: string, tag: string, emails: seq<string>,
                                     sends: nat -> Outcome, n: nat)
    requires n <= |emails|
    ensures var s' := Sent(s, repo, tag, emails, sends, n);
            s.log <= s'.log && s'.now == s.now && s'.window == s.window
  {
    if n > 0 {
      SentGrows(s, repo, tag, emails, sends, n - 1);
    }
  }

  /** A tag can be announced twice: the check compares with the last tag only. When GitHub goes from
      `tag` to another one and back, the return is announced, and a recipient gets a second copy
      exactly when the first one has left the window by then. */
  lemma ReturningTagIsAnnouncedAgain(w: World, repo: string, tag: string, env: CheckEnv, emails: seq<string>, now: nat,
                                     env2: CheckEnv, emails2: seq<string>, k: nat)
    requires Announces(w, repo, env) && Lookup(w.db.watched, repo) == Some(tag) && tag != ""
    requires AllSent(env.sends, |emails|) && env.save.Applied()
    requires env2.readCursor && env2.readSubs && k < |emails2| && env2.sends(k).Applied()
    ensures var w1 := Later(CheckRepo(w, repo, env, emails).0, now);
            var back := env2.(fetch := Release(tag));
            var w2 := CheckRepo(w1, repo, back, emails2).0;
      && Announces(w1, repo, back)
      && (NewCopy(w1.stream, w2.stream, Id(repo, tag, emails2[k])) <==> Bus.Fresh(w1.stream, Id(repo, tag, emails2[k])))
  {
    var w1 := Later(CheckRepo(w, repo, env, emails).0, now);
    SentStoresIff(w1.stream, repo, tag, emails2, env2.sends, |emails2|, k);
  }
}

/** The scanner object's checkRepo over the repository and notifier objects. */
module ScannerObject {
  import opened Common
  import WorldState
  import opened ScannerSpec
  import RepoFormat
  import Store
  import RepositoryObject
  import Publishing

  class Scanner {
    const repo: RepositoryObject.Repository
    const notifier: Publishing.EmailNotifier

    constructor (repo: RepositoryObject.Repository, notifier: Publishing.EmailNotifier)
      ensures this.repo == repo && this.notifier == notifier
    {
      this.repo, this.notifier := repo, notifier;
    }

    ghost function World(): WorldState.World
      reads repo, notifier.publisher.js
    {
      WorldState.World(repo.Value(), notifier.publisher.js.Value())
    }

    /** The send loop: every recipient is tried, whatever became of the ones before. */
    method SendAll(name: string, tag: string, rows: seq<nat>, sends: nat -> Outcome) returns (allSent: bool)
      requires Store.IsConfirmedList(repo.Value(), name, rows)
      modifies notifier.publisher.js`log
      ensures notifier.publisher.js.Value()
              == Sent(old(notifier.publisher.js.Value()), name, tag, EmailsOf(repo.subs, rows), sends, |rows|)
      ensures allSent == AllSent(sends, |rows|)
    {
      ghost var stream, emails := notifier.publisher.js.Value(), EmailsOf(repo.subs, rows);
      allSent := true;
      forall k | 0 <= k < |rows|
        ensures rows[k] in repo.subs && repo.subs[rows[k]].repo == name
      {
        assert rows[k] in rows;
      }
      for i := 0 to |rows|
        invariant notifier.publisher.js.Value() == Sent(stream, name, tag, emails, sends, i)
        invariant allSent == AllSent(sends, i)
      {
        var sub := repo.subs[rows[i]];
        var ok := notifier.SendReleaseNotification(sub.email, sub.repo, tag, true, sends(i));
        if !ok {
          allSent := false;
        }
      }
    }

    /** `rows` records the order in which the database returned the confirmed subscriptions, when
        they were read at all. */
    method CheckRepo(name: string, env: CheckEnv) returns (r: CheckReply, ghost rows: seq<nat>)
      modifies repo`watched, notifier.publisher.js`log
      ensures Announces(old(World()), name, env) ==> Store.IsConfirmedList(old(repo.Value()), name, rows)
      ensures (World(), r) == ScannerSpec.CheckRepo(old(World()), name, env, EmailsOf(repo.subs, rows))
    {
      rows := [];
      var parts := RepoFormat.SplitN(name);
      if |parts| != 2 {
        return InvalidRepoFormat, rows;
      }
      if env.fetch.RateLimited? {
        return ErrRateLimited, rows;
      }
      if env.fetch.Unreachable? {
        return ScannerSpec.Failed, rows;
      }
      var tag := env.fetch.tag;
      if tag == "" {
        return Checked, rows;
      }
      if !env.readCursor {
        return ScannerSpec.Failed, rows;
      }
      var watched := repo.GetWatchedRepo(name);
      if watched.None? || watched.value == tag {
        var ok := repo.SaveWatchedRepoTag(name, tag, env.save);
        return if ok then Checked else ScannerSpec.Failed, rows;
      }
      if !env.readSubs {
        return ScannerSpec.Failed, rows;
      }
      var subs := repo.FindConfirmedSubscriptionsByRepo(name);
      rows := subs;
      // Notify before advancing the cursor.
      var allSent := SendAll(name, tag, subs, env.sends);
      if !allSent {
        return Checked, rows;
      }
      var _ := repo.SaveWatchedRepoTag(name, tag, env.save);
      r := Checked;
    }
  }
}

/** The tick loop of Scanner.Run: when successive runs start, given how long each one takes. */
module Ticker {

  datatype Span = Span(start: nat, end: nat)

  /** Ticks fall one interval apart, counted from the ticker's creation at time `t0`. */
  function Tick(t0: nat, interval: nat, k: nat): nat {
    if k == 0 then t0 else Tick(t0, interval, k - 1) + interval
  }

  function TickAfter(t0: nat, interval: nat, t: nat): (r: nat)
    requires interval > 0 && t0 <= t
    ensures t < r <= t + interval
    decreases t
  {
    if t < t0 + interval then t0 + interval else interval + TickAfter(t0, interval, t - interval)
  }

  /** A run that starts on tick `k` and takes less than an interval ends before tick `k + 1`. */
  lemma {:induction false} ShortRunEndsBeforeTick(t0: nat, interval: nat, k: nat, take: nat)
    requires take < interval
    ensures t0 <= Tick(t0, interval, k)
    ensures TickAfter(t0, interval, Tick(t0, interval, k) + take) == Tick(t0, interval, k + 1)
  {
    if k > 0 {
      ShortRunEndsBeforeTick(t0, interval, k - 1, take);
    }
  }

  /** With no tick in between, the first tick after either moment is the same. */
  lemma {:induction false} TickBetween(t0: nat, interval: nat, s: nat, t: nat)
    requires interval > 0 && t0 <= s <= t < TickAfter(t0, interval, s)
    ensures TickAfter(t0, interval, t) == TickAfter(t0, interval, s)
  {
    if s >= t0 + interval {
      TickBetween(t0, interval, s - interval, t - interval);
    }
  }

  function Budget(interval: nat): nat {
    interval * 8 / 10
  }

  /** Exactly when a run follows the one before. If that one was a run of the loop and took more than
      0.8 intervals: on the first tick after its end, never on one that fell inside it. Otherwise: on
      the first tick after its start, or right away if that tick fell inside it. So runs never overlap,
      and the wait is at most one interval. */
  predicate Follows(t0: nat, interval: nat, inLoop: bool, prev: Span, next: Span)
    requires interval > 0
  {
    && t0 <= prev.start <= prev.end <= next.start <= prev.end + interval
    && next.start == if inLoop && 10 * (prev.end - prev.start) > 8 * interval then TickAfter(t0, interval, prev.end)
                     else Later(prev.end, TickAfter(t0, interval, prev.start))
  }

  function Later(s: nat, t: nat): nat {
    if s < t then t else s
  }

  ghost predicate AllFollow(t0: nat, interval: nat, runs: seq<Span>)
    requires interval > 0
  {
    forall k, l :: 0 <= k < l < |runs| && l == k + 1 ==> Follows(t0, interval, k > 0, runs[k], runs[l])
  }

  lemma AllFollowExtend(t0: nat, interval: nat, runs: seq<Span>, next: Span)
    requires interval > 0 && runs != [] && AllFollow(t0, interval, runs)
    requires Follows(t0, interval, |runs| > 1, runs[|runs| - 1], next)
    ensures AllFollow(t0, interval, runs + [next])
  {
  }

  ghost predicate AllShort(interval: nat, takes: seq<nat>) {
    forall k :: 0 <= k < |takes| ==> takes[k] < interval
  }

  ghost predicate OnSuccessiveTicks(t0: nat, interval: nat, runs: seq<Span>) {
    forall k :: 0 <= k < |runs| ==> runs[k].start == Tick(t0, interval, k)
  }

  ghost predicate Lasts(runs: seq<Span>, takes: seq<nat>) {
    |runs| <= |takes| && forall k :: 0 <= k < |runs| ==> runs[k].end == runs[k].start + takes[k]
  }

  lemma LastsExtend(runs: seq<Span>, takes: seq<nat>, next: Span)
    requires Lasts(runs, takes) && |runs| < |takes| && next.end == next.start + takes[|runs|]
    ensures Lasts(runs + [next], takes)
  {
  }

  /** `due` is the first tick since the channel was last empty, and is in the channel once it is past. */
  predicate Due(t0: nat, interval: nat, first: bool, last: Span, due: nat)
    requires interval > 0
  {
    && t0 <= last.start <= last.end
    && due == TickAfter(t0, interval,
                        if !first && last.end - last.start > Budget(interval) then last.end else last.start)
  }

  /** What short runs add to that: they have kept pace with the ticks. */
  ghost predicate OnPace(t0: nat, interval: nat, takes: seq<nat>, runs: seq<Span>, due: nat) {
    AllShort(interval, takes) ==> OnSuccessiveTicks(t0, interval, runs) && due == Tick(t0, interval, |runs|)
  }

  /** The run that starts on the pending tick, and the tick it and the drain leave pending. */
  predicate Next(t0: nat, interval: nat, prev: Span, due: nat, next: Span, due': nat)
    requires interval > 0
  {
    && next.start == (if due <= prev.end then prev.end else due)
    && t0 <= next.start <= next.end
    && due' == TickAfter(t0, interval, if next.end - next.start > Budget(interval) then next.end else next.start)
  }

  lemma NextFollows(t0: nat, interval: nat, first: bool, prev: Span, due: nat, next: Span, due': nat)
    requires interval > 0 && Due(t0, interval, first, prev, due) && Next(t0, interval, prev, due, next, due')
    ensures Follows(t0, interval, !first, prev, next)
    ensures Due(t0, interval, false, next, due')
  {
  }

  lemma NextOnPace(t0: nat, interval: nat, takes: seq<nat>, runs: seq<Span>, due: nat, next: Span, due': nat)
    requires interval > 0 && 0 < |runs| < |takes| && Lasts(runs, takes) && OnPace(t0, interval, takes, runs, due)
    requires Next(t0, interval, runs[|runs| - 1], due, next, due') && next.end == next.start + takes[|runs|]
    ensures OnPace(t0, interval, takes, runs + [next], due')
  {
    if AllShort(interval, takes) {
      var i := |runs|;
      assert runs[i - 1].end == Tick(t0, interval, i - 1) + takes[i - 1];
      assert next.start == Tick(t0, interval, i);
      ShortRunEndsBeforeTick(t0, interval, i, 0);
      ShortRunEndsBeforeTick(t0, interval, i, takes[i]);
    }
  }

  /** One run per entry of `takes`, the first one right away. Runs that each take less than an
      interval start on successive ticks, over budget or not. */
  method Run(t0: nat, interval: nat, takes: seq<nat>) returns (runs: seq<Span>)
    requires interval > 0
    ensures |runs| == |takes| && Lasts(runs, takes)
    ensures AllFollow(t0, interval, runs) && (runs != [] ==> runs[0].start == t0)
    ensures AllShort(interval, takes) ==> OnSuccessiveTicks(t0, interval, runs)
  {
    runs := [];
    if takes == [] {
      return;
    }
    runs := [Span(t0, t0 + takes[0])];
    var budget := Budget(interval);
    var now: nat, due: nat := t0 + takes[0], t0 + interval;
    for i := 1 to |takes|
      invariant |runs| == i && now == runs[i - 1].end && Lasts(runs, takes)
      invariant AllFollow(t0, interval, runs) && runs[0].start == t0
      invariant Due(t0, interval, i == 1, runs[i - 1], due)
      invariant OnPace(t0, interval, takes, runs, due)
    {
      // case <-ticker.C
      var start := if due <= now then now else due;
      var pending := TickAfter(t0, interval, start);
      ghost var prev := runs[i - 1];
      now := start + takes[i];
      // The non-blocking drain finds a tick only if one fell due during the run.
      if now - start > budget {
        pending := Drain(t0, interval, start, pending, now);
      }
      var next := Span(start, now);
      NextFollows(t0, interval, i == 1, prev, due, next, pending);
      AllFollowExtend(t0, interval, runs, next);
      LastsExtend(runs, takes, next);
      NextOnPace(t0, interval, takes, runs, due, next, pending);
      runs, due := runs + [next], pending;
    }
  }

  /** The next tick after a drain at `now`: the pending one is dropped, one still to come is kept. */
  method Drain(t0: nat, interval: nat, start: nat, due: nat, now: nat) returns (next: nat)
    requires interval > 0 && t0 <= start <= now && due == TickAfter(t0, interval, start)
    ensures next == TickAfter(t0, interval, now)
    ensures now < due ==> next == due
  {
    if due <= now {
      return TickAfter(t0, interval, now);
    }
    TickBetween(t0, interval, start, now);
    return due;
  }

  /** Three consecutive short runs are over within three intervals of the first one's start. */
  lemma ThreeShortRunsFit(t0: nat, interval: nat, takes: seq<nat>, runs: seq<Span>, k: nat)
    requires AllShort(interval, takes) && Lasts(runs, takes) && OnSuccessiveTicks(t0, interval, runs) && k + 2 < |runs|
    ensures runs[k + 2].end < runs[k].start + 3 * interval
  {
    assert Tick(t0, interval, k + 2) == Tick(t0, interval, k + 1) + interval == Tick(t0, interval, k) + 2 * interval;
  }
}
