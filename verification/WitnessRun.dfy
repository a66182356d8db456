/** A run of the application from the empty database in which a cursor moves: somebody subscribes
    and confirms, a scan records the first release in silence, the process is restarted, and a second
    scan announces the next release. */
module WitnessRun {
  import opened Common
  import opened History
  import opened SystemModel
  import opened WorldState
  import opened SoloRuns
  import SystemTheorems
  import RepoFormat
  import Notify
  import Bus
  import Store
  import Pool
  import ScanCycle
  import ScannerSpec

  ghost predicate FetchesOnly(steps: seq<Step>, tags: set<string>) {
    forall i :: 0 <= i < |steps| ==> (steps[i].FetchTag? ==> steps[i].tag in tags) && !steps[i].SetWindow?
  }

  /** A path from `s` to `s'` that fetches these tags only and boots nothing. */
  ghost predicate Leads(at: seq<Sys>, steps: seq<Step>, tags: set<string>, s: Sys, s': Sys) {
    Path(at, steps) && at[0] == s && at[|steps|] == s' && FetchesOnly(steps, tags)
  }

  lemma Join(a: seq<Sys>, st: seq<Step>, b: seq<Sys>, tu: seq<Step>, tags: set<string>, s: Sys, m: Sys, s': Sys)
    returns (at: seq<Sys>, steps: seq<Step>)
    requires Leads(a, st, tags, s, m) && Leads(b, tu, tags, m, s')
    ensures Leads(at, steps, tags, s, s') && steps == st + tu && at == a + b[1..]
  {
    at, steps := a + b[1..], st + tu;
    forall k: nat | k < |steps|
      ensures Hop(at, steps, k)
    {
      if k < |st| {
        assert Hop(a, st, k);
      } else {
        assert Hop(b, tu, k - |st|);
      }
    }
  }

  lemma Step1(at: seq<Sys>, steps: seq<Step>, tags: set<string>, s: Sys, m: Sys, st: Step)
    returns (at': seq<Sys>, steps': seq<Step>)
    requires Leads(at, steps, tags, s, m) && Enabled(m, st) && (st.FetchTag? ==> st.tag in tags) && !st.SetWindow?
    ensures Leads(at', steps', tags, s, Apply(m, st))
  {
    at', steps' := Extend(at, steps, st);
  }

  lemma Here(s: Sys, tags: set<string>) returns (at: seq<Sys>, steps: seq<Step>)
    ensures Leads(at, steps, tags, s, s)
  {
    at, steps := [s], [];
  }

  // ---- a subscription ----

  function Rows(email: string, repo: string, unsub: string, confirmed: bool): map<nat, Store.Subscription> {
    map[1 := Store.Subscription(email, repo, confirmed, unsub)]
  }

  /** One subscription in an otherwise empty database, with its token. */
  predicate Pending(s: Sys, email: string, repo: string, unsub: string, confirm: string) {
    && s.db.subs == Rows(email, repo, unsub, false) && s.db.tokens == map[1 := Store.Token(confirm, 1)]
    && s.db.watched == map[] && s.calls == map[] && s.cycle == None
  }

  /** And confirmed. */
  predicate Settled(s: Sys, email: string, repo: string, unsub: string, cursor: Option<string>) {
    && s.db.subs == Rows(email, repo, unsub, true)
    && Lookup(s.db.watched, repo) == cursor && s.cycle == None
  }

  ghost predicate NoReleases(log: seq<Bus.Stored>) {
    forall i :: 0 <= i < |log| ==> log[i].command.ConfirmationCommand? && log[i].id == Bus.DedupID(log[i].command)
  }

  lemma Subscribed(window: nat, email: string, repo: string, unsub: string, confirm: string, tags: set<string>)
    returns (at: seq<Sys>, steps: seq<Step>, s: Sys)
    requires RepoFormat.MatchString(repo) && unsub != confirm
    ensures Leads(at, steps, tags, Init(window), s) && Pending(s, email, repo, unsub, confirm)
    ensures NoReleases(s.stream.log) && s.stream.window == window
  {
    var s0 := Init(window);
    at, steps := Here(s0, tags);
    at, steps := Step1(at, steps, tags, s0, s0, BeginSubscribe(0, email, repo));
    var s1 := SetCall(s0, 0, Checking(email, repo));
    at, steps := Step1(at, steps, tags, s0, s1, CheckExisting(0));
    var s2 := SetCall(s1, 0, Validating(email, repo));
    at, steps := Step1(at, steps, tags, s0, s2, ValidateRepo(0));
    var s3 := SetCall(s2, 0, Creating(email, repo));
    at, steps := Step1(at, steps, tags, s0, s3, CreateRows(0, unsub, confirm, Done));
    var s4 := DoCreate(s3, 0, unsub, confirm, Done);
    at, steps := Step1(at, steps, tags, s0, s4, MailConfirmation(0, Done));
    s := DoMail(s4, 0, Done);
    assert s.calls == map[];
  }

  lemma Presents(s: Sys, who: Who, confirm: string, tags: set<string>) returns (at: seq<Sys>, steps: seq<Step>, s': Sys)
    requires Pending(s, who.email, who.repo, who.unsub, confirm) && who.sub == 1 && confirm != ""
    ensures Leads(at, steps, tags, s, s')
    ensures s'.db == s.db && s'.cycle == None && s'.calls == map[0 := Confirming(1, who, confirm)]
    ensures s'.stream == s.stream
  {
    at, steps := Here(s, tags);
    at, steps := Step1(at, steps, tags, s, s, BeginConfirm(0, confirm));
    var s1 := SetCall(s, 0, LookingUp(confirm));
    at, steps := Step1(at, steps, tags, s, s1, FindToken(0, 1));
    s' := SetCall(Log(s1, Presented(who, confirm)), 0, Confirming(1, who, confirm));
  }

  lemma Drops(s: Sys, tags: set<string>) returns (at: seq<Sys>, steps: seq<Step>, s': Sys)
    requires 0 in s.calls && s.calls[0].Confirming? && s.cycle == None
    ensures Leads(at, steps, tags, s, s') && s'.cycle == None && s'.stream == s.stream
    ensures s'.db == Store.DropToken(Store.Confirm(s.db, s.calls[0].who.sub), s.calls[0].token)
  {
    at, steps := Here(s, tags);
    at, steps := Step1(at, steps, tags, s, s, ConfirmRow(0, Done));
    var s1 := DoConfirm(s, 0, Done);
    at, steps := Step1(at, steps, tags, s, s1, DropTokenRow(0, Done));
    s' := DoDropToken(s1, 0, Done);
  }

  lemma Confirmed(s: Sys, email: string, repo: string, unsub: string, confirm: string, tags: set<string>)
    returns (at: seq<Sys>, steps: seq<Step>, s': Sys)
    requires Pending(s, email, repo, unsub, confirm) && confirm != ""
    ensures Leads(at, steps, tags, s, s') && Settled(s', email, repo, unsub, None) && s'.stream == s.stream
  {
    var m, b, tu;
    at, steps, m := Presents(s, Who(1, email, repo, unsub), confirm, tags);
    b, tu, s' := Drops(m, tags);
    at, steps := Join(at, steps, b, tu, tags, s, m, s');
  }

  // ---- a scan ----

  lemma OnlyRow(s: Sys, email: string, repo: string, unsub: string, cursor: Option<string>)
    requires Settled(s, email, repo, unsub, cursor)
    ensures Store.IsRepoList(s.db, [repo]) && Store.IsConfirmedList(s.db, repo, [1])
  {
    assert 1 in s.db.subs;
    assert forall i :: i in s.db.subs <==> i == 1;
  }

  function OneWorker(repo: string, h: ScanCycle.Check): Pool.State<ScanCycle.Check> {
    Pool.State(1, [repo], 1, 1, 1, false, Pool.Top, [Pool.Worker(repo, Pool.Handling(h))])
  }

  /** The dispatcher starts the only job. */
  lemma Dispatched(s: Sys, repo: string, tags: set<string>) returns (at: seq<Sys>, steps: seq<Step>, s': Sys)
    requires s.cycle == None && Store.IsRepoList(s.db, [repo])
    ensures Leads(at, steps, tags, s, s')
    ensures s' == s.(cycle := Some(ScanCycle.Cycle(OneWorker(repo, ScanCycle.Loading), false, 0, 0, 0, {})))
  {
    at, steps := Here(s, tags);
    at, steps := Step1(at, steps, tags, s, s, BeginCycle(1, [repo]));
    var c := ScanCycle.Begin(1, [repo]);
    at, steps, c := Scheduled(at, steps, tags, s, s, c, Pool.CheckNext);
    at, steps, c := Scheduled(at, steps, tags, s, s, c, Pool.Acquire);
    at, steps, c := Scheduled(at, steps, tags, s, s, c, Pool.Add);
    assert c.pool == Pool.State(1, [repo], 0, 1, 1, false, Pool.Spawning, []);
    at, steps, c := Scheduled(at, steps, tags, s, s, c, Pool.Spawn);
    assert c.pool.workers == OneWorker(repo, ScanCycle.Loading).workers;
    s' := s.(cycle := Some(c));
  }

  lemma Scheduled(at: seq<Sys>, steps: seq<Step>, tags: set<string>, s: Sys, m: Sys, c: ScanCycle.Cycle,
                  ps: Pool.Step<ScanCycle.Check>)
    returns (at': seq<Sys>, steps': seq<Step>, c': ScanCycle.Cycle)
    requires Leads(at, steps, tags, s, m.(cycle := Some(c))) && ScanCycle.CanSchedule(c, ps)
    ensures c' == ScanCycle.Schedule(c, ps) && Leads(at', steps', tags, s, m.(cycle := Some(c')))
  {
    c' := ScanCycle.Schedule(c, ps);
    at', steps' := Step1(at, steps, tags, s, m.(cycle := Some(c)), Schedule(ps));
  }

  lemma Moved1(at: seq<Sys>, steps: seq<Step>, tags: set<string>, s: Sys, m: Sys, h: ScanCycle.Check)
    returns (at': seq<Sys>, steps': seq<Step>, m': Sys)
    requires Leads(at, steps, tags, s, m) && Enabled(m, Local(0, h))
    ensures Leads(at', steps', tags, s, m') && m' == MoveTo(m, 0, h) && Moved(m, 0, h, m')
  {
    MoveToMoves(m, 0, h);
    m' := MoveTo(m, 0, h);
    at', steps' := Step1(at, steps, tags, s, m, Local(0, h));
  }

  /** The only worker of a scan is in its GitHub call. */
  lemma CallStarted(s: Sys, email: string, repo: string, unsub: string, cursor: Option<string>, tags: set<string>)
    returns (at: seq<Sys>, steps: seq<Step>, s': Sys)
    requires Settled(s, email, repo, unsub, cursor) && RepoFormat.MatchString(repo)
    ensures Leads(at, steps, tags, s, s')
    ensures InHandler(s', 0) && Handler(s', 0).Calling? && Job(s', 0) == repo
    ensures s'.db == s.db && s'.stream == s.stream && s'.log == s.log
  {
    OnlyRow(s, email, repo, unsub, cursor);
    RepoFormat.AcceptedRepoSplits(repo);
    at, steps, s' := Dispatched(s, repo, tags);
    at, steps, s' := Moved1(at, steps, tags, s, s', ScanCycle.Ready);
    at, steps, s' := Moved1(at, steps, tags, s, s', ScanCycle.Calling);
  }

  /** The first scan: the tag is recorded in silence; then the process is restarted. */
  lemma FirstScan(s: Sys, email: string, repo: string, unsub: string, tag: string, tags: set<string>)
    returns (at: seq<Sys>, steps: seq<Step>, s': Sys)
    requires Settled(s, email, repo, unsub, None) && RepoFormat.MatchString(repo) && tag != "" && tag in tags
    ensures Leads(at, steps, tags, s, s') && Settled(s', email, repo, unsub, Some(tag)) && s'.stream == s.stream
  {
    var m;
    at, steps, m := CallStarted(s, email, repo, unsub, None, tags);
    var b, tu, q := QuietRuns(m, repo, tag, tags);
    at, steps := Join(at, steps, b, tu, tags, s, m, q);
    at, steps := Step1(at, steps, tags, s, q, Crash);
    s' := Apply(q, Crash);
  }

  lemma QuietRuns(s: Sys, repo: string, tag: string, tags: set<string>)
    returns (at: seq<Sys>, steps: seq<Step>, s': Sys)
    requires InHandler(s, 0) && Handler(s, 0).Calling? && Job(s, 0) == repo && tag != "" && tag in tags
    requires Lookup(s.db.watched, repo) == None
    ensures Leads(at, steps, tags, s, s') && s'.stream == s.stream && s'.db == Store.SaveTag(s.db, repo, tag)
  {
    at, steps := FetchRuns(s, 0, tag);
    FetchedOnPath(at, steps, 0, tag);
    var m := at[2];
    assert Leads(at, steps, tags, s, m);
    var b, tu;
    b, tu, s' := SavesQuietly(m, repo, tag, tags);
    at, steps := Join(at, steps, b, tu, tags, s, m, s');
  }

  lemma SavesQuietly(s: Sys, repo: string, tag: string, tags: set<string>)
    returns (at: seq<Sys>, steps: seq<Step>, s': Sys)
    requires InHandler(s, 0) && Handler(s, 0).Compared? && Job(s, 0) == repo
    requires Handler(s, 0).prev == None && Handler(s, 0).tag == tag
    ensures Leads(at, steps, tags, s, s') && s'.stream == s.stream && s'.db == Store.SaveTag(s.db, repo, tag)
  {
    at, steps := Here(s, tags);
    at, steps := Step1(at, steps, tags, s, s, DecideQuiet(0));
    var m := at[|steps|];
    DecideMoves(s, 0, m);
    at, steps := Step1(at, steps, tags, s, m, Save(0, Done));
    s' := at[|steps|];
    SaveMatches(m, 0, Done, s');
  }

  // ---- the whole run ----

  lemma StepFetches(s: Sys, st: Step, tags: set<string>)
    requires Enabled(s, st) && (st.FetchTag? ==> st.tag in tags)
    requires forall i :: 0 <= i < |s.log| && s.log[i].Fetched? ==> s.log[i].tag in tags
    ensures forall i :: 0 <= i < |Apply(s, st).log| && Apply(s, st).log[i].Fetched? ==> Apply(s, st).log[i].tag in tags
  {
  }

  lemma {:induction false} TagsComeFromSteps(at: seq<Sys>, steps: seq<Step>, tags: set<string>, k: nat)
    requires Path(at, steps) && at[0].log == [] && FetchesOnly(steps, tags) && k < |at|
    ensures forall i :: 0 <= i < |at[k].log| && at[k].log[i].Fetched? ==> at[k].log[i].tag in tags
  {
    if k > 0 {
      TagsComeFromSteps(at, steps, tags, k - 1);
      assert Hop(at, steps, k - 1);
      StepFetches(at[k - 1], steps[k - 1], tags);
    }
  }

  /** A settled subscription with the cursor at `tag`, about which nothing was published. */
  lemma Recorded(window: nat, email: string, repo: string, unsub: string, confirm: string, tag: string,
                 tags: set<string>)
    returns (at: seq<Sys>, steps: seq<Step>, s: Sys)
    requires RepoFormat.MatchString(repo) && unsub != confirm && confirm != "" && tag != "" && tag in tags
    ensures Leads(at, steps, tags, Init(window), s) && Settled(s, email, repo, unsub, Some(tag))
    ensures NoReleases(s.stream.log) && s.stream.window == window
  {
    var s1, s2, b, tu;
    at, steps, s1 := Subscribed(window, email, repo, unsub, confirm, tags);
    b, tu, s2 := Confirmed(s1, email, repo, unsub, confirm, tags);
    at, steps := Join(at, steps, b, tu, tags, Init(window), s1, s2);
    b, tu, s := FirstScan(s2, email, repo, unsub, tag, tags);
    at, steps := Join(at, steps, b, tu, tags, Init(window), s2, s);
  }

  lemma Prepared(window: nat, email: string, repo: string, unsub: string, confirm: string, tag: string,
                 tags: set<string>)
    returns (at: seq<Sys>, steps: seq<Step>, s: Sys)
    requires RepoFormat.MatchString(repo) && unsub != confirm && confirm != "" && tag != "" && tag in tags
    ensures Leads(at, steps, tags, Init(window), s)
    ensures InHandler(s, 0) && Handler(s, 0).Calling? && Job(s, 0) == repo && Lookup(s.db.watched, repo) == Some(tag)
    ensures Store.IsConfirmedList(s.db, repo, [1])
  {
    var m, b, tu;
    at, steps, m := Recorded(window, email, repo, unsub, confirm, tag, tags);
    b, tu, s := CallStarted(m, email, repo, unsub, Some(tag), tags);
    at, steps := Join(at, steps, b, tu, tags, Init(window), m, s);
    OnlyRow(m, email, repo, unsub, Some(tag));
  }

  lemma DecisionKeepsDb(at: seq<Sys>, steps: seq<Step>, env: ScannerSpec.CheckEnv, ids: seq<nat>, n: nat)
    requires Path(at, steps) && InHandler(at[0], 0) && env.fetch.Release? && |steps| == 5 + n && n == |ids|
    requires steps[3 + n] == DecideLoud(0) && SendsDone(at[0], 0, ids, env.fetch.tag, env.sends, at[3 + n])
    ensures at[4 + n].db == at[0].db
  {
    DecidedOnPath(at, steps, 3 + n, 0);
  }

  lemma SaveSetsCursor(at: seq<Sys>, steps: seq<Step>, env: ScannerSpec.CheckEnv, ids: seq<nat>, n: nat)
    requires Path(at, steps) && InHandler(at[0], 0) && env.fetch.Release? && |steps| == 5 + n && n == |ids|
    requires steps[3 + n] == DecideLoud(0) && steps[4 + n] == Save(0, env.save) && env.save.Applied()
    requires SendsDone(at[0], 0, ids, env.fetch.tag, env.sends, at[3 + n])
    ensures Lookup(at[5 + n].db.watched, Job(at[0], 0)) == Some(env.fetch.tag)
  {
    LoudSaveOnPath(at, steps, 0, ids, env.fetch.tag, env.sends, env.save);
  }

  lemma LoudFetches(steps: seq<Step>, env: ScannerSpec.CheckEnv, ids: seq<nat>, tags: set<string>)
    requires env.fetch.Release? && IsLoud(steps, 0, env, ids) && env.fetch.tag in tags
    ensures FetchesOnly(steps, tags)
  {
    forall i | 3 <= i < 3 + |ids|
      ensures steps[i].Send?
    {
      assert steps[3 + (i - 3)] == Send(0, env.sends(i - 3));
    }
  }

  lemma Announced(s: Sys, repo: string, tag: string, tags: set<string>) returns (at: seq<Sys>, steps: seq<Step>, k: nat)
    requires InHandler(s, 0) && Handler(s, 0).Calling? && Job(s, 0) == repo && RepoFormat.MatchString(repo)
    requires Store.IsConfirmedList(s.db, repo, [1])
    requires Lookup(s.db.watched, repo).Some? && Lookup(s.db.watched, repo) != Some(tag) && tag != "" && tag in tags
    ensures Path(at, steps) && at[0] == s && FetchesOnly(steps, tags) && k + 1 == |steps|
    ensures at[k].db == s.db && Lookup(at[k + 1].db.watched, repo) == Some(tag)
  {
    var env := ScannerSpec.Good(tag);
    RepoFormat.AcceptedRepoSplits(repo);
    at, steps := AnnouncementRuns(s, 0, env, [1]);
    LoudFetches(steps, env, [1], tags);
    LoudSends(at, steps, 0, env, [1]);
    DecisionKeepsDb(at, steps, env, [1], 1);
    SaveSetsCursor(at, steps, env, [1], 1);
    k := 5;
  }

  /** For every subscriber, repo and two different tags there is a run from the empty database that
      meets the hypotheses of `SystemTheorems.CursorMovesOnlyWhenAnnounced` in its last step. */
  lemma ACursorMoves(window: nat, email: string, repo: string, unsub: string, confirm: string, tag: string,
                     next: string)
    returns (at: seq<Sys>, steps: seq<Step>, k: nat)
    requires RepoFormat.MatchString(repo) && unsub != confirm && confirm != ""
    requires tag != "" && next != "" && tag != next && ':' !in tag && ':' !in next
    ensures Run(window, at, steps) && k + 1 == |steps| && SystemTheorems.ColonFreeTags(at[k].log)
    ensures Lookup(at[k].db.watched, repo) == Some(tag) && Lookup(at[k + 1].db.watched, repo) == Some(next)
  {
    var tags := {tag, next};
    var a, st, s := Prepared(window, email, repo, unsub, confirm, tag, tags);
    var b, tu, j := Announced(s, repo, next, tags);
    at, steps := Join(a, st, b, tu, tags, Init(window), s, b[|tu|]);
    k := |st| + j;
    assert at[k].db == b[j].db && at[k + 1] == b[j + 1];
    TagsComeFromSteps(at, steps, tags, k);
  }

  // ---- a retry session that reaches its bound ----

  function SessionEnv(tag: string): ScannerSpec.CheckEnv {
    ScannerSpec.Good(tag).(save := NotDone)
  }

  function CopyOf(email: string, repo: string, tag: string, now: nat, window: nat): Bus.Stored {
    Bus.Stored(ScannerSpec.Id(repo, tag, email), Bus.ReleaseCommand(repo, tag, email), now, window)
  }

  /** What an announcing check with a failing save leaves, when nothing about it is in the window. */
  lemma FailedSaveLeavesACopy(w: World, repo: string, tag: string, email: string)
    requires ScannerSpec.Announces(w, repo, SessionEnv(tag)) && Bus.Fresh(w.stream, ScannerSpec.Id(repo, tag, email))
    ensures ScannerSpec.CheckRepo(w, repo, SessionEnv(tag), [email]).0
            == World(w.db, w.stream.(log := w.stream.log + [CopyOf(email, repo, tag, w.stream.now, w.stream.window)]))
  {
    var sends := SessionEnv(tag).sends;
    assert ScannerSpec.Sent(w.stream, repo, tag, [email], sends, 0) == w.stream;
  }

  lemma SessionCheck(s: Sys, repo: string, tag: string, tags: set<string>)
    returns (at: seq<Sys>, steps: seq<Step>, s': Sys)
    requires InHandler(s, 0) && Handler(s, 0).Calling? && Job(s, 0) == repo
    requires ScannerSpec.Announces(World(s.db, s.stream), repo, SessionEnv(tag)) && tag in tags
    requires Store.IsConfirmedList(s.db, repo, [1])
    ensures Leads(at, steps, tags, s, s')
    ensures World(s'.db, s'.stream)
            == ScannerSpec.CheckRepo(World(s.db, s.stream), repo, SessionEnv(tag),
                                     ScannerSpec.EmailsOf(s.db.subs, [1])).0
  {
    at, steps := AnnouncementRuns(s, 0, SessionEnv(tag), [1]);
    LoudFetches(steps, SessionEnv(tag), [1], tags);
    LoudCheckAlone(at, steps, 0, SessionEnv(tag), [1]);
    s' := at[|steps|];
  }

  lemma LoudRound(s: Sys, email: string, repo: string, tag: string, tags: set<string>)
    returns (at: seq<Sys>, steps: seq<Step>, s': Sys)
    requires InHandler(s, 0) && Handler(s, 0).Calling? && Job(s, 0) == repo && RepoFormat.MatchString(repo)
    requires Store.IsConfirmedList(s.db, repo, [1]) && 1 in s.db.subs && s.db.subs[1].email == email
    requires Lookup(s.db.watched, repo).Some? && Lookup(s.db.watched, repo) != Some(tag) && tag != "" && tag in tags
    requires Bus.Fresh(s.stream, ScannerSpec.Id(repo, tag, email))
    ensures Leads(at, steps, tags, s, s') && s'.db == s.db
    ensures s'.stream == s.stream.(log := s.stream.log + [CopyOf(email, repo, tag, s.stream.now, s.stream.window)])
  {
    RepoFormat.AcceptedRepoSplits(repo);
    at, steps, s' := SessionCheck(s, repo, tag, tags);
    assert ScannerSpec.EmailsOf(s.db.subs, [1]) == [email];
    FailedSaveLeavesACopy(World(s.db, s.stream), repo, tag, email);
  }

  /** One round of the session: scan, announce, fail to save, restart, and wait one window. */
  lemma SessionRound(s: Sys, email: string, repo: string, unsub: string, last: string, tag: string, tags: set<string>)
    returns (at: seq<Sys>, steps: seq<Step>, s': Sys)
    requires Settled(s, email, repo, unsub, Some(last)) && RepoFormat.MatchString(repo)
    requires tag != "" && tag != last && tag in tags && Bus.Fresh(s.stream, ScannerSpec.Id(repo, tag, email))
    ensures Leads(at, steps, tags, s, s') && Settled(s', email, repo, unsub, Some(last))
    ensures s'.stream.now == s.stream.now + s.stream.window && s'.stream.window == s.stream.window
    ensures s'.stream.log == s.stream.log + [CopyOf(email, repo, tag, s.stream.now, s.stream.window)]
  {
    var m, q, b, tu;
    OnlyRow(s, email, repo, unsub, Some(last));
    at, steps, m := CallStarted(s, email, repo, unsub, Some(last), tags);
    b, tu, q := LoudRound(m, email, repo, tag, tags);
    at, steps := Join(at, steps, b, tu, tags, s, m, q);
    b, tu, s' := RestartsAndWaits(q, q.stream.window, tags);
    at, steps := Join(at, steps, b, tu, tags, s, q, s');
  }

  lemma RestartsAndWaits(s: Sys, time: nat, tags: set<string>) returns (at: seq<Sys>, steps: seq<Step>, s': Sys)
    ensures Leads(at, steps, tags, s, s')
    ensures s' == s.(calls := map[], cycle := None, stream := s.stream.(now := s.stream.now + time))
  {
    at, steps := Here(s, tags);
    at, steps := Step1(at, steps, tags, s, s, Crash);
    var m := s.(calls := map[], cycle := None);
    at, steps := Step1(at, steps, tags, s, m, Tick(time));
    s' := m.(stream := m.stream.(now := m.stream.now + time));
  }

  function Times(n: nat, w: nat): nat {
    if n == 0 then 0 else Times(n - 1, w) + w
  }

  /** After `n` rounds begun at `t0`: `n` copies of the id, the last one a window ago. */
  ghost predicate AfterRounds(s: Sys, id: string, t0: nat, w: nat, n: nat) {
    && s.stream.window == w && s.stream.now == t0 + Times(n, w)
    && (forall i :: 0 <= i < |s.stream.log| && s.stream.log[i].id == id ==> s.stream.log[i].at + w <= s.stream.now)
    && Bus.Copies(s.stream.log, id, t0, s.stream.now) == n
  }

  lemma CopiesUntilLater(log: seq<Bus.Stored>, id: string, lo: nat, hi: int, hi': int)
    requires hi <= hi' && forall i :: 0 <= i < |log| && log[i].id == id ==> log[i].at <= hi
    ensures Bus.Copies(log, id, lo, hi) == Bus.Copies(log, id, lo, hi')
  {
    Bus.CopiesTighten(log, id, lo, hi', hi);
  }

  lemma RoundAdds(s: Sys, s': Sys, email: string, repo: string, tag: string, t0: nat, w: nat, n: nat)
    requires AfterRounds(s, ScannerSpec.Id(repo, tag, email), t0, w, n)
    requires s'.stream.now == s.stream.now + w && s'.stream.window == w
    requires s'.stream.log == s.stream.log + [CopyOf(email, repo, tag, s.stream.now, w)]
    ensures AfterRounds(s', ScannerSpec.Id(repo, tag, email), t0, w, n + 1)
  {
    var id, log, log' := ScannerSpec.Id(repo, tag, email), s.stream.log, s'.stream.log;
    assert log'[..|log|] == log;
    CopiesUntilLater(log, id, t0, s.stream.now, s'.stream.now);
  }

  lemma {:induction false} Session(s: Sys, email: string, repo: string, unsub: string, last: string, tag: string,
                                   tags: set<string>, n: nat)
    returns (at: seq<Sys>, steps: seq<Step>, s': Sys)
    requires Settled(s, email, repo, unsub, Some(last)) && RepoFormat.MatchString(repo)
    requires tag != "" && tag != last && tag in tags
    requires AfterRounds(s, ScannerSpec.Id(repo, tag, email), s.stream.now, s.stream.window, 0)
    ensures Leads(at, steps, tags, s, s') && Settled(s', email, repo, unsub, Some(last))
    ensures AfterRounds(s', ScannerSpec.Id(repo, tag, email), s.stream.now, s.stream.window, n)
  {
    if n == 0 {
      at, steps := Here(s, tags);
      s' := s;
    } else {
      var m, b, tu;
      at, steps, m := Session(s, email, repo, unsub, last, tag, tags, n - 1);
      b, tu, s' := SessionRound(m, email, repo, unsub, last, tag, tags);
      at, steps := Join(at, steps, b, tu, tags, s, m, s');
      RoundAdds(m, s', email, repo, tag, s.stream.now, s.stream.window, n - 1);
    }
  }

  lemma {:induction false} NoCopiesYet(log: seq<Bus.Stored>, repo: string, tag: string, email: string, lo: nat, hi: int)
    requires NoReleases(log)
    ensures Bus.Copies(log, ScannerSpec.Id(repo, tag, email), lo, hi) == 0
    ensures forall i :: 0 <= i < |log| ==> log[i].id != ScannerSpec.Id(repo, tag, email)
  {
    if log != [] {
      var n := |log| - 1;
      NoCopiesYet(log[..n], repo, tag, email, lo, hi);
      Notify.ReleaseIdIsNoConfirmationId(repo, tag, email, log[n].command.token);
      assert forall i :: 0 <= i < n ==> log[..n][i] == log[i];
    }
  }

  lemma {:induction false} TimesIsProduct(n: nat, w: nat)
    ensures Times(n, w) == n * w
  {
    if n > 0 {
      TimesIsProduct(n - 1, w);
    }
  }

  lemma ProductsGrow(a: nat, b: nat, w: nat)
    ensures a <= b ==> a * w <= b * w
  {
    if a <= b {
      assert b * w == a * w + (b - a) * w;
    }
  }

  lemma WholeWindows(n: nat, w: nat)
    requires w > 0
    ensures Times(n, w) / w == n
  {
    TimesIsProduct(n, w);
    var q := n * w / w;
    Bus.QuotientBound(n + 1, w, n * w);
    ProductsGrow(n + 1, q, w);
    assert (n + 1) * w == n * w + w;
  }

  lemma BoundReached(s: Sys, id: string, t0: nat, w: nat, n: nat)
    requires w > 0 && n > 0 && AfterRounds(s, id, t0, w, n)
    ensures var l := Times(n - 1, w); Bus.Copies(s.stream.log, id, t0, t0 + l) == n == l / w + 1
  {
    CopiesUntilLater(s.stream.log, id, t0, t0 + Times(n - 1, w), s.stream.now);
    WholeWindows(n - 1, w);
  }

  /** The bound of `SystemTheorems.RetrySessionBound` is reached: for every window w and every n there
      is a run from the empty database and a session of length (n - 1) * w in which one subscriber's
      release id is stored n = floor(l / w) + 1 times, the cursor being unsaved all along. */
  lemma RetrySessionReachesItsBound(w: nat, email: string, repo: string, unsub: string, confirm: string,
                                    tag: string, next: string, n: nat)
    returns (at: seq<Sys>, steps: seq<Step>, lo: nat, l: nat)
    requires RepoFormat.MatchString(repo) && unsub != confirm && confirm != ""
    requires tag != "" && next != "" && tag != next && w > 0 && n > 0
    ensures Run(w, at, steps) && SystemTheorems.WindowsAtLeast(w, steps, w)
    ensures Bus.Copies(at[|steps|].stream.log, ScannerSpec.Id(repo, next, email), lo, lo + l) == n == l / w + 1
    ensures Lookup(at[|steps|].db.watched, repo) == Some(tag)
  {
    var tags, id := {tag, next}, ScannerSpec.Id(repo, next, email);
    var s, s', b, tu;
    at, steps, s := Recorded(w, email, repo, unsub, confirm, tag, tags);
    lo := s.stream.now;
    NoCopiesYet(s.stream.log, repo, next, email, lo, lo);
    b, tu, s' := Session(s, email, repo, unsub, tag, next, tags, n);
    at, steps := Join(at, steps, b, tu, tags, Init(w), s, s');
    l := Times(n - 1, w);
    BoundReached(s', id, lo, w, n);
  }
}
