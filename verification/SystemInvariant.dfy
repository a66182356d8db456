/** The invariant of the whole application, and that every step keeps it. */
module SystemInvariant {
  import opened Common
  import opened History
  import opened SystemModel
  import RepoFormat
  import Notify
  import Bus
  import Store
  import Pool
  import ScanCycle

  // ---- the database and the log tell the same story ----

  ghost predicate Born(log: seq<Event>, w: Who) {
    exists c :: Created(w, c) in log
  }

  /** Every row was created in the log, not removed since, and is confirmed iff the log says so. */
  ghost predicate RowsLogged(db: Store.Db, log: seq<Event>) {
    forall i :: i in db.subs ==>
      && Born(log, WhoOf(db, i)) && Removed(WhoOf(db, i)) !in log
      && (db.subs[i].confirmed <==> RowConfirmed(WhoOf(db, i)) in log)
  }

  /** Every creation in the log is still a row, or was removed. */
  ghost predicate BirthsStored(db: Store.Db, log: seq<Event>) {
    forall w, c :: Created(w, c) in log ==>
      && w.sub < db.nextSub
      && (Removed(w) in log || (w.sub in db.subs && WhoOf(db, w.sub) == w))
  }

  ghost predicate TokensLogged(db: Store.Db, log: seq<Event>) {
    forall t :: t in db.tokens && db.tokens[t].sub in db.subs ==>
      Created(WhoOf(db, db.tokens[t].sub), db.tokens[t].value) in log
  }

  ghost predicate TokensIssued(issued: set<string>, log: seq<Event>) {
    forall w, c :: Created(w, c) in log ==> c in issued && w.unsub in issued
  }

  ghost predicate CursorsStored(db: Store.Db, log: seq<Event>) {
    forall r :: Cursor(log, r) == Lookup(db.watched, r)
  }

  ghost predicate DbOk(db: Store.Db, issued: set<string>, log: seq<Event>) {
    && Store.Integrity(db)
    && RowsLogged(db, log) && BirthsStored(db, log) && TokensLogged(db, log)
    && TokensIssued(issued, log) && CursorsStored(db, log)
  }

  // ---- calls in flight ----

  ghost predicate CallOk(db: Store.Db, log: seq<Event>, call: Call) {
    match call
    case Checking(_, repo) => RepoFormat.MatchString(repo)
    case Validating(_, repo) => RepoFormat.MatchString(repo)
    case Creating(_, repo) => RepoFormat.MatchString(repo)
    case Mailing(w, c) => Created(w, c) in log
    case LookingUp(_) => true
    case Confirming(t, w, v) =>
      && Created(w, v) in log && Presented(w, v) in log
      && t < db.nextToken && (t in db.tokens ==> db.tokens[t] == Store.Token(v, w.sub))
    case Dropping(t, w, v) =>
      && Created(w, v) in log && RowConfirmed(w) in log
      && t < db.nextToken && (t in db.tokens ==> db.tokens[t] == Store.Token(v, w.sub))
    case Leaving(_) => true
    case Removing(w) => Born(log, w)
  }

  ghost predicate CallsOk(db: Store.Db, log: seq<Event>, calls: map<nat, Call>) {
    forall c :: c in calls ==> CallOk(db, log, calls[c])
  }

  /** Token ids are never handed out again. */
  ghost predicate TokensOnlyGrow(db: Store.Db, db': Store.Db) {
    && db.nextToken <= db'.nextToken
    && forall t :: t in db'.tokens && t < db.nextToken ==> t in db.tokens && db'.tokens[t] == db.tokens[t]
  }

  lemma CallOkLater(db: Store.Db, log: seq<Event>, db': Store.Db, log': seq<Event>, call: Call)
    requires CallOk(db, log, call) && log <= log' && TokensOnlyGrow(db, db')
    ensures CallOk(db', log', call)
  {
    assert forall e :: e in log ==> e in log';
    if call.Removing? {
      var c :| Created(call.who, c) in log;
      assert Created(call.who, c) in log';
    }
  }

  lemma CallsOkLater(db: Store.Db, log: seq<Event>, db': Store.Db, log': seq<Event>, calls: map<nat, Call>)
    requires CallsOk(db, log, calls) && log <= log' && TokensOnlyGrow(db, db')
    ensures CallsOk(db', log', calls)
  {
    forall c | c in calls
      ensures CallOk(db', log', calls[c])
    {
      CallOkLater(db, log, db', log', calls[c]);
    }
  }

  // ---- the scan cycle ----

  ghost predicate HandlerOk(log: seq<Event>, repo: string, h: ScanCycle.Check) {
    match h
    case Fetched(tag, f) => FetchedAt(log, repo, tag, f)
    case Compared(tag, f, prev) => FetchedAt(log, repo, tag, f) && prev == Cursor(log, repo)
    case Sending(tag, f, at, recs, sent, allSent) =>
      && FetchedAt(log, repo, tag, f) && Cursor(log, repo).Some? && Cursor(log, repo) != Some(tag)
      && f < at < |log| && log[at] == Snapshot(repo, tag, f, recs)
      && (forall w :: w in recs ==> w.repo == repo)
      && sent <= |recs| && (allSent ==> AllAccepted(log, recs, sent, tag, at))
    case Saving(tag, f, round) => MaySave(log, repo, tag, f, round)
    case _ => true
  }

  ghost predicate JobsOk(log: seq<Event>, c: ScanCycle.Cycle) {
    && NoDup(c.pool.jobs)
    && forall r :: r in c.pool.jobs ==> RepoFormat.MatchString(r) && HasConfirmation(log, r)
  }

  lemma JobsOkLater(log: seq<Event>, e: Event, c: ScanCycle.Cycle)
    requires JobsOk(log, c)
    ensures JobsOk(log + [e], c)
  {
    forall r | r in c.pool.jobs
      ensures HasConfirmation(log + [e], r)
    {
      var w: Who :| w.repo == r && RowConfirmed(w) in log;
      assert RowConfirmed(w) in log + [e];
    }
  }

  ghost predicate HandlersOk(log: seq<Event>, c: ScanCycle.Cycle) {
    forall i :: 0 <= i < |c.pool.workers| && c.pool.workers[i].phase.Handling? ==>
      HandlerOk(log, c.pool.workers[i].job, c.pool.workers[i].phase.h)
  }

  ghost predicate CycleOk(log: seq<Event>, c: ScanCycle.Cycle) {
    ScanCycle.RateInv(c) && JobsOk(log, c) && HandlersOk(log, c)
  }

  lemma HandlerOkLater(log: seq<Event>, e: Event, repo: string, h: ScanCycle.Check)
    requires HandlerOk(log, repo, h) && !SavesRepo(e, repo)
    ensures HandlerOk(log + [e], repo, h)
  {
    CursorAppend(log, e, repo);
  }

  /** Only a save disturbs other handlers, and only those of the same repo. */
  lemma HandlersOkLater(log: seq<Event>, e: Event, c: ScanCycle.Cycle)
    requires HandlersOk(log, c) && !e.Saved?
    ensures HandlersOk(log + [e], c)
  {
    forall i | 0 <= i < |c.pool.workers| && c.pool.workers[i].phase.Handling?
      ensures HandlerOk(log + [e], c.pool.workers[i].job, c.pool.workers[i].phase.h)
    {
      HandlerOkLater(log, e, c.pool.workers[i].job, c.pool.workers[i].phase.h);
    }
  }

  /** One handler moves; the events it adds leave the others' repos alone. */
  lemma MoveKeepsCycleOk(log: seq<Event>, log': seq<Event>, c: ScanCycle.Cycle, i: nat, h: ScanCycle.Check)
    requires CycleOk(log, c) && ScanCycle.CanMove(c, i, h)
    requires HandlerOk(log', c.pool.workers[i].job, h)
    requires log' == log || (|log'| == |log| + 1 && log'[..|log|] == log
                             && (log'[|log|].Saved? ==> log'[|log|].repo == c.pool.workers[i].job))
    ensures CycleOk(log', ScanCycle.Move(c, i, h))
  {
    ScanCycle.MoveKeepsInv(c, i, h);
    if log' != log {
      JobsOkLater(log, log'[|log|], c);
      assert log' == log + [log'[|log|]];
    }
    var ws, ws' := c.pool.workers, ScanCycle.Move(c, i, h).pool.workers;
    forall j | 0 <= j < |ws'| && ws'[j].phase.Handling?
      ensures HandlerOk(log', ws'[j].job, ws'[j].phase.h)
    {
      if j != i {
        assert ws'[j] == ws[j] && ws[j].job != ws[i].job;
        if log' != log {
          HandlerOkLater(log, log'[|log|], ws[j].job, ws[j].phase.h);
        }
      }
    }
  }

  lemma ScheduleKeepsCycleOk(log: seq<Event>, c: ScanCycle.Cycle, st: Pool.Step<ScanCycle.Check>)
    requires CycleOk(log, c) && ScanCycle.CanSchedule(c, st)
    ensures CycleOk(log, ScanCycle.Schedule(c, st))
  {
    ScanCycle.ScheduleKeepsInv(c, st);
    var ws, ws' := c.pool.workers, ScanCycle.Schedule(c, st).pool.workers;
    assert forall j :: 0 <= j < |ws'| && ws'[j].phase.Handling? ==>
      (j < |ws| && ws'[j] == ws[j]) || ws'[j].phase.h == ScanCycle.Loading;
  }

  // ---- the stream ----

  /** Every stored copy is some command the log shows being published. */
  ghost predicate CommandLogged(log: seq<Event>, cmd: Bus.Command) {
    match cmd
    case ConfirmationCommand(token, recipient) =>
      exists i :: 0 <= i < |log| && log[i].ConfirmationSent? && log[i].o.Applied()
        && log[i].confirm == token && log[i].who.email == recipient
    case ReleaseCommand(repo, tag, recipient) =>
      exists i :: 0 <= i < |log| && log[i].ReleaseSent? && log[i].o.Applied()
        && log[i].who.repo == repo && log[i].tag == tag && log[i].who.email == recipient
  }

  /** And every accepted publish has left a copy. */
  ghost predicate AcceptedStored(log: seq<Event>, s: Bus.Stream) {
    forall i :: 0 <= i < |log| ==>
      && (log[i].ReleaseSent? && log[i].o.Done? ==>
            Bus.HasCopy(s, Notify.ReleaseDedupID(log[i].who.repo, log[i].tag, log[i].who.email)))
      && (log[i].ConfirmationSent? && log[i].o.Done? ==>
            Bus.HasCopy(s, Notify.ConfirmationDedupID(log[i].confirm)))
  }

  ghost predicate StreamOk(log: seq<Event>, s: Bus.Stream) {
    && Bus.Ok(s) && AcceptedStored(log, s)
    && forall i :: 0 <= i < |s.log| ==> CommandLogged(log, s.log[i].command)
  }

  lemma CommandLoggedLater(log: seq<Event>, e: Event, cmd: Bus.Command)
    requires CommandLogged(log, cmd)
    ensures CommandLogged(log + [e], cmd)
  {
    var i :| 0 <= i < |log| && (log[i].ConfirmationSent? || log[i].ReleaseSent?) && log[i].o.Applied()
      && (match cmd
          case ConfirmationCommand(token, recipient) =>
            log[i].ConfirmationSent? && log[i].confirm == token && log[i].who.email == recipient
          case ReleaseCommand(repo, tag, recipient) =>
            log[i].ReleaseSent? && log[i].who.repo == repo && log[i].tag == tag && log[i].who.email == recipient);
    assert (log + [e])[i] == log[i];
  }

  /** An event that publishes nothing leaves the stream's account right. */
  lemma StreamOkLater(log: seq<Event>, e: Event, s: Bus.Stream)
    requires StreamOk(log, s) && !e.ReleaseSent? && !e.ConfirmationSent?
    ensures StreamOk(log + [e], s)
  {
    forall i | 0 <= i < |s.log|
      ensures CommandLogged(log + [e], s.log[i].command)
    {
      CommandLoggedLater(log, e, s.log[i].command);
    }
  }

  lemma PublishKeepsStreamOk(log: seq<Event>, e: Event, s: Bus.Stream, cmd: Bus.Command, o: Outcome)
    requires StreamOk(log, s)
    requires match e
             case ReleaseSent(w, tag, _, oo) => oo == o && cmd == Bus.ReleaseCommand(w.repo, tag, w.email)
             case ConfirmationSent(w, c, oo) => oo == o && cmd == Bus.ConfirmationCommand(c, w.email)
             case _ => false
    ensures StreamOk(log + [e], Bus.Publish(s, Bus.DedupID(cmd), cmd, o))
  {
    var s' := Bus.Publish(s, Bus.DedupID(cmd), cmd, o);
    Bus.PublishKeepsOk(s, cmd, o);
    forall i | 0 <= i < |s'.log|
      ensures CommandLogged(log + [e], s'.log[i].command)
    {
      if i < |s.log| {
        CommandLoggedLater(log, e, s.log[i].command);
      } else {
        assert (log + [e])[|log|] == e;
      }
    }
    HasCopyLater(s, s');
  }

  lemma HasCopyLater(s: Bus.Stream, s': Bus.Stream)
    requires s.log <= s'.log
    ensures forall id :: Bus.HasCopy(s, id) ==> Bus.HasCopy(s', id)
  {
    forall id | Bus.HasCopy(s, id)
      ensures Bus.HasCopy(s', id)
    {
      var i :| 0 <= i < |s.log| && s.log[i].id == id;
      assert s'.log[i].id == id;
    }
  }

  // ---- all together ----

  ghost predicate Inv(s: Sys) {
    && DbOk(s.db, s.issued, s.log)
    && LogOk(s.log)
    && CallsOk(s.db, s.log, s.calls)
    && (s.cycle.Some? ==> CycleOk(s.log, s.cycle.value))
    && StreamOk(s.log, s.stream)
  }

  /** Two creations of one id are one creation. */
  lemma SameSub(log: seq<Event>, w1: Who, c1: string, w2: Who, c2: string)
    requires LogOk(log) && Created(w1, c1) in log && Created(w2, c2) in log && w1.sub == w2.sub
    ensures w1 == w2 && c1 == c2
  {
    var i :| 0 <= i < |log| && log[i] == Created(w1, c1);
    var j :| 0 <= j < |log| && log[j] == Created(w2, c2);
    if i < j {
      BornOnce(log, i, j);
    } else if j < i {
      BornOnce(log, j, i);
    }
  }

  /** A row under an id that was created for `w` is `w`'s row. */
  lemma RowIsWho(s: Sys, w: Who)
    requires Inv(s) && Born(s.log, w) && w.sub in s.db.subs
    ensures WhoOf(s.db, w.sub) == w
  {
    var c :| Created(w, c) in s.log;
    assert Born(s.log, WhoOf(s.db, w.sub));
    var c' :| Created(WhoOf(s.db, w.sub), c') in s.log;
    SameSub(s.log, w, c, WhoOf(s.db, w.sub), c');
  }

  lemma ConfirmedWasBorn(log: seq<Event>, w: Who)
    requires LogOk(log) && RowConfirmed(w) in log
    ensures Born(log, w)
  {
    var i :| 0 <= i < |log| && log[i] == RowConfirmed(w);
    assert EventOk(log[..i], log[i]);
    var c :| Presented(w, c) in log[..i];
    var j :| 0 <= j < i && log[j] == Presented(w, c);
    assert EventOk(log[..j], log[j]);
    assert Created(w, c) in log[..j];
  }

  predicate AboutRows(e: Event) {
    e.Created? || e.RowConfirmed? || e.Removed?
  }

  lemma CursorsLater(db: Store.Db, log: seq<Event>, e: Event)
    requires CursorsStored(db, log) && !e.Saved?
    ensures CursorsStored(db, log + [e])
  {
    forall r
      ensures Cursor(log + [e], r) == Lookup(db.watched, r)
    {
      CursorAppend(log, e, r);
    }
  }

  lemma RowsLater(db: Store.Db, log: seq<Event>, e: Event)
    requires RowsLogged(db, log) && !AboutRows(e)
    ensures RowsLogged(db, log + [e])
  {
    BornLater(log, e);
  }

  /** An event about neither rows nor cursors leaves the database's account right. */
  lemma DbOkLater(db: Store.Db, issued: set<string>, log: seq<Event>, e: Event)
    requires DbOk(db, issued, log) && !AboutRows(e) && !e.Saved?
    ensures DbOk(db, issued, log + [e])
  {
    CursorsLater(db, log, e);
    RowsLater(db, log, e);
  }

  lemma BornLater(log: seq<Event>, e: Event)
    ensures forall w :: Born(log, w) ==> Born(log + [e], w)
  {
    forall w | Born(log, w)
      ensures Born(log + [e], w)
    {
      var c :| Created(w, c) in log;
      assert Created(w, c) in log + [e];
    }
  }

  // ---- steps of the service ----

  lemma RemovedWasBorn(log: seq<Event>, w: Who)
    requires LogOk(log) && Removed(w) in log
    ensures Born(log, w)
  {
    var i :| 0 <= i < |log| && log[i] == Removed(w);
    assert EventOk(log[..i], log[i]);
    var c :| Created(w, c) in log[..i];
    assert Created(w, c) in log;
  }

  lemma NewIdUnseen(db: Store.Db, log: seq<Event>, w: Who)
    requires LogOk(log) && BirthsStored(db, log) && w.sub >= db.nextSub
    ensures Removed(w) !in log && RowConfirmed(w) !in log
  {
    assert !Born(log, w);
    if Removed(w) in log {
      RemovedWasBorn(log, w);
    }
    if RowConfirmed(w) in log {
      ConfirmedWasBorn(log, w);
    }
  }

  lemma CreateIsAdmissible(s: Sys, w: Who, confirm: string)
    requires BirthsStored(s.db, s.log) && TokensIssued(s.issued, s.log)
    requires w.sub == s.db.nextSub && !Store.PairTaken(s.db, w.email, w.repo) && RepoFormat.MatchString(w.repo)
    requires w.unsub !in s.issued && confirm !in s.issued
    ensures EventOk(s.log, Created(w, confirm))
  {
    forall i | 0 <= i < |s.log| && s.log[i].Created?
      ensures s.log[i].who.sub != w.sub && s.log[i].who.unsub != w.unsub && s.log[i].confirm != confirm
      ensures s.log[i].who.email == w.email && s.log[i].who.repo == w.repo ==> Removed(s.log[i].who) in s.log
    {
      assert Created(s.log[i].who, s.log[i].confirm) in s.log;
    }
  }

  lemma CreateKeepsRowsLogged(db: Store.Db, log: seq<Event>, w: Who, confirm: string)
    requires RowsLogged(db, log) && LogOk(log) && BirthsStored(db, log) && w.sub == db.nextSub
    requires Store.CanCreate(db, w.email, w.repo, w.unsub, confirm)
    ensures RowsLogged(Store.Create(db, w.email, w.repo, w.unsub, confirm), log + [Created(w, confirm)])
  {
    var db' := Store.Create(db, w.email, w.repo, w.unsub, confirm);
    var log' := log + [Created(w, confirm)];
    NewIdUnseen(db, log, w);
    BornLater(log, Created(w, confirm));
    assert Created(w, confirm) in log';
    forall i | i in db'.subs
      ensures Born(log', WhoOf(db', i)) && Removed(WhoOf(db', i)) !in log'
      ensures db'.subs[i].confirmed <==> RowConfirmed(WhoOf(db', i)) in log'
    {
      if i == db.nextSub {
        assert WhoOf(db', i) == w;
      } else {
        assert WhoOf(db', i) == WhoOf(db, i);
      }
    }
  }

  lemma CreateKeepsTables(db: Store.Db, log: seq<Event>, w: Who, confirm: string)
    requires BirthsStored(db, log) && TokensLogged(db, log) && Store.RowsOk(db) && Store.TokensLive(db)
    requires Store.CanCreate(db, w.email, w.repo, w.unsub, confirm) && w.sub == db.nextSub
    ensures var db' := Store.Create(db, w.email, w.repo, w.unsub, confirm);
            var log' := log + [Created(w, confirm)];
            BirthsStored(db', log') && TokensLogged(db', log')
  {
    var db' := Store.Create(db, w.email, w.repo, w.unsub, confirm);
    assert WhoOf(db', w.sub) == w;
    assert forall i :: i in db.subs ==> i in db'.subs && WhoOf(db', i) == WhoOf(db, i);
  }

  lemma CreateKeepsDbOk(s: Sys, w: Who, confirm: string)
    requires Inv(s) && RepoFormat.MatchString(w.repo) && w.sub == s.db.nextSub
    requires Store.CanCreate(s.db, w.email, w.repo, w.unsub, confirm)
    requires w.unsub !in s.issued && confirm !in s.issued
    ensures EventOk(s.log, Created(w, confirm))
    ensures DbOk(Store.Create(s.db, w.email, w.repo, w.unsub, confirm),
                 s.issued + {w.unsub, confirm}, s.log + [Created(w, confirm)])
  {
    var db' := Store.Create(s.db, w.email, w.repo, w.unsub, confirm);
    Store.CreateKeepsIntegrity(s.db, w.email, w.repo, w.unsub, confirm);
    CreateIsAdmissible(s, w, confirm);
    CreateKeepsRowsLogged(s.db, s.log, w, confirm);
    CreateKeepsTables(s.db, s.log, w, confirm);
    CursorsLater(s.db, s.log, Created(w, confirm));
    assert CursorsStored(db', s.log + [Created(w, confirm)]);
  }

  /** Confirming the row that was created for `w`, if it is still there. */
  lemma ConfirmKeepsTables(db: Store.Db, log: seq<Event>, w: Who)
    requires RowsLogged(db, log) && BirthsStored(db, log) && TokensLogged(db, log)
    requires w.sub in db.subs ==> WhoOf(db, w.sub) == w
    ensures var db' := Store.Confirm(db, w.sub);
            var log' := log + [RowConfirmed(w)];
            RowsLogged(db', log') && BirthsStored(db', log') && TokensLogged(db', log')
  {
    var db' := Store.Confirm(db, w.sub);
    BornLater(log, RowConfirmed(w));
    assert forall i :: i in db'.subs ==> i in db.subs && WhoOf(db', i) == WhoOf(db, i);
  }

  lemma ConfirmKeepsDbOk(s: Sys, w: Who, v: string)
    requires Inv(s) && Created(w, v) in s.log && Presented(w, v) in s.log
    ensures EventOk(s.log, RowConfirmed(w))
    ensures DbOk(Store.Confirm(s.db, w.sub), s.issued, s.log + [RowConfirmed(w)])
  {
    Store.ConfirmKeepsIntegrity(s.db, w.sub);
    assert Born(s.log, w);
    if w.sub in s.db.subs {
      RowIsWho(s, w);
    }
    ConfirmKeepsTables(s.db, s.log, w);
    CursorsLater(s.db, s.log, RowConfirmed(w));
  }

  lemma DeleteKeepsTables(db: Store.Db, log: seq<Event>, w: Who)
    requires RowsLogged(db, log) && BirthsStored(db, log) && TokensLogged(db, log)
    requires w.sub in db.subs ==> WhoOf(db, w.sub) == w
    ensures var db' := Store.Delete(db, w.sub);
            var log' := log + [Removed(w)];
            RowsLogged(db', log') && BirthsStored(db', log') && TokensLogged(db', log')
  {
    var db' := Store.Delete(db, w.sub);
    BornLater(log, Removed(w));
    assert forall i :: i in db'.subs ==> i in db.subs && WhoOf(db', i) == WhoOf(db, i) && WhoOf(db, i) != w;
  }

  lemma DeleteKeepsDbOk(s: Sys, w: Who)
    requires Inv(s) && Born(s.log, w)
    ensures EventOk(s.log, Removed(w))
    ensures DbOk(Store.Delete(s.db, w.sub), s.issued, s.log + [Removed(w)])
  {
    Store.DeleteKeepsIntegrity(s.db, w.sub);
    if w.sub in s.db.subs {
      RowIsWho(s, w);
    }
    DeleteKeepsTables(s.db, s.log, w);
    CursorsLater(s.db, s.log, Removed(w));
  }

  /** When a call gets to delete its token, that token's subscription is confirmed. */
  lemma DropTokenKeepsDbOk(s: Sys, t: nat, w: Who, v: string)
    requires Inv(s) && CallOk(s.db, s.log, Dropping(t, w, v))
    ensures DbOk(Store.DropToken(s.db, t), s.issued, s.log)
  {
    if t in s.db.tokens {
      assert Born(s.log, w);
      RowIsWho(s, w);
    }
    Store.DropTokenKeepsIntegrityIff(s.db, t);
    var db' := Store.DropToken(s.db, t);
    assert forall i :: i in db'.subs ==> WhoOf(db', i) == WhoOf(s.db, i);
  }

  lemma PutCallKeepsInv(s: Sys, c: nat, call: Call)
    requires Inv(s) && CallOk(s.db, s.log, call)
    ensures Inv(SetCall(s, c, call))
  {
  }

  lemma EndCallKeepsInv(s: Sys, c: nat)
    requires Inv(s)
    ensures Inv(EndCall(s, c))
  {
  }

  lemma CallStepKeepsInv(s: Sys, st: Step)
    requires Inv(s) && Enabled(s, st)
    requires st.Abandon? || st.BeginSubscribe? || st.CheckExisting? || st.ValidateRepo?
             || st.BeginConfirm? || st.BeginUnsubscribe? || st.FindUnsub?
    ensures Inv(Apply(s, st))
  {
    if st.CheckExisting? || st.ValidateRepo? {
      assert CallOk(s.db, s.log, s.calls[st.c]);
    }
    match st {
      case Abandon(c) => EndCallKeepsInv(s, c);
      case BeginSubscribe(c, email, repo) => PutCallKeepsInv(s, c, Checking(email, repo));
      case CheckExisting(c) => PutCallKeepsInv(s, c, Validating(s.calls[c].email, s.calls[c].repo));
      case ValidateRepo(c) => PutCallKeepsInv(s, c, Creating(s.calls[c].email, s.calls[c].repo));
      case BeginConfirm(c, value) => PutCallKeepsInv(s, c, LookingUp(value));
      case BeginUnsubscribe(c, value) => PutCallKeepsInv(s, c, Leaving(value));
      case FindUnsub(c, id) => PutCallKeepsInv(s, c, Removing(WhoOf(s.db, id)));
    }
  }

  lemma CreatedKeepsInv(s: Sys, w: Who, confirm: string)
    requires Inv(s) && RepoFormat.MatchString(w.repo) && w.sub == s.db.nextSub
    requires Store.CanCreate(s.db, w.email, w.repo, w.unsub, confirm)
    requires w.unsub !in s.issued && confirm !in s.issued
    ensures Inv(Log(s, Created(w, confirm)).(db := Store.Create(s.db, w.email, w.repo, w.unsub, confirm),
                                             issued := s.issued + {w.unsub, confirm}))
  {
    CreateKeepsDbOk(s, w, confirm);
    AppendOk(s.log, Created(w, confirm));
    CreatedKeepsRest(s, w, confirm);
  }

  lemma CreatedKeepsRest(s: Sys, w: Who, confirm: string)
    requires Inv(s) && w.sub == s.db.nextSub && Store.CanCreate(s.db, w.email, w.repo, w.unsub, confirm)
    ensures var log' := s.log + [Created(w, confirm)];
      && CallsOk(Store.Create(s.db, w.email, w.repo, w.unsub, confirm), log', s.calls)
      && (s.cycle.Some? ==> CycleOk(log', s.cycle.value))
      && StreamOk(log', s.stream)
  {
    var e := Created(w, confirm);
    LaterKeepsRest(s, Log(s, e), e);
    CallsOkLater(s.db, s.log, Store.Create(s.db, w.email, w.repo, w.unsub, confirm), s.log + [e], s.calls);
  }

  /** Only the sequences and the pool of drawn tokens have moved. */
  lemma RefusedCreateKeepsDbOk(db: Store.Db, issued: set<string>, log: seq<Event>, db': Store.Db, issued': set<string>)
    requires DbOk(db, issued, log)
    requires issued <= issued' && db.nextSub <= db'.nextSub && db.nextToken <= db'.nextToken
    requires db'.subs == db.subs && db'.tokens == db.tokens && db'.watched == db.watched
    ensures DbOk(db', issued', log)
  {
    Store.SequencesKeepIntegrity(db, db');
    assert forall i :: i in db'.subs ==> WhoOf(db', i) == WhoOf(db, i);
  }

  lemma RefusedCreateKeepsInv(s: Sys, db': Store.Db, issued': set<string>)
    requires Inv(s) && s.issued <= issued' && s.db.nextSub <= db'.nextSub && s.db.nextToken <= db'.nextToken
    requires db'.subs == s.db.subs && db'.tokens == s.db.tokens && db'.watched == s.db.watched
    ensures Inv(s.(db := db', issued := issued'))
  {
    RefusedCreateKeepsDbOk(s.db, s.issued, s.log, db', issued');
    CallsOkLater(s.db, s.log, db', s.log, s.calls);
  }

  lemma CreateRowsKeepsInv(s: Sys, c: nat, unsub: string, confirm: string, o: Outcome)
    requires Inv(s) && c in s.calls && s.calls[c].Creating? && unsub !in s.issued && confirm !in s.issued
    ensures Inv(DoCreate(s, c, unsub, confirm, o))
  {
    var email, repo := s.calls[c].email, s.calls[c].repo;
    assert CallOk(s.db, s.log, s.calls[c]);
    var issued := s.issued + {unsub, confirm};
    if !o.Applied() {
      RefusedCreateKeepsInv(s, s.db, issued);
      EndCallKeepsInv(s.(issued := issued), c);
    } else if !Store.CanCreate(s.db, email, repo, unsub, confirm) {
      var db' := Store.Create(s.db, email, repo, unsub, confirm);
      RefusedCreateKeepsInv(s, db', issued);
      EndCallKeepsInv(s.(db := db', issued := issued), c);
    } else {
      var w := Who(s.db.nextSub, email, repo, unsub);
      var s1 := Log(s, Created(w, confirm)).(db := Store.Create(s.db, email, repo, unsub, confirm), issued := issued);
      CreatedKeepsInv(s, w, confirm);
      assert Created(w, confirm) in s1.log;
      EndCallKeepsInv(s1, c);
      PutCallKeepsInv(EndCall(s1, c), c, Mailing(w, confirm));
    }
  }

  /** An event that is no save and no publish disturbs neither the cycle nor the stream. */
  lemma LaterKeepsRest(s: Sys, s': Sys, e: Event)
    requires Inv(s) && s'.cycle == s.cycle && s'.stream == s.stream && s'.log == s.log + [e]
    requires !e.Saved? && !e.ReleaseSent? && !e.ConfirmationSent?
    ensures s'.cycle.Some? ==> CycleOk(s'.log, s'.cycle.value)
    ensures StreamOk(s'.log, s'.stream)
  {
    if s.cycle.Some? {
      HandlersOkLater(s.log, e, s.cycle.value);
      JobsOkLater(s.log, e, s.cycle.value);
    }
    StreamOkLater(s.log, e, s.stream);
  }

  lemma MailKeepsInv(s: Sys, c: nat, o: Outcome)
    requires Inv(s) && c in s.calls && s.calls[c].Mailing?
    ensures Inv(DoMail(s, c, o))
  {
    var w, confirm := s.calls[c].who, s.calls[c].confirm;
    var e := ConfirmationSent(w, confirm, o);
    var s' := DoMail(s, c, o);
    assert CallOk(s.db, s.log, s.calls[c]);
    AppendOk(s.log, e);
    DbOkLater(s.db, s.issued, s.log, e);
    CallsOkLater(s.db, s.log, s.db, s'.log, s.calls);
    PublishKeepsStreamOk(s.log, e, s.stream, Bus.ConfirmationCommand(confirm, w.email), o);
    if s.cycle.Some? {
      HandlersOkLater(s.log, e, s.cycle.value);
      JobsOkLater(s.log, e, s.cycle.value);
    }
  }

  lemma PresentKeepsInv(s: Sys, w: Who, v: string)
    requires Inv(s) && Created(w, v) in s.log
    ensures Inv(Log(s, Presented(w, v)))
  {
    var e := Presented(w, v);
    AppendOk(s.log, e);
    DbOkLater(s.db, s.issued, s.log, e);
    CallsOkLater(s.db, s.log, s.db, s.log + [e], s.calls);
    LaterKeepsRest(s, Log(s, e), e);
  }

  lemma FindTokenKeepsInv(s: Sys, c: nat, t: nat)
    requires Inv(s) && Enabled(s, FindToken(c, t))
    ensures Inv(Apply(s, FindToken(c, t)))
  {
    var v := s.calls[c].value;
    var w := WhoOf(s.db, s.db.tokens[t].sub);
    assert Created(w, v) in s.log;
    var s1 := Log(s, Presented(w, v));
    PresentKeepsInv(s, w, v);
    assert Created(w, v) in s1.log && Presented(w, v) in s1.log;
    PutCallKeepsInv(s1, c, Confirming(t, w, v));
  }

  lemma ConfirmAppliedKeepsInv(s: Sys, c: nat)
    requires Inv(s) && c in s.calls && s.calls[c].Confirming?
    ensures Inv(DoConfirm(s, c, DoneUnreported))
    ensures var w := s.calls[c].who;
            CallOk(Store.Confirm(s.db, w.sub), s.log + [RowConfirmed(w)], s.calls[c])
  {
    var w := s.calls[c].who;
    var e := RowConfirmed(w);
    var s' := DoConfirm(s, c, DoneUnreported);
    assert CallOk(s.db, s.log, s.calls[c]);
    ConfirmKeepsDbOk(s, w, s.calls[c].value);
    AppendOk(s.log, e);
    CallsOkLater(s.db, s.log, s'.db, s'.log, s.calls);
    LaterKeepsRest(s, s', e);
  }

  lemma ConfirmRowKeepsInv(s: Sys, c: nat, o: Outcome)
    requires Inv(s) && c in s.calls && s.calls[c].Confirming?
    ensures Inv(DoConfirm(s, c, o))
  {
    if o.Applied() {
      var call := s.calls[c];
      var s1 := DoConfirm(s, c, DoneUnreported);
      ConfirmAppliedKeepsInv(s, c);
      if o.Done? {
        var call' := Dropping(call.token, call.who, call.value);
        assert RowConfirmed(call.who) in s1.log;
        assert CallOk(s1.db, s1.log, call');
        PutCallKeepsInv(s1, c, call');
        assert DoConfirm(s, c, o).calls == SetCall(s1, c, call').calls;
      }
    } else {
      EndCallKeepsInv(s, c);
    }
  }

  lemma DropTokenRowKeepsInv(s: Sys, c: nat, o: Outcome)
    requires Inv(s) && c in s.calls && s.calls[c].Dropping?
    ensures Inv(DoDropToken(s, c, o))
  {
    var call := s.calls[c];
    assert CallOk(s.db, s.log, call);
    if o.Applied() {
      DropTokenKeepsDbOk(s, call.token, call.who, call.value);
      CallsOkLater(s.db, s.log, Store.DropToken(s.db, call.token), s.log, s.calls);
    }
  }

  lemma DeleteRowKeepsInv(s: Sys, c: nat, o: Outcome)
    requires Inv(s) && c in s.calls && s.calls[c].Removing?
    ensures Inv(DoDelete(s, c, o))
  {
    var w := s.calls[c].who;
    var s' := DoDelete(s, c, o);
    assert CallOk(s.db, s.log, s.calls[c]);
    if o.Applied() {
      DeleteKeepsDbOk(s, w);
      AppendOk(s.log, Removed(w));
      CallsOkLater(s.db, s.log, s'.db, s'.log, s.calls);
      LaterKeepsRest(s, s', Removed(w));
    }
  }

  // ---- steps of the scanner ----

  lemma BeginCycleKeepsInv(s: Sys, size: nat, repos: seq<string>)
    requires Inv(s) && Enabled(s, BeginCycle(size, repos))
    ensures Inv(Apply(s, BeginCycle(size, repos)))
  {
    ScanCycle.BeginInv(size, repos);
    forall r | r in repos
      ensures HasConfirmation(s.log, r)
    {
      var i :| i in s.db.subs && s.db.subs[i].confirmed && s.db.subs[i].repo == r;
      assert RowConfirmed(WhoOf(s.db, i)) in s.log;
    }
  }

  lemma ScheduleKeepsInv(s: Sys, st: Pool.Step<ScanCycle.Check>)
    requires Inv(s) && Enabled(s, Schedule(st))
    ensures Inv(Apply(s, Schedule(st)))
  {
    ScheduleKeepsCycleOk(s.log, s.cycle.value, st);
  }

  /** A handler moves without any shared effect. */
  lemma QuietMoveKeepsInv(s: Sys, i: nat, h: ScanCycle.Check)
    requires Inv(s) && InHandler(s, i) && ScanCycle.CanMove(s.cycle.value, i, h)
    requires HandlerOk(s.log, Job(s, i), h)
    ensures Inv(MoveTo(s, i, h))
  {
    MoveKeepsCycleOk(s.log, s.log, s.cycle.value, i, h);
  }

  /** A handler moves and logs an event that is no publish and no save. */
  lemma LoggedMoveKeepsInv(s: Sys, i: nat, h: ScanCycle.Check, e: Event)
    requires Inv(s) && InHandler(s, i) && ScanCycle.CanMove(s.cycle.value, i, h)
    requires EventOk(s.log, e) && (e.Fetched? || e.Snapshot?)
    requires HandlerOk(s.log + [e], Job(s, i), h)
    ensures Inv(Log(MoveTo(s, i, h), e))
  {
    AppendOk(s.log, e);
    DbOkLater(s.db, s.issued, s.log, e);
    CallsOkLater(s.db, s.log, s.db, s.log + [e], s.calls);
    StreamOkLater(s.log, e, s.stream);
    MoveKeepsCycleOk(s.log, s.log + [e], s.cycle.value, i, h);
  }

  lemma HandlerIsOk(s: Sys, i: nat)
    requires Inv(s) && InHandler(s, i)
    ensures HandlerOk(s.log, Job(s, i), Handler(s, i))
  {
  }

  lemma SnapshotIsExact(s: Sys, repo: string, ids: seq<nat>, recs: seq<Who>)
    requires Inv(s) && Store.IsConfirmedList(s.db, repo, ids)
    requires |recs| == |ids| && forall k :: 0 <= k < |ids| ==> ids[k] in s.db.subs && recs[k] == WhoOf(s.db, ids[k])
    ensures ExactRecipients(s.log, repo, recs)
    ensures forall w :: w in recs ==> w.repo == repo
  {
    forall k | 0 <= k < |ids|
      ensures recs[k].repo == repo && RowConfirmed(recs[k]) in s.log && Removed(recs[k]) !in s.log
    {
      assert ids[k] in ids;
    }
    forall w: Who | w.repo == repo && RowConfirmed(w) in s.log && Removed(w) !in s.log
      ensures w in recs
    {
      ConfirmedWasBorn(s.log, w);
      var c :| Created(w, c) in s.log;
      assert w.sub in s.db.subs && WhoOf(s.db, w.sub) == w;
      assert w.sub in ids;
      var k :| 0 <= k < |ids| && ids[k] == w.sub;
      assert recs[k] == w;
    }
  }

  lemma TakeSnapshotKeepsInv(s: Sys, i: nat, ids: seq<nat>)
    requires Inv(s) && Enabled(s, TakeSnapshot(i, ids))
    ensures Inv(Apply(s, TakeSnapshot(i, ids)))
  {
    var h, repo := Handler(s, i), Job(s, i);
    forall k | 0 <= k < |ids|
      ensures ids[k] in s.db.subs
    {
      assert ids[k] in ids;
    }
    var recs := seq(|ids|, k requires 0 <= k < |ids| => WhoOf(s.db, ids[k]));
    HandlerIsOk(s, i);
    SnapshotIsExact(s, repo, ids, recs);
    SnapshotIsAdmissible(s.log, repo, h, recs);
    var h' := ScanCycle.Sending(h.tag, h.fetchAt, |s.log|, recs, 0, true);
    LoggedMoveKeepsInv(s, i, h', Snapshot(repo, h.tag, h.fetchAt, recs));
  }

  /** The snapshot of a check with news is admissible, and its round starts right. */
  lemma SnapshotIsAdmissible(log: seq<Event>, repo: string, h: ScanCycle.Check, recs: seq<Who>)
    requires h.Compared? && HandlerOk(log, repo, h) && IsNewRelease(h.prev, h.tag)
    requires ExactRecipients(log, repo, recs) && forall w :: w in recs ==> w.repo == repo
    ensures var e := Snapshot(repo, h.tag, h.fetchAt, recs);
      && EventOk(log, e)
      && HandlerOk(log + [e], repo, ScanCycle.Sending(h.tag, h.fetchAt, |log|, recs, 0, true))
  {
    CursorAppend(log, Snapshot(repo, h.tag, h.fetchAt, recs), repo);
  }

  lemma FetchTagKeepsInv(s: Sys, i: nat, tag: string)
    requires Inv(s) && Enabled(s, FetchTag(i, tag))
    ensures Inv(Apply(s, FetchTag(i, tag)))
  {
    var e := Fetched(Job(s, i), tag);
    assert Job(s, i) in s.cycle.value.pool.jobs;
    assert HandlerOk(s.log + [e], Job(s, i), ScanCycle.Fetched(tag, |s.log|));
    LoggedMoveKeepsInv(s, i, ScanCycle.Fetched(tag, |s.log|), e);
  }

  /** The next publish of a round is admissible, and the round's account stays right after it. */
  lemma SendIsAdmissible(log: seq<Event>, repo: string, h: ScanCycle.Check, o: Outcome)
    requires h.Sending? && HandlerOk(log, repo, h) && h.sent < |h.recs|
    ensures var e := ReleaseSent(h.recs[h.sent], h.tag, h.at, o);
      && EventOk(log, e) && h.recs[h.sent].repo == repo
      && HandlerOk(log + [e], repo, h.(sent := h.sent + 1, allSent := h.allSent && o.Done?))
  {
    var e := ReleaseSent(h.recs[h.sent], h.tag, h.at, o);
    assert h.recs[h.sent] in h.recs;
    HandlerOkLater(log, e, repo, h);
    assert e in log + [e];
  }

  /** A handler moves on a release publish. */
  lemma PublishMoveKeepsInv(s: Sys, i: nat, h: ScanCycle.Check, e: Event, cmd: Bus.Command)
    requires Inv(s) && InHandler(s, i) && ScanCycle.CanMove(s.cycle.value, i, h)
    requires e.ReleaseSent? && cmd == Bus.ReleaseCommand(e.who.repo, e.tag, e.who.email)
    requires EventOk(s.log, e) && HandlerOk(s.log + [e], Job(s, i), h)
    ensures Inv(Log(MoveTo(s, i, h), e).(stream := Bus.Publish(s.stream, Bus.DedupID(cmd), cmd, e.o)))
  {
    AppendOk(s.log, e);
    DbOkLater(s.db, s.issued, s.log, e);
    CallsOkLater(s.db, s.log, s.db, s.log + [e], s.calls);
    PublishKeepsStreamOk(s.log, e, s.stream, cmd, e.o);
    MoveKeepsCycleOk(s.log, s.log + [e], s.cycle.value, i, h);
  }

  lemma SendIsMove(s: Sys, i: nat, o: Outcome)
    requires InHandler(s, i) && Handler(s, i).Sending? && Handler(s, i).sent < |Handler(s, i).recs|
    ensures var h := Handler(s, i);
            var w := h.recs[h.sent];
            var h' := h.(sent := h.sent + 1, allSent := h.allSent && o.Done?);
            var cmd := Bus.ReleaseCommand(w.repo, h.tag, w.email);
      && ScanCycle.CanMove(s.cycle.value, i, h')
      && DoSend(s, i, o) == Log(MoveTo(s, i, h'), ReleaseSent(w, h.tag, h.at, o))
                              .(stream := Bus.Publish(s.stream, Bus.DedupID(cmd), cmd, o))
  {
  }

  lemma SendKeepsInv(s: Sys, i: nat, o: Outcome)
    requires Inv(s) && InHandler(s, i) && Handler(s, i).Sending? && Handler(s, i).sent < |Handler(s, i).recs|
    ensures Inv(DoSend(s, i, o))
  {
    var h := Handler(s, i);
    HandlerIsOk(s, i);
    SendIsAdmissible(s.log, Job(s, i), h, o);
    SendIsMove(s, i, o);
    var w := h.recs[h.sent];
    PublishMoveKeepsInv(s, i, h.(sent := h.sent + 1, allSent := h.allSent && o.Done?),
                        ReleaseSent(w, h.tag, h.at, o), Bus.ReleaseCommand(w.repo, h.tag, w.email));
  }

  lemma SaveKeepsRows(db: Store.Db, log: seq<Event>, e: Event)
    requires RowsLogged(db, log) && BirthsStored(db, log) && TokensLogged(db, log) && e.Saved?
    ensures var db' := Store.SaveTag(db, e.repo, e.tag);
            RowsLogged(db', log + [e]) && BirthsStored(db', log + [e]) && TokensLogged(db', log + [e])
  {
    var db' := Store.SaveTag(db, e.repo, e.tag);
    RowsLater(db, log, e);
    assert forall j :: j in db'.subs ==> WhoOf(db', j) == WhoOf(db, j);
  }

  lemma SaveKeepsDbOk(db: Store.Db, issued: set<string>, log: seq<Event>, e: Event)
    requires DbOk(db, issued, log) && e.Saved?
    ensures DbOk(Store.SaveTag(db, e.repo, e.tag), issued, log + [e])
  {
    var db' := Store.SaveTag(db, e.repo, e.tag);
    forall r
      ensures Cursor(log + [e], r) == Lookup(db'.watched, r)
    {
      CursorAppend(log, e, r);
    }
    SaveKeepsRows(db, log, e);
    Store.SaveTagKeepsIntegrity(db, e.repo, e.tag);
  }

  lemma SaveKeepsInv(s: Sys, i: nat, o: Outcome)
    requires Inv(s) && InHandler(s, i) && Handler(s, i).Saving?
    ensures Inv(DoSave(s, i, o))
  {
    var h, repo := Handler(s, i), Job(s, i);
    HandlerIsOk(s, i);
    if o.Applied() {
      var e := Saved(repo, Lookup(s.db.watched, repo), h.tag, h.fetchAt, h.round);
      assert EventOk(s.log, e);
      AppendOk(s.log, e);
      SaveKeepsDbOk(s.db, s.issued, s.log, e);
      CallsOkLater(s.db, s.log, Store.SaveTag(s.db, repo, h.tag), s.log + [e], s.calls);
      StreamOkLater(s.log, e, s.stream);
      MoveKeepsCycleOk(s.log, s.log + [e], s.cycle.value, i, ScanCycle.Finished);
    } else {
      MoveKeepsCycleOk(s.log, s.log, s.cycle.value, i, ScanCycle.Finished);
    }
  }

  lemma ReadCursorKeepsInv(s: Sys, i: nat)
    requires Inv(s) && InHandler(s, i) && Handler(s, i).Fetched?
    ensures var h := Handler(s, i);
            Inv(MoveTo(s, i, ScanCycle.Compared(h.tag, h.fetchAt, Lookup(s.db.watched, Job(s, i)))))
  {
    var h := Handler(s, i);
    HandlerIsOk(s, i);
    QuietMoveKeepsInv(s, i, ScanCycle.Compared(h.tag, h.fetchAt, Lookup(s.db.watched, Job(s, i))));
  }

  lemma DecideQuietKeepsInv(s: Sys, i: nat)
    requires Inv(s) && InHandler(s, i) && Handler(s, i).Compared?
    requires !IsNewRelease(Handler(s, i).prev, Handler(s, i).tag)
    ensures Inv(MoveTo(s, i, ScanCycle.Saving(Handler(s, i).tag, Handler(s, i).fetchAt, None)))
  {
    HandlerIsOk(s, i);
    QuietMoveKeepsInv(s, i, ScanCycle.Saving(Handler(s, i).tag, Handler(s, i).fetchAt, None));
  }

  lemma DecideLoudKeepsInv(s: Sys, i: nat)
    requires Inv(s) && InHandler(s, i) && Handler(s, i).Sending?
    requires Handler(s, i).sent == |Handler(s, i).recs| && Handler(s, i).allSent
    ensures Inv(MoveTo(s, i, ScanCycle.Saving(Handler(s, i).tag, Handler(s, i).fetchAt, Some(Handler(s, i).at))))
  {
    HandlerIsOk(s, i);
    QuietMoveKeepsInv(s, i, ScanCycle.Saving(Handler(s, i).tag, Handler(s, i).fetchAt, Some(Handler(s, i).at)));
  }

  predicate IsDecision(st: Step) {
    st.Local? || st.ReadCursor? || st.DecideQuiet? || st.DecideLoud?
  }

  lemma DecisionKeepsInv(s: Sys, st: Step)
    requires Inv(s) && Enabled(s, st) && IsDecision(st)
    ensures Inv(Apply(s, st))
  {
    match st {
      case Local(i, h) => QuietMoveKeepsInv(s, i, h);
      case ReadCursor(i) => ReadCursorKeepsInv(s, i);
      case DecideQuiet(i) => DecideQuietKeepsInv(s, i);
      case DecideLoud(i) => DecideLoudKeepsInv(s, i);
    }
  }

  predicate IsEnvironment(st: Step) {
    st.Tick? || st.SetWindow? || st.Crash? || st.EndCycle?
  }

  lemma EnvironmentKeepsInv(s: Sys, st: Step)
    requires Inv(s) && Enabled(s, st) && IsEnvironment(st)
    ensures Inv(Apply(s, st))
  {
  }

  predicate IsService(st: Step) {
    st.CreateRows? || st.MailConfirmation? || st.FindToken? || st.ConfirmRow? || st.DropTokenRow? || st.DeleteRow?
  }

  lemma ServiceKeepsInv(s: Sys, st: Step)
    requires Inv(s) && Enabled(s, st) && IsService(st)
    ensures Inv(Apply(s, st))
  {
    match st {
      case CreateRows(c, unsub, confirm, o) => CreateRowsKeepsInv(s, c, unsub, confirm, o);
      case MailConfirmation(c, o) => MailKeepsInv(s, c, o);
      case FindToken(c, t) => FindTokenKeepsInv(s, c, t);
      case ConfirmRow(c, o) => ConfirmRowKeepsInv(s, c, o);
      case DropTokenRow(c, o) => DropTokenRowKeepsInv(s, c, o);
      case DeleteRow(c, o) => DeleteRowKeepsInv(s, c, o);
    }
  }

  predicate IsScan(st: Step) {
    st.BeginCycle? || st.Schedule? || st.FetchTag? || st.TakeSnapshot? || st.Send? || st.Save?
  }

  lemma ScanKeepsInv(s: Sys, st: Step)
    requires Inv(s) && Enabled(s, st) && IsScan(st)
    ensures Inv(Apply(s, st))
  {
    match st {
      case BeginCycle(size, repos) => BeginCycleKeepsInv(s, size, repos);
      case Schedule(ps) => ScheduleKeepsInv(s, ps);
      case FetchTag(i, tag) => FetchTagKeepsInv(s, i, tag);
      case TakeSnapshot(i, ids) => TakeSnapshotKeepsInv(s, i, ids);
      case Send(i, o) => SendKeepsInv(s, i, o);
      case Save(i, o) => SaveKeepsInv(s, i, o);
    }
  }

  lemma StepKeepsInv(s: Sys, st: Step)
    requires Inv(s) && Enabled(s, st)
    ensures Inv(Apply(s, st))
  {
    if IsEnvironment(st) {
      EnvironmentKeepsInv(s, st);
    } else if IsService(st) {
      ServiceKeepsInv(s, st);
    } else if IsScan(st) {
      ScanKeepsInv(s, st);
    } else if IsDecision(st) {
      DecisionKeepsInv(s, st);
    } else {
      CallStepKeepsInv(s, st);
    }
  }

  lemma InitHasInv(window: nat)
    ensures Inv(Init(window))
  {
  }

  lemma HopKeepsInv(at: seq<Sys>, steps: seq<Step>, k: nat)
    requires Path(at, steps) && k < |steps| && Inv(at[k])
    ensures Inv(at[k + 1])
  {
    assert Hop(at, steps, k);
    StepKeepsInv(at[k], steps[k]);
  }

  lemma {:induction false} PathKeepsInv(at: seq<Sys>, steps: seq<Step>, k: nat)
    requires Path(at, steps) && Inv(at[0]) && k < |at|
    ensures Inv(at[k])
  {
    if k > 0 {
      PathKeepsInv(at, steps, k - 1);
      HopKeepsInv(at, steps, k - 1);
    }
  }

  lemma RunKeepsInv(window: nat, at: seq<Sys>, steps: seq<Step>, k: nat)
    requires Run(window, at, steps) && k < |at|
    ensures Inv(at[k])
  {
    InitHasInv(window);
    PathKeepsInv(at, steps, k);
  }
}
