/** The whole application as one state machine: service calls, one scanner, the database and the
    stream, interleaved one statement, publish or goroutine step at a time, with failed and
    ambiguous writes, panics, cancellation and crashes in between. */
module SystemModel {
  import opened Common
  import opened History
  import RepoFormat
  import Bus
  import Store
  import Pool
  import ScanCycle

  /** What a service call in flight does next. */
  datatype Call =
    | Checking(email: string, repo: string)        // Subscribe: look for an existing row
    | Validating(email: string, repo: string)      // Subscribe: ask GitHub
    | Creating(email: string, repo: string)        // Subscribe: draw tokens, insert both rows
    | Mailing(who: Who, confirm: string)           // Subscribe: publish the confirmation
    | LookingUp(value: string)                     // Confirm: find the token
    | Confirming(token: nat, who: Who, value: string)
    | Dropping(token: nat, who: Who, value: string)
    | Leaving(unsub: string)                       // Unsubscribe: find the row
    | Removing(who: Who)

  /** `issued` and `log` only record; nothing in the program reads them. */
  datatype Sys = Sys(
    db: Store.Db,
    stream: Bus.Stream,
    calls: map<nat, Call>,
    cycle: Option<ScanCycle.Cycle>,
    issued: set<string>,
    log: seq<Event>)

  function Init(window: nat): Sys {
    Sys(Store.EMPTY, Bus.Stream(0, window, []), map[], None, {}, [])
  }

  datatype Step =
    | Tick(dt: nat)
    | SetWindow(window: nat)                       // an application boot
    | Crash                                        // the process dies: calls and cycle are gone
    | Abandon(c: nat)                              // a call fails or is cancelled before its next write
    | BeginSubscribe(c: nat, email: string, repo: string)
    | CheckExisting(c: nat)
    | ValidateRepo(c: nat)
    | CreateRows(c: nat, unsub: string, confirm: string, o: Outcome)
    | MailConfirmation(c: nat, o: Outcome)
    | BeginConfirm(c: nat, value: string)
    | FindToken(c: nat, t: nat)
    | ConfirmRow(c: nat, o: Outcome)
    | DropTokenRow(c: nat, o: Outcome)
    | BeginUnsubscribe(c: nat, value: string)
    | FindUnsub(c: nat, id: nat)
    | DeleteRow(c: nat, o: Outcome)
    | BeginCycle(size: nat, repos: seq<string>)
    | EndCycle
    | Schedule(st: Pool.Step<ScanCycle.Check>)
    | Local(i: nat, h: ScanCycle.Check)            // a handler move that touches nothing shared
    | FetchTag(i: nat, tag: string)
    | ReadCursor(i: nat)
    | DecideQuiet(i: nat)
    | TakeSnapshot(i: nat, ids: seq<nat>)
    | Send(i: nat, o: Outcome)
    | DecideLoud(i: nat)
    | Save(i: nat, o: Outcome)

  function WhoOf(db: Store.Db, id: nat): Who
    requires id in db.subs
  {
    Who(id, db.subs[id].email, db.subs[id].repo, db.subs[id].unsub)
  }

  predicate InHandler(s: Sys, i: nat) {
    s.cycle.Some? && ScanCycle.At(s.cycle.value, i)
  }

  function Job(s: Sys, i: nat): string
    requires InHandler(s, i)
  {
    s.cycle.value.pool.workers[i].job
  }

  function Handler(s: Sys, i: nat): ScanCycle.Check
    requires InHandler(s, i)
  {
    s.cycle.value.pool.workers[i].phase.h
  }

  /** No tag is empty, and only the moves listed here are made without a shared effect. */
  predicate IsLocal(h: ScanCycle.Check, h': ScanCycle.Check) {
    !h'.Fetched? && !h'.Compared? && !h'.Sending? && !h'.Saving?
  }

  ghost predicate Enabled(s: Sys, st: Step) {
    match st
    case Tick(_) => true
    case SetWindow(_) => true
    case Crash => true
    case Abandon(c) => c in s.calls
    case BeginSubscribe(c, email, repo) => c !in s.calls && RepoFormat.MatchString(repo)
    case CheckExisting(c) =>
      c in s.calls && s.calls[c].Checking? && !Store.PairTaken(s.db, s.calls[c].email, s.calls[c].repo)
    case ValidateRepo(c) => c in s.calls && s.calls[c].Validating?
    case CreateRows(c, unsub, confirm, _) =>
      c in s.calls && s.calls[c].Creating? && unsub != confirm && unsub !in s.issued && confirm !in s.issued
    case MailConfirmation(c, _) => c in s.calls && s.calls[c].Mailing?
    case BeginConfirm(c, value) => c !in s.calls && value != ""
    case FindToken(c, t) =>
      && c in s.calls && s.calls[c].LookingUp? && t in s.db.tokens && s.db.tokens[t].value == s.calls[c].value
      && s.db.tokens[t].sub in s.db.subs
    case ConfirmRow(c, _) => c in s.calls && s.calls[c].Confirming?
    case DropTokenRow(c, _) => c in s.calls && s.calls[c].Dropping?
    case BeginUnsubscribe(c, value) => c !in s.calls && value != ""
    case FindUnsub(c, id) =>
      c in s.calls && s.calls[c].Leaving? && id in s.db.subs && s.db.subs[id].unsub == s.calls[c].unsub
    case DeleteRow(c, _) => c in s.calls && s.calls[c].Removing?
    case BeginCycle(size, repos) => s.cycle.None? && size >= 1 && Store.IsRepoList(s.db, repos)
    case EndCycle => s.cycle.Some? && s.cycle.value.pool.at.Returned?
    case Schedule(ps) => s.cycle.Some? && ScanCycle.CanSchedule(s.cycle.value, ps)
    case Local(i, h) => InHandler(s, i) && ScanCycle.CanMove(s.cycle.value, i, h) && IsLocal(Handler(s, i), h)
    case FetchTag(i, tag) => InHandler(s, i) && Handler(s, i).Calling? && tag != ""
    case ReadCursor(i) => InHandler(s, i) && Handler(s, i).Fetched?
    case DecideQuiet(i) =>
      && InHandler(s, i) && Handler(s, i).Compared?
      && !IsNewRelease(Handler(s, i).prev, Handler(s, i).tag)
    case TakeSnapshot(i, ids) =>
      && InHandler(s, i) && Handler(s, i).Compared?
      && IsNewRelease(Handler(s, i).prev, Handler(s, i).tag)
      && Store.IsConfirmedList(s.db, Job(s, i), ids)
    case Send(i, _) => InHandler(s, i) && Handler(s, i).Sending? && Handler(s, i).sent < |Handler(s, i).recs|
    case DecideLoud(i) =>
      && InHandler(s, i) && Handler(s, i).Sending?
      && Handler(s, i).sent == |Handler(s, i).recs| && Handler(s, i).allSent
    case Save(i, _) => InHandler(s, i) && Handler(s, i).Saving?
  }

  /** watched != nil && watched.IsNewRelease(tag) */
  predicate IsNewRelease(prev: Option<string>, tag: string) {
    prev.Some? && tag != "" && tag != prev.value
  }

  function SetCall(s: Sys, c: nat, call: Call): Sys {
    s.(calls := s.calls[c := call])
  }

  function EndCall(s: Sys, c: nat): Sys {
    s.(calls := s.calls - {c})
  }

  function Log(s: Sys, e: Event): Sys {
    s.(log := s.log + [e])
  }

  function MoveTo(s: Sys, i: nat, h: ScanCycle.Check): Sys
    requires InHandler(s, i) && ScanCycle.CanMove(s.cycle.value, i, h)
  {
    s.(cycle := Some(ScanCycle.Move(s.cycle.value, i, h)))
  }

  function DoCreate(s: Sys, c: nat, unsub: string, confirm: string, o: Outcome): Sys
    requires c in s.calls && s.calls[c].Creating?
  {
    var call := s.calls[c];
    var s1 := EndCall(s, c).(issued := s.issued + {unsub, confirm});
    if !o.Applied() then s1
    else
      var s2 := s1.(db := Store.Create(s.db, call.email, call.repo, unsub, confirm));
      if !Store.CanCreate(s.db, call.email, call.repo, unsub, confirm) then s2
      else
        var who := Who(s.db.nextSub, call.email, call.repo, unsub);
        var s3 := Log(s2, Created(who, confirm));
        if o.Done? then SetCall(s3, c, Mailing(who, confirm)) else s3
  }

  function DoConfirm(s: Sys, c: nat, o: Outcome): Sys
    requires c in s.calls && s.calls[c].Confirming?
  {
    var call := s.calls[c];
    var s1 := if o.Applied() then Log(s, RowConfirmed(call.who)).(db := Store.Confirm(s.db, call.who.sub)) else s;
    if o.Done? then SetCall(s1, c, Dropping(call.token, call.who, call.value)) else EndCall(s1, c)
  }

  function DoDropToken(s: Sys, c: nat, o: Outcome): Sys
    requires c in s.calls && s.calls[c].Dropping?
  {
    EndCall(if o.Applied() then s.(db := Store.DropToken(s.db, s.calls[c].token)) else s, c)
  }

  function DoDelete(s: Sys, c: nat, o: Outcome): Sys
    requires c in s.calls && s.calls[c].Removing?
  {
    var who := s.calls[c].who;
    EndCall(if o.Applied() then Log(s, Removed(who)).(db := Store.Delete(s.db, who.sub)) else s, c)
  }

  function DoMail(s: Sys, c: nat, o: Outcome): Sys
    requires c in s.calls && s.calls[c].Mailing?
  {
    var who, confirm := s.calls[c].who, s.calls[c].confirm;
    var cmd := Bus.ConfirmationCommand(confirm, who.email);
    EndCall(Log(s, ConfirmationSent(who, confirm, o)).(stream := Bus.Publish(s.stream, Bus.DedupID(cmd), cmd, o)), c)
  }

  function DoSnapshot(s: Sys, i: nat, ids: seq<nat>): Sys
    requires InHandler(s, i) && Handler(s, i).Compared? && forall k :: 0 <= k < |ids| ==> ids[k] in s.db.subs
  {
    var h := Handler(s, i);
    var recs := seq(|ids|, k requires 0 <= k < |ids| => WhoOf(s.db, ids[k]));
    Log(MoveTo(s, i, ScanCycle.Sending(h.tag, h.fetchAt, |s.log|, recs, 0, true)), 
        Snapshot(Job(s, i), h.tag, h.fetchAt, recs))
  }

  function DoSend(s: Sys, i: nat, o: Outcome): Sys
    requires InHandler(s, i) && Handler(s, i).Sending? && Handler(s, i).sent < |Handler(s, i).recs|
  {
    var h := Handler(s, i);
    var who := h.recs[h.sent];
    var cmd := Bus.ReleaseCommand(who.repo, h.tag, who.email);
    Log(MoveTo(s, i, h.(sent := h.sent + 1, allSent := h.allSent && o.Done?)), ReleaseSent(who, h.tag, h.at, o))
      .(stream := Bus.Publish(s.stream, Bus.DedupID(cmd), cmd, o))
  }

  function DoSave(s: Sys, i: nat, o: Outcome): Sys
    requires InHandler(s, i) && Handler(s, i).Saving?
  {
    var h, repo := Handler(s, i), Job(s, i);
    var s1 := MoveTo(s, i, ScanCycle.Finished);
    if o.Applied() then
      Log(s1, Saved(repo, Lookup(s.db.watched, repo), h.tag, h.fetchAt, h.round))
        .(db := Store.SaveTag(s.db, repo, h.tag))
    else s1
  }

  function Apply(s: Sys, st: Step): Sys
    requires Enabled(s, st)
  {
    match st
    case Tick(dt) => s.(stream := s.stream.(now := s.stream.now + dt))
    case SetWindow(w) => s.(stream := s.stream.(window := w))
    case Crash => s.(calls := map[], cycle := None)
    case Abandon(c) => EndCall(s, c)
    case BeginSubscribe(c, email, repo) => SetCall(s, c, Checking(email, repo))
    case CheckExisting(c) => SetCall(s, c, Validating(s.calls[c].email, s.calls[c].repo))
    case ValidateRepo(c) => SetCall(s, c, Creating(s.calls[c].email, s.calls[c].repo))
    case CreateRows(c, unsub, confirm, o) => DoCreate(s, c, unsub, confirm, o)
    case MailConfirmation(c, o) => DoMail(s, c, o)
    case BeginConfirm(c, value) => SetCall(s, c, LookingUp(value))
    case FindToken(c, t) =>
      var who := WhoOf(s.db, s.db.tokens[t].sub);
      SetCall(Log(s, Presented(who, s.calls[c].value)), c, Confirming(t, who, s.calls[c].value))
    case ConfirmRow(c, o) => DoConfirm(s, c, o)
    case DropTokenRow(c, o) => DoDropToken(s, c, o)
    case BeginUnsubscribe(c, value) => SetCall(s, c, Leaving(value))
    case FindUnsub(c, id) => SetCall(s, c, Removing(WhoOf(s.db, id)))
    case DeleteRow(c, o) => DoDelete(s, c, o)
    case BeginCycle(size, repos) => s.(cycle := Some(ScanCycle.Begin(size, repos)))
    case EndCycle => s.(cycle := None)
    case Schedule(ps) => s.(cycle := Some(ScanCycle.Schedule(s.cycle.value, ps)))
    case Local(i, h) => MoveTo(s, i, h)
    case FetchTag(i, tag) => Log(MoveTo(s, i, ScanCycle.Fetched(tag, |s.log|)), Fetched(Job(s, i), tag))
    case ReadCursor(i) =>
      var h := Handler(s, i);
      MoveTo(s, i, ScanCycle.Compared(h.tag, h.fetchAt, Lookup(s.db.watched, Job(s, i))))
    case DecideQuiet(i) => MoveTo(s, i, ScanCycle.Saving(Handler(s, i).tag, Handler(s, i).fetchAt, None))
    case TakeSnapshot(i, ids) => DoSnapshot(s, i, ids)
    case Send(i, o) => DoSend(s, i, o)
    case DecideLoud(i) =>
      MoveTo(s, i, ScanCycle.Saving(Handler(s, i).tag, Handler(s, i).fetchAt, Some(Handler(s, i).at)))
    case Save(i, o) => DoSave(s, i, o)
  }

  ghost predicate Next(s: Sys, st: Step, s': Sys) {
    Enabled(s, st) && s' == Apply(s, st)
  }

  ghost predicate Hop(at: seq<Sys>, steps: seq<Step>, k: nat) {
    k < |steps| && k + 1 < |at| && Next(at[k], steps[k], at[k + 1])
  }

  /** The steps lead through the states `at`, one by one. */
  ghost predicate Path(at: seq<Sys>, steps: seq<Step>) {
    |at| == |steps| + 1 && forall k: nat {:trigger Hop(at, steps, k)} :: k < |steps| ==> Hop(at, steps, k)
  }

  /** A run of the application: a path from the empty database. */
  ghost predicate Run(window: nat, at: seq<Sys>, steps: seq<Step>) {
    Path(at, steps) && at[0] == Init(window)
  }
}
