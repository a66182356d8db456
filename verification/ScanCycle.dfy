/** One scan cycle: the worker pool running runOnce's handler with its rate-limit flag
    (internal/app/scanner/scanner.go:95-134), every worker at its own point in checkRepo. */
module ScanCycle {
  import opened Common
  import opened History
  import RepoFormat
  import Pool

  /** Where a handler stands. */
  datatype Check =
    | Loading                                   // rateLimitHit.Load()
    | Ready                                     // saw the flag clear, GitHub call not started
    | Calling                                   // github.GetLatestRelease in flight
    | Limited                                   // holds ErrRateLimited, flag not yet raised by it
    | Fetched(tag: string, fetchAt: nat)
    | Compared(tag: string, fetchAt: nat, prev: Option<string>)
    | Sending(tag: string, fetchAt: nat, at: nat, recs: seq<Who>, sent: nat, allSent: bool)
    | Saving(tag: string, fetchAt: nat, round: Option<nat>)
    | Finished

  /** `limited`, `late`, `called` and `flagAt` only record: checks that got ErrRateLimited, calls
      started after the flag was raised, workers that started a call, and how many workers had
      been dispatched when the flag was raised. */
  datatype Cycle = Cycle(
    pool: Pool.State<Check>,
    flag: bool,
    flagAt: nat,
    limited: nat,
    late: nat,
    called: set<nat>)

  function Begin(size: nat, repos: seq<string>): Cycle {
    Cycle(Pool.Start(size, repos), false, 0, 0, 0, {})
  }

  /** The handler's control flow. A panic anywhere inside checkRepo is recovered into a plain
      return, so every point between the flag test and the flag update may jump to `Finished`. */
  predicate MayMove(flag: bool, job: string, h: Check, h': Check) {
    match h
    case Loading => h' == if flag then Finished else Ready
    case Ready => h' == Finished || (h' == Calling && |RepoFormat.SplitN(job)| == 2)
    case Calling => h' == Limited || h'.Fetched? || h' == Finished
    case Limited => h' == Finished
    case Fetched(_, _) => h'.Compared? || h' == Finished
    case Compared(_, _, _) => h'.Sending? || h'.Saving? || h' == Finished
    case Sending(_, _, _, _, _, _) => h'.Sending? || h'.Saving? || h' == Finished
    case Saving(_, _, _) => h' == Finished
    case Finished => false
  }

  predicate At(c: Cycle, i: nat) {
    i < |c.pool.workers| && c.pool.workers[i].phase.Handling?
  }

  predicate CanMove(c: Cycle, i: nat, h': Check) {
    At(c, i) && MayMove(c.flag, c.pool.workers[i].job, c.pool.workers[i].phase.h, h')
  }

  function Move(c: Cycle, i: nat, h': Check): Cycle
    requires CanMove(c, i, h')
  {
    var h := c.pool.workers[i].phase.h;
    var c' := c.(pool := Pool.Apply(c.pool, Pool.Work(i, h'), Loading));
    if h == Ready && h' == Calling then
      c'.(called := c.called + {i}, late := c.late + if c.flag then 1 else 0)
    else if h' == Limited then
      c'.(limited := c.limited + 1)
    else if h == Limited && !c.flag then
      c'.(flag := true, flagAt := |c.pool.workers|)
    else
      c'
  }

  /** A step of the dispatcher or of a goroutine outside its handler. */
  predicate CanSchedule(c: Cycle, st: Pool.Step<Check>) {
    && !st.Work? && Pool.Enabled(c.pool, st)
    && (st.Return? ==> c.pool.workers[st.i].phase.h == Finished)
  }

  function Schedule(c: Cycle, st: Pool.Step<Check>): Cycle
    requires CanSchedule(c, st)
  {
    c.(pool := Pool.Apply(c.pool, st, Loading))
  }

  // ---- the rate-limit bounds ----

  predicate IsReady(w: Pool.Worker<Check>) {
    w.phase.Handling? && w.phase.h.Ready?
  }

  predicate IsPending(w: Pool.Worker<Check>) {
    w.phase.Handling? && (w.phase.h.Ready? || w.phase.h.Calling?)
  }

  predicate IsLimited(w: Pool.Worker<Check>) {
    w.phase.Handling? && w.phase.h.Limited?
  }

  predicate NeverCalls(w: Pool.Worker<Check>) {
    w.phase.Handling? ==> w.phase.h.Loading? || w.phase.h.Finished?
  }

  ghost predicate RateCounts(c: Cycle) {
    if c.flag then
      && c.limited + Count(c.pool.workers, IsPending) <= c.pool.size
      && c.late + Count(c.pool.workers, IsReady) <= c.pool.size - 1
    else
      c.late == 0 && c.limited == Count(c.pool.workers, IsLimited)
  }

  ghost predicate NoLateDispatchCalls(c: Cycle) {
    && (forall i :: i in c.called ==> i < |c.pool.workers|)
    && (c.flag ==>
          && c.flagAt <= |c.pool.workers|
          && (forall i :: i in c.called ==> i < c.flagAt)
          && (forall i :: c.flagAt <= i < |c.pool.workers| ==> NeverCalls(c.pool.workers[i])))
  }

  ghost predicate RateInv(c: Cycle) {
    Pool.Inv(c.pool) && RateCounts(c) && NoLateDispatchCalls(c)
  }

  lemma BeginInv(size: nat, repos: seq<string>)
    requires size >= 1
    ensures RateInv(Begin(size, repos))
  {
  }

  lemma Counts(ws: seq<Pool.Worker<Check>>, i: nat, p: Pool.Phase<Check>)
    requires i < |ws|
    ensures var w, ws' := ws[i].(phase := p), ws[i := ws[i].(phase := p)];
      && Count(ws', IsReady) == Count(ws, IsReady) - (if IsReady(ws[i]) then 1 else 0) + (if IsReady(w) then 1 else 0)
      && Count(ws', IsPending)
           == Count(ws, IsPending) - (if IsPending(ws[i]) then 1 else 0) + (if IsPending(w) then 1 else 0)
      && Count(ws', IsLimited)
           == Count(ws, IsLimited) - (if IsLimited(ws[i]) then 1 else 0) + (if IsLimited(w) then 1 else 0)
  {
    var w := ws[i].(phase := p);
    CountUpdate(ws, i, w, IsReady);
    CountUpdate(ws, i, w, IsPending);
    CountUpdate(ws, i, w, IsLimited);
  }

  lemma ScheduleKeepsCounts(c: Cycle, st: Pool.Step<Check>)
    requires RateCounts(c) && CanSchedule(c, st)
    ensures RateCounts(Schedule(c, st))
  {
    var ws, ws' := c.pool.workers, Schedule(c, st).pool.workers;
    if st.Spawn? {
      var w := Pool.Worker(c.pool.jobs[c.pool.next], Pool.Handling(Loading));
      CountSnoc(ws, w, IsReady);
      CountSnoc(ws, w, IsPending);
      CountSnoc(ws, w, IsLimited);
    } else if st.Return? || st.Release? || st.Finish? {
      Counts(ws, st.i, ws'[st.i].phase);
    }
  }

  lemma ScheduleKeepsInv(c: Cycle, st: Pool.Step<Check>)
    requires RateInv(c) && CanSchedule(c, st)
    ensures RateInv(Schedule(c, st))
  {
    Pool.StepKeepsInv(c.pool, st, Loading);
    ScheduleKeepsCounts(c, st);
  }

  /** Slots bound every class of workers that are inside their handlers. */
  lemma SlotsBound(c: Cycle)
    requires Pool.Inv(c.pool)
    ensures Count(c.pool.workers, IsLimited) + Count(c.pool.workers, IsPending) <= c.pool.size
    ensures Count(c.pool.workers, IsLimited) + Count(c.pool.workers, IsReady) <= c.pool.size
  {
    CountDisjoint<Pool.Worker<Check>>(c.pool.workers, IsLimited, IsPending, Pool.HoldsSlot);
    CountDisjoint<Pool.Worker<Check>>(c.pool.workers, IsLimited, IsReady, Pool.HoldsSlot);
  }

  lemma MoveKeepsCounts(c: Cycle, i: nat, h': Check)
    requires Pool.Inv(c.pool) && RateCounts(c) && CanMove(c, i, h')
    ensures RateCounts(Move(c, i, h'))
  {
    Counts(c.pool.workers, i, Pool.Handling(h'));
    SlotsBound(c);
    if c.pool.workers[i].phase.h == Limited {
      CountNone(c.pool.workers, IsLimited);
    }
  }

  lemma MoveKeepsInv(c: Cycle, i: nat, h': Check)
    requires RateInv(c) && CanMove(c, i, h')
    ensures RateInv(Move(c, i, h'))
  {
    Pool.StepKeepsInv(c.pool, Pool.Work(i, h'), Loading);
    MoveKeepsCounts(c, i, h');
    assert NoLateDispatchCalls(Move(c, i, h'));
  }

  /** In every schedule of a cycle: at most `size` checks are rate-limited, at most `size - 1`
      GitHub calls start after the flag is raised, and none by a job dispatched after it. */
  lemma RateLimitBounds(c: Cycle)
    requires RateInv(c)
    ensures c.limited <= c.pool.size
    ensures c.late <= c.pool.size - 1
    ensures c.flag ==> forall i :: i in c.called ==> i < c.flagAt
  {
    SlotsBound(c);
  }

  // ---- the same, counted over the steps of a cycle ----

  datatype Step = Scheduled(st: Pool.Step<Check>) | Moved(i: nat, h: Check)

  predicate Can(c: Cycle, x: Step) {
    match x
    case Scheduled(st) => CanSchedule(c, st)
    case Moved(i, h) => CanMove(c, i, h)
  }

  function Next(c: Cycle, x: Step): Cycle
    requires Can(c, x)
  {
    match x
    case Scheduled(st) => Schedule(c, st)
    case Moved(i, h) => Move(c, i, h)
  }

  ghost predicate Hop(at: seq<Cycle>, steps: seq<Step>, k: nat) {
    k < |steps| && k + 1 < |at| && Can(at[k], steps[k]) && at[k + 1] == Next(at[k], steps[k])
  }

  /** A cycle from its begin on. */
  ghost predicate Run(size: nat, repos: seq<string>, at: seq<Cycle>, steps: seq<Step>) {
    && |at| == |steps| + 1 && at[0] == Begin(size, repos)
    && forall k: nat {:trigger Hop(at, steps, k)} :: k < |steps| ==> Hop(at, steps, k)
  }

  /** Step `k` starts a GitHub call. */
  predicate StartsCall(at: seq<Cycle>, steps: seq<Step>, k: nat) {
    && k < |steps| && k < |at| && steps[k].Moved? && At(at[k], steps[k].i)
    && at[k].pool.workers[steps[k].i].phase.h.Ready? && steps[k].h.Calling?
  }

  /** Step `k` is GitHub refusing a check for its rate. */
  predicate IsRefused(steps: seq<Step>, k: nat) {
    k < |steps| && steps[k].Moved? && steps[k].h.Limited?
  }

  /** How many of the first `n` steps start a call although the flag is up, and how many are refusals. */
  function LateCalls(at: seq<Cycle>, steps: seq<Step>, n: nat): nat
    requires n < |at|
  {
    if n == 0 then 0
    else LateCalls(at, steps, n - 1) + if StartsCall(at, steps, n - 1) && at[n - 1].flag then 1 else 0
  }

  function Refusals(steps: seq<Step>, n: nat): nat {
    if n == 0 then 0 else Refusals(steps, n - 1) + if IsRefused(steps, n - 1) then 1 else 0
  }

  /** The recorded numbers are these, and a raised flag stays with the number dispatched by then. */
  lemma HopRecords(at: seq<Cycle>, steps: seq<Step>, k: nat)
    requires Hop(at, steps, k) && RateInv(at[k])
    ensures RateInv(at[k + 1]) && at[k + 1].pool.size == at[k].pool.size
    ensures at[k + 1].late == at[k].late + (if StartsCall(at, steps, k) && at[k].flag then 1 else 0)
    ensures at[k + 1].limited == at[k].limited + (if IsRefused(steps, k) then 1 else 0)
    ensures at[k].flag ==> at[k + 1].flag && at[k + 1].flagAt == at[k].flagAt
    ensures StartsCall(at, steps, k) ==> steps[k].i in at[k + 1].called
  {
    if steps[k].Moved? {
      MoveKeepsInv(at[k], steps[k].i, steps[k].h);
    } else {
      ScheduleKeepsInv(at[k], steps[k].st);
    }
  }

  lemma {:induction false} RunRecords(size: nat, repos: seq<string>, at: seq<Cycle>, steps: seq<Step>, n: nat)
    requires size >= 1 && Run(size, repos, at, steps) && n < |at|
    ensures RateInv(at[n]) && at[n].pool.size == size
    ensures at[n].late == LateCalls(at, steps, n) && at[n].limited == Refusals(steps, n)
  {
    if n == 0 {
      BeginInv(size, repos);
    } else {
      RunRecords(size, repos, at, steps, n - 1);
      assert Hop(at, steps, n - 1);
      HopRecords(at, steps, n - 1);
    }
  }

  lemma {:induction false} FlagStays(size: nat, repos: seq<string>, at: seq<Cycle>, steps: seq<Step>, j: nat, n: nat)
    requires size >= 1 && Run(size, repos, at, steps) && j <= n < |at| && at[j].flag
    ensures at[n].flag && at[n].flagAt == at[j].flagAt
  {
    if j < n {
      FlagStays(size, repos, at, steps, j, n - 1);
      RunRecords(size, repos, at, steps, n - 1);
      assert Hop(at, steps, n - 1);
      HopRecords(at, steps, n - 1);
    }
  }

  /** In every run of a cycle: at most `size` checks are refused, at most `size - 1` calls start with the
      flag up, and none of them by a job that was not yet dispatched when the flag was already up. */
  lemma RateLimitOverRuns(size: nat, repos: seq<string>, at: seq<Cycle>, steps: seq<Step>, n: nat, j: nat, k: nat)
    requires size >= 1 && Run(size, repos, at, steps) && n < |at|
    ensures Refusals(steps, n) <= size && LateCalls(at, steps, n) <= size - 1
    ensures j <= k && StartsCall(at, steps, k) && at[j].flag ==> steps[k].i < |at[j].pool.workers|
  {
    RunRecords(size, repos, at, steps, n);
    RateLimitBounds(at[n]);
    if j <= k && StartsCall(at, steps, k) && at[j].flag {
      RunRecords(size, repos, at, steps, j);
      RunRecords(size, repos, at, steps, k);
      assert Hop(at, steps, k);
      HopRecords(at, steps, k);
      FlagStays(size, repos, at, steps, j, k + 1);
    }
  }

  /** A check that was refused raises the flag by its next step, and with the flag up a job that looks at
      it returns at once. */
  lemma RefusalRaisesFlag(size: nat, repos: seq<string>, at: seq<Cycle>, steps: seq<Step>, k: nat)
    requires size >= 1 && Run(size, repos, at, steps) && k < |steps| && steps[k].Moved?
    ensures At(at[k], steps[k].i)
    ensures at[k].pool.workers[steps[k].i].phase.h.Limited? ==> at[k + 1].flag
    ensures at[k].flag && at[k].pool.workers[steps[k].i].phase.h.Loading? ==> steps[k].h.Finished?
  {
    assert Hop(at, steps, k);
  }
}
