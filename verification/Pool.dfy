/** internal/app/scanner/workerpool.go: WorkerPool.Run as a dispatcher and its goroutines, one
    program counter each, stepped in any order. `H` is the state of a running handler. */
module Pool {
  import opened Common

  function NewWorkerPool(size: int): (r: nat)
    ensures r >= 1 && (size >= 1 ==> r == size)
  {
    if size < 1 then 1 else size
  }

  datatype Dispatcher =
    | Top        // next loop iteration: any job left, ctx.Err()
    | Select     // sem <- struct{}{} or <-ctx.Done()
    | Adding     // wg.Add(1)
    | Spawning   // go func(job)
    | Waiting    // wg.Wait()
    | Returned

  datatype Phase<H> =
    | Handling(h: H)   // handler(ctx, job)
    | Releasing        // deferred <-sem
    | Finishing        // deferred wg.Done()
    | Exited

  datatype Worker<H> = Worker(job: string, phase: Phase<H>)

  datatype State<H> = State(
    size: nat,
    jobs: seq<string>,
    next: nat,
    slots: nat,
    wg: nat,
    cancelled: bool,
    at: Dispatcher,
    workers: seq<Worker<H>>)

  function Start<H>(size: nat, jobs: seq<string>): State<H> {
    State(size, jobs, 0, 0, 0, false, if jobs == [] then Returned else Top, [])
  }

  datatype Step<H> =
    | CheckNext
    | Acquire
    | SelectDone
    | Add
    | Spawn
    | Wait
    | Cancel
    | Work(i: nat, h: H)   // the handler of worker i does something of its own
    | Return(i: nat)       // the handler of worker i returns
    | Release(i: nat)
    | Finish(i: nat)

  predicate Enabled<H>(s: State<H>, st: Step<H>) {
    match st
    case CheckNext => s.at == Top
    case Acquire => s.at == Select && s.slots < s.size
    case SelectDone => s.at == Select && s.cancelled
    case Add => s.at == Adding
    case Spawn => s.at == Spawning && s.next < |s.jobs|
    case Wait => s.at == Waiting && s.wg == 0
    case Cancel => !s.cancelled
    case Work(i, _) => i < |s.workers| && s.workers[i].phase.Handling?
    case Return(i) => i < |s.workers| && s.workers[i].phase.Handling?
    case Release(i) => i < |s.workers| && s.workers[i].phase.Releasing? && s.slots > 0
    case Finish(i) => i < |s.workers| && s.workers[i].phase.Finishing? && s.wg > 0
  }

  function SetPhase<H>(s: State<H>, i: nat, p: Phase<H>): State<H>
    requires i < |s.workers|
  {
    s.(workers := s.workers[i := s.workers[i].(phase := p)])
  }

  /** `first` is the state in which a handler starts. */
  function Apply<H>(s: State<H>, st: Step<H>, first: H): State<H>
    requires Enabled(s, st)
  {
    match st
    case CheckNext => s.(at := if s.next == |s.jobs| || s.cancelled then Waiting else Select)
    case Acquire => s.(slots := s.slots + 1, at := Adding)
    case SelectDone => s.(at := Waiting)
    case Add => s.(wg := s.wg + 1, at := Spawning)
    case Spawn => s.(workers := s.workers + [Worker(s.jobs[s.next], Handling(first))], next := s.next + 1, at := Top)
    case Wait => s.(at := Returned)
    case Cancel => s.(cancelled := true)
    case Work(i, h) => SetPhase(s, i, Handling(h))
    case Return(i) => SetPhase(s, i, Releasing)
    case Release(i) => SetPhase(s.(slots := s.slots - 1), i, Finishing)
    case Finish(i) => SetPhase(s.(wg := s.wg - 1), i, Exited)
  }

  // ---- safety ----

  predicate HoldsSlot<H>(w: Worker<H>) {
    w.phase.Handling? || w.phase.Releasing?
  }

  predicate Unfinished<H>(w: Worker<H>) {
    !w.phase.Exited?
  }

  predicate InHandler<H>(w: Worker<H>) {
    w.phase.Handling?
  }

  ghost predicate Inv<H>(s: State<H>) {
    && s.size >= 1
    && s.next == |s.workers| <= |s.jobs|
    && (forall i :: 0 <= i < |s.workers| ==> s.workers[i].job == s.jobs[i])
    && s.slots == Count(s.workers, HoldsSlot) + (if s.at.Adding? || s.at.Spawning? then 1 else 0)
    && s.wg == Count(s.workers, Unfinished) + (if s.at.Spawning? then 1 else 0)
    && s.slots <= s.size
    && (s.at.Select? || s.at.Adding? || s.at.Spawning? ==> s.next < |s.jobs|)
    && (s.at.Waiting? || s.at.Returned? ==> s.next == |s.jobs| || s.cancelled)
    && (s.at.Returned? ==> s.wg == 0)
  }

  lemma SetPhaseCounts<H>(s: State<H>, i: nat, p: Phase<H>)
    requires i < |s.workers|
    ensures var w := s.workers[i];
            var ws := SetPhase(s, i, p).workers;
      && Count(ws, HoldsSlot) == Count(s.workers, HoldsSlot)
           - (if HoldsSlot(w) then 1 else 0) + (if HoldsSlot(w.(phase := p)) then 1 else 0)
      && Count(ws, Unfinished) == Count(s.workers, Unfinished)
           - (if Unfinished(w) then 1 else 0) + (if Unfinished(w.(phase := p)) then 1 else 0)
  {
    var w := s.workers[i].(phase := p);
    CountUpdate(s.workers, i, w, HoldsSlot);
    CountUpdate(s.workers, i, w, Unfinished);
  }

  lemma StepKeepsInv<H>(s: State<H>, st: Step<H>, first: H)
    requires Inv(s) && Enabled(s, st)
    ensures Inv(Apply(s, st, first))
  {
    if st.Spawn? {
      var w := Worker(s.jobs[s.next], Handling(first));
      CountSnoc(s.workers, w, HoldsSlot);
      CountSnoc(s.workers, w, Unfinished);
    } else if st.Work? || st.Return? || st.Release? || st.Finish? {
      GoroutineKeepsInv(s, st, first);
    }
  }

  lemma GoroutineKeepsInv<H>(s: State<H>, st: Step<H>, first: H)
    requires Inv(s) && Enabled(s, st) && (st.Work? || st.Return? || st.Release? || st.Finish?)
    ensures Inv(Apply(s, st, first))
  {
    SetPhaseCounts(s, st.i, Apply(s, st, first).workers[st.i].phase);
  }

  ghost predicate Legal<H>(size: nat, jobs: seq<string>, steps: seq<Step<H>>, first: H)
    decreases |steps|, 0
  {
    steps == []
    || (var n := |steps| - 1;
        Legal(size, jobs, steps[..n], first) && Enabled(Exec(size, jobs, steps[..n], first), steps[n]))
  }

  ghost function Exec<H>(size: nat, jobs: seq<string>, steps: seq<Step<H>>, first: H): State<H>
    requires Legal(size, jobs, steps, first)
    decreases |steps|, 1
  {
    if steps == [] then Start(size, jobs)
    else Apply(Exec(size, jobs, steps[..|steps| - 1], first), steps[|steps| - 1], first)
  }

  lemma {:induction false} RunKeepsInv<H>(size: nat, jobs: seq<string>, steps: seq<Step<H>>, first: H)
    requires size >= 1 && Legal(size, jobs, steps, first)
    ensures Inv(Exec(size, jobs, steps, first))
    ensures Exec(size, jobs, steps, first).size == size && Exec(size, jobs, steps, first).jobs == jobs
  {
    if steps != [] {
      var n := |steps| - 1;
      RunKeepsInv(size, jobs, steps[..n], first);
      StepKeepsInv(Exec(size, jobs, steps[..n], first), steps[n], first);
    }
  }

  /** Bounded concurrency, in-order start of a prefix, and a join before returning. */
  lemma PoolSafety<H>(size: nat, jobs: seq<string>, steps: seq<Step<H>>, first: H)
    requires size >= 1 && Legal(size, jobs, steps, first)
    ensures var s := Exec(size, jobs, steps, first);
      && Count(s.workers, InHandler) <= s.slots <= size
      && |s.workers| <= |jobs|
      && (forall i :: 0 <= i < |s.workers| ==> s.workers[i].job == jobs[i])
      && (s.at.Returned? ==> forall i :: 0 <= i < |s.workers| ==> s.workers[i].phase.Exited?)
      && (s.at.Returned? && !s.cancelled ==> |s.workers| == |jobs|)
  {
    RunKeepsInv(size, jobs, steps, first);
    var s := Exec(size, jobs, steps, first);
    CountDisjoint<Worker<H>>(s.workers, InHandler, Never, HoldsSlot);
    CountNone<Worker<H>>(s.workers, Unfinished);
  }

  // ---- cancellation ----

  /** Jobs started, and the one the dispatcher is committed to starting. */
  function Committed<H>(s: State<H>): nat {
    |s.workers| + if s.at.Select? || s.at.Adding? || s.at.Spawning? then 1 else 0
  }

  /** Once cancelled, no step commits the dispatcher to another job, and cancelled it stays. */
  lemma CancelledCommitsNoMore<H>(s: State<H>, st: Step<H>, first: H)
    requires Enabled(s, st) && s.cancelled
    ensures Apply(s, st, first).cancelled && Committed(Apply(s, st, first)) <= Committed(s)
  {
  }

  lemma {:induction false} CancelledRunCommitsNoMore<H>(size: nat, jobs: seq<string>, before: seq<Step<H>>,
                                                        more: seq<Step<H>>, first: H)
    requires Legal(size, jobs, before, first) && Legal(size, jobs, before + more, first)
    requires Exec(size, jobs, before, first).cancelled
    ensures Exec(size, jobs, before + more, first).cancelled
    ensures Committed(Exec(size, jobs, before + more, first)) <= Committed(Exec(size, jobs, before, first))
  {
    var all := before + more;
    if more == [] {
      assert all == before;
    } else {
      var n := |more| - 1;
      assert all[..|all| - 1] == before + more[..n];
      CancelledRunCommitsNoMore(size, jobs, before, more[..n], first);
      CancelledCommitsNoMore(Exec(size, jobs, before + more[..n], first), more[n], first);
    }
  }

  /** In every run at most one job starts after the cancel, and none if the dispatcher was not past its
      check of the context when the cancel came. */
  lemma AtMostOneStartsAfterCancel<H>(size: nat, jobs: seq<string>, before: seq<Step<H>>, more: seq<Step<H>>, first: H)
    requires Legal(size, jobs, before, first) && Legal(size, jobs, before + [Cancel] + more, first)
    ensures var s, s' := Exec(size, jobs, before, first), Exec(size, jobs, before + [Cancel] + more, first);
      && |s'.workers| <= |s.workers| + 1
      && (s.at.Top? || s.at.Waiting? || s.at.Returned? ==> |s'.workers| <= |s.workers|)
  {
    LegalPrefix(size, jobs, before + [Cancel], more, first);
    assert (before + [Cancel])[..|before|] == before;
    CancelledRunCommitsNoMore(size, jobs, before + [Cancel], more, first);
  }

  lemma {:induction false} LegalPrefix<H>(size: nat, jobs: seq<string>, before: seq<Step<H>>, more: seq<Step<H>>,
                                          first: H)
    requires Legal(size, jobs, before + more, first)
    ensures Legal(size, jobs, before, first)
  {
    var all := before + more;
    if more == [] {
      assert all == before;
    } else {
      assert all[..|all| - 1] == before + more[..|more| - 1];
      LegalPrefix(size, jobs, before, more[..|more| - 1], first);
    }
  }

  predicate Never<T>(x: T) {
    false
  }

  // ---- liveness ----

  /** In every state short of the return some thread can move, provided handlers return. */
  lemma NoDeadlock<H>(s: State<H>) returns (st: Step<H>)
    requires Inv(s) && !s.at.Returned?
    ensures Enabled(s, st) && !st.Cancel? && !st.Work?
  {
    if s.at == Top {
      st := CheckNext;
    } else if s.at == Adding {
      st := Add;
    } else if s.at == Spawning {
      st := Spawn;
    } else if s.at == Select && s.slots < s.size {
      st := Acquire;
    } else if s.at == Waiting && s.wg == 0 {
      st := Wait;
    } else {
      // A slot or a wait-group unit is held by some goroutine that has not exited.
      CountNone<Worker<H>>(s.workers, HoldsSlot);
      CountNone<Worker<H>>(s.workers, Unfinished);
      var i :| 0 <= i < |s.workers| && Unfinished(s.workers[i]);
      if s.workers[i].phase.Releasing? {
        CountNone<Worker<H>>(s.workers, HoldsSlot);
        assert HoldsSlot(s.workers[i]);
      }
      st := match s.workers[i].phase
        case Handling(_) => Return(i)
        case Releasing => Release(i)
        case _ => Finish(i);
    }
  }

  function Rank<H>(w: Worker<H>): nat {
    match w.phase
    case Handling(_) => 3
    case Releasing => 2
    case Finishing => 1
    case Exited => 0
  }

  function Ranks<H>(ws: seq<Worker<H>>): nat {
    if ws == [] then 0 else Ranks(ws[..|ws| - 1]) + Rank(ws[|ws| - 1])
  }

  lemma {:induction false} RanksUpdate<H>(ws: seq<Worker<H>>, i: nat, w: Worker<H>)
    requires i < |ws|
    ensures Ranks(ws[i := w]) == Ranks(ws) - Rank(ws[i]) + Rank(w)
  {
    var n := |ws| - 1;
    if i == n {
      assert ws[i := w][..n] == ws[..n];
    } else {
      assert ws[i := w][..n] == ws[..n][i := w];
      RanksUpdate(ws[..n], i, w);
    }
  }

  function Measure<H>(s: State<H>): int {
    7 * (|s.jobs| - s.next)
    + (match s.at case Top => 5 case Select => 4 case Adding => 3
               case Spawning => 2 case Waiting => 1 case Returned => 0)
    + Ranks(s.workers)
    + (if s.cancelled then 0 else 1)
  }

  /** Every scheduling step spends from a budget linear in the jobs; a handler's own steps are free. */
  lemma StepSpends<H>(s: State<H>, st: Step<H>, first: H)
    requires Inv(s) && Enabled(s, st)
    ensures Measure(s) >= 0
    ensures Measure(Apply(s, st, first)) + (if st.Work? then 0 else 1) <= Measure(s)
  {
    if st.Spawn? {
      var w := Worker(s.jobs[s.next], Handling(first));
      assert (s.workers + [w])[..|s.workers|] == s.workers;
    } else if st.Work? || st.Return? || st.Release? || st.Finish? {
      GoroutineSpends(s, st, first);
    }
  }

  lemma GoroutineSpends<H>(s: State<H>, st: Step<H>, first: H)
    requires Inv(s) && Enabled(s, st) && (st.Work? || st.Return? || st.Release? || st.Finish?)
    ensures Measure(s) >= 0
    ensures Measure(Apply(s, st, first)) + (if st.Work? then 0 else 1) <= Measure(s)
  {
    RanksUpdate(s.workers, st.i, Apply(s, st, first).workers[st.i]);
  }

  predicate IsScheduling<H>(st: Step<H>) {
    !st.Work?
  }

  /** No run takes more than 7 steps per job and 6 more, whatever the handlers do in between. */
  lemma {:induction false} RunsAreFinite<H>(size: nat, jobs: seq<string>, steps: seq<Step<H>>, first: H)
    requires size >= 1 && Legal(size, jobs, steps, first)
    ensures Measure(Exec(size, jobs, steps, first)) >= 0
    ensures Count(steps, IsScheduling) + Measure(Exec(size, jobs, steps, first)) <= 7 * |jobs| + 6
  {
    RunKeepsInv(size, jobs, steps, first);
    if steps != [] {
      var n := |steps| - 1;
      RunsAreFinite(size, jobs, steps[..n], first);
      RunKeepsInv(size, jobs, steps[..n], first);
      StepSpends(Exec(size, jobs, steps[..n], first), steps[n], first);
    }
  }
}
