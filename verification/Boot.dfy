/** internal/shared/natsbus/conn.go: the stream configuration under any number of application and
    notifier boots (cmd/app/main.go, cmd/notifier/main.go), interleaved and failing anywhere. */
module Boot {
  import opened Common
  import Notify

  const SECOND: int := 1_000_000_000

  /** What the broker uses when a stream is configured without a window of its own. */
  const SERVER_DEFAULT: int := 120 * SECOND

  /** The scanner's default interval, applied after the window has been set. */
  const DEFAULT_INTERVAL: int := 300 * SECOND

  /** The main stream's window, if the stream exists, and whether the DLQ stream exists. */
  datatype Broker = Broker(main: Option<int>, dlq: bool)

  function InForce(duplicates: int): int {
    if duplicates == 0 then SERVER_DEFAULT else duplicates
  }

  /** CreateStream without a window; an existing stream keeps its configuration. */
  function CreateMain(b: Broker): Broker {
    if b.main.None? then b.(main := Some(SERVER_DEFAULT)) else b
  }

  function UpdateDlq(b: Broker): Broker {
    b.(dlq := true)
  }

  function SetWindow(b: Broker, window: int): Broker {
    b.(main := Some(InForce(window)))
  }

  /** `App` carries its SCAN_INTERVAL. */
  datatype Kind = App(interval: int) | Notifier

  datatype Stage = CreatingMain | UpdatingDlq | SettingWindow | Up

  datatype Process = Process(kind: Kind, stage: Stage)

  datatype State = State(broker: Broker, processes: map<nat, Process>)

  datatype Step =
    | Start(p: nat, kind: Kind)
    | Proceed(p: nat, o: Outcome)      // the process's next broker call ends
    | Die(p: nat)

  /** Configuration validation lets no negative interval through. */
  predicate ValidKind(k: Kind) {
    k.App? ==> 0 <= k.interval <= Notify.MAX_INT64
  }

  predicate Enabled(s: State, st: Step) {
    match st
    case Start(p, kind) => p !in s.processes && ValidKind(kind)
    case Proceed(p, _) => p in s.processes && !s.processes[p].stage.Up?
    case Die(p) => p in s.processes
  }

  function Effect(b: Broker, pr: Process): Broker {
    match pr.stage
    case CreatingMain => CreateMain(b)
    case UpdatingDlq => UpdateDlq(b)
    case SettingWindow => if pr.kind.App? then SetWindow(b, Notify.DedupWindow(pr.kind.interval)) else b
    case Up => b
  }

  function Next(pr: Process): Process {
    pr.(stage := match pr.stage
                 case CreatingMain => UpdatingDlq
                 case UpdatingDlq => if pr.kind.App? then SettingWindow else Up
                 case SettingWindow => Up
                 case Up => Up)
  }

  /** An error of any call ends the boot. */
  function Apply(s: State, st: Step): State
    requires Enabled(s, st)
  {
    match st
    case Start(p, kind) => s.(processes := s.processes[p := Process(kind, CreatingMain)])
    case Die(p) => s.(processes := s.processes - {p})
    case Proceed(p, o) =>
      var pr := s.processes[p];
      State(if o.Applied() then Effect(s.broker, pr) else s.broker,
            if o.Done? then s.processes[p := Next(pr)] else s.processes - {p})
  }

  ghost predicate Legal(s: State, steps: seq<Step>)
    decreases |steps|
  {
    steps == [] || (Enabled(s, steps[0]) && Legal(Apply(s, steps[0]), steps[1..]))
  }

  ghost function Exec(s: State, steps: seq<Step>): State
    requires Legal(s, steps)
    decreases |steps|
  {
    if steps == [] then s else Exec(Apply(s, steps[0]), steps[1..])
  }

  const INIT := State(Broker(None, false), map[])

  /** Past its first call a boot has a main stream to rely on, and only an application sets windows. */
  ghost predicate Inv(s: State) {
    && (forall p :: p in s.processes ==> ValidKind(s.processes[p].kind))
    && (forall p :: p in s.processes && !s.processes[p].stage.CreatingMain? ==> s.broker.main.Some?)
    && (forall p :: p in s.processes && s.processes[p].stage.SettingWindow? ==> s.processes[p].kind.App?)
    && (forall p :: p in s.processes && (s.processes[p].stage.SettingWindow? || s.processes[p].stage.Up?)
          ==> s.broker.dlq)
  }

  lemma StepKeepsInv(s: State, st: Step)
    requires Inv(s) && Enabled(s, st)
    ensures Inv(Apply(s, st))
  {
  }

  lemma {:induction false} RunKeepsInv(s: State, steps: seq<Step>)
    requires Inv(s) && Legal(s, steps)
    ensures Inv(Exec(s, steps))
    decreases |steps|
  {
    if steps != [] {
      StepKeepsInv(s, steps[0]);
      RunKeepsInv(Apply(s, steps[0]), steps[1..]);
    }
  }

  /** Whatever boots there have been since the broker was empty. */
  lemma ReachedHasInv(boots: seq<Step>)
    requires Legal(INIT, boots)
    ensures Inv(Exec(INIT, boots))
  {
    assert Inv(INIT);
    RunKeepsInv(INIT, boots);
  }

  /** Boots of either kind start at any moment, and each of their broker calls can end in every way. */
  lemma EnvironmentIsFree(s: State, p: nat, interval: nat, o: Outcome)
    ensures p !in s.processes ==> Enabled(s, Start(p, Notifier))
    ensures p !in s.processes && interval <= 0x7FFF_FFFF_FFFF_FFFF ==> Enabled(s, Start(p, App(interval)))
    ensures p in s.processes ==> Enabled(s, Die(p)) && p !in Apply(s, Die(p)).processes
    ensures p in s.processes ==> (!s.processes[p].stage.Up? ==> Enabled(s, Proceed(p, o)))
  {
  }

  predicate WritesWindow(s: State, st: Step) {
    st.Proceed? && st.o.Applied() && st.p in s.processes
    && s.processes[st.p].kind.App? && s.processes[st.p].stage.SettingWindow?
  }

  /** No step along the run is an application's window update. */
  ghost predicate NoWindowWrites(s: State, steps: seq<Step>)
    requires Legal(s, steps)
    decreases |steps|
  {
    steps == [] || (!WritesWindow(s, steps[0]) && NoWindowWrites(Apply(s, steps[0]), steps[1..]))
  }

  /** Whatever boots, of either kind, come and go: a window that is there stays until an
      application's own update of it takes effect. */
  lemma {:induction false} WindowStays(s: State, steps: seq<Step>)
    requires Inv(s) && Legal(s, steps) && NoWindowWrites(s, steps) && s.broker.main.Some?
    ensures Exec(s, steps).broker.main == s.broker.main
    decreases |steps|
  {
    if steps != [] {
      StepKeepsInv(s, steps[0]);
      WindowStays(Apply(s, steps[0]), steps[1..]);
    }
  }

  ghost predicate OnlyNotifiers(s: State, steps: seq<Step>) {
    && (forall p :: p in s.processes ==> s.processes[p].kind.Notifier?)
    && (forall i :: 0 <= i < |steps| && steps[i].Start? ==> steps[i].kind.Notifier?)
  }

  /** A notifier boot never resets a window: runs of notifiers alone write none. */
  lemma {:induction false} NotifiersWriteNoWindow(s: State, steps: seq<Step>)
    requires Legal(s, steps) && OnlyNotifiers(s, steps)
    ensures NoWindowWrites(s, steps)
    decreases |steps|
  {
    if steps != [] {
      var s' := Apply(s, steps[0]);
      assert forall i :: 0 <= i < |steps[1..]| ==> steps[1..][i] == steps[i + 1];
      assert OnlyNotifiers(s', steps[1..]);
      NotifiersWriteNoWindow(s', steps[1..]);
    }
  }

  lemma UpdateSetsThreeIntervals(s: State, p: nat)
    requires Inv(s) && p in s.processes && s.processes[p].kind.App? && s.processes[p].stage.SettingWindow?
    requires 0 < s.processes[p].kind.interval <= Notify.MAX_INT64 / 3
    ensures var s' := Apply(s, Proceed(p, Done));
      Inv(s') && s'.processes[p].stage.Up? && s'.broker == Broker(Some(3 * s.processes[p].kind.interval), true)
  {
    Notify.DedupWindowIsThreeIntervals(s.processes[p].kind.interval);
    StepKeepsInv(s, Proceed(p, Done));
  }

  /** The promise, over every order and number of boots from the empty broker on: when an application
      with interval I > 0 has its window update reported done, the window is 3 I, and it is still in
      force after any further boots without another such update. */
  lemma AppBootSetsThreeIntervals(boots: seq<Step>, p: nat, later: seq<Step>)
    requires Legal(INIT, boots) && p in Exec(INIT, boots).processes
    requires var x := Exec(INIT, boots).processes[p];
             x.kind.App? && x.stage.SettingWindow? && 0 < x.kind.interval <= Notify.MAX_INT64 / 3
    requires var s' := Apply(Exec(INIT, boots), Proceed(p, Done)); Legal(s', later) && NoWindowWrites(s', later)
    ensures var s' := Apply(Exec(INIT, boots), Proceed(p, Done));
      && s'.processes[p].stage.Up? && s'.broker.dlq
      && Exec(s', later).broker.main == Some(3 * Exec(INIT, boots).processes[p].kind.interval)
  {
    ReachedHasInv(boots);
    UpdateSetsThreeIntervals(Exec(INIT, boots), p);
    WindowStays(Apply(Exec(INIT, boots), Proceed(p, Done)), later);
  }

  /** Every application, there already or booting along the run, has an interval of at least `least`
      whose threefold fits in a Duration. */
  ghost predicate AppsFrom(s: State, steps: seq<Step>, least: nat) {
    && (forall p :: p in s.processes ==> KindFrom(s.processes[p].kind, least))
    && (forall i :: 0 <= i < |steps| && steps[i].Start? ==> KindFrom(steps[i].kind, least))
  }

  predicate KindFrom(k: Kind, least: nat) {
    k.App? ==> least <= k.interval <= Notify.MAX_INT64 / 3
  }

  predicate WindowFrom(b: Broker, least: nat) {
    b.main.Some? && b.main.value >= 3 * least
  }

  lemma StepKeepsWindowFrom(s: State, st: Step, least: nat)
    requires Inv(s) && Enabled(s, st) && AppsFrom(s, [st], least) && WindowFrom(s.broker, least) && least > 0
    ensures AppsFrom(Apply(s, st), [], least) && WindowFrom(Apply(s, st).broker, least)
  {
    assert st.Start? ==> KindFrom([st][0].kind, least);
    if WritesWindow(s, st) {
      Notify.DedupWindowIsThreeIntervals(s.processes[st.p].kind.interval);
    }
  }

  /** Whatever boots come later, in whatever order and however they fail: among applications with
      such intervals the window never falls below three of the least. */
  lemma {:induction false} WindowStaysFrom(s: State, steps: seq<Step>, least: nat)
    requires Inv(s) && Legal(s, steps) && AppsFrom(s, steps, least) && WindowFrom(s.broker, least) && least > 0
    ensures WindowFrom(Exec(s, steps).broker, least)
    decreases |steps|
  {
    if steps != [] {
      assert forall i :: 0 <= i < |steps[1..]| ==> steps[1..][i] == steps[i + 1];
      StepKeepsInv(s, steps[0]);
      StepKeepsWindowFrom(s, steps[0], least);
      WindowStaysFrom(Apply(s, steps[0]), steps[1..], least);
    }
  }

  /** An application whose update of the window is done goes on to start its scanner in this state. */
  ghost predicate Starts(boots: seq<Step>, p: nat, least: nat) {
    && least > 0 && Legal(INIT, boots) && p in Exec(INIT, boots).processes
    && Exec(INIT, boots).processes[p].kind.App? && Exec(INIT, boots).processes[p].stage.SettingWindow?
    && AppsFrom(Exec(INIT, boots), [], least)
  }

  ghost function Started(boots: seq<Step>, p: nat, least: nat): State
    requires Starts(boots, p, least)
  {
    Apply(Exec(INIT, boots), Proceed(p, Done))
  }

  /** From the empty broker on: the window is at least three of the least interval when the scanner
      starts, and after any later boots. */
  lemma ScannersWindow(boots: seq<Step>, p: nat, least: nat, later: seq<Step>)
    requires Starts(boots, p, least) && Legal(Started(boots, p, least), later)
    requires AppsFrom(Started(boots, p, least), later, least)
    ensures WindowFrom(Exec(Started(boots, p, least), later).broker, least)
  {
    ReachedHasInv(boots);
    UpdateSetsThreeIntervals(Exec(INIT, boots), p);
    WindowStaysFrom(Started(boots, p, least), later, least);
  }

  /** The interval the scanner will really tick with. */
  function EffectiveInterval(interval: int): int {
    if interval <= 0 then DEFAULT_INTERVAL else interval
  }

  /** The window is three effective intervals exactly when SCAN_INTERVAL is positive and three of it
      fit in a Duration: for zero the scanner falls back to its default interval only after the
      window was set from the zero. */
  lemma WindowMatchesScannerIff(b: Broker, interval: int)
    requires 0 <= interval <= Notify.MAX_INT64
    ensures SetWindow(b, Notify.DedupWindow(interval)).main == Some(3 * EffectiveInterval(interval))
            <==> 0 < interval <= Notify.MAX_INT64 / 3
    ensures interval == 0 ==>
              && SetWindow(b, Notify.DedupWindow(interval)).main == Some(120_000_000_000)
              && 3 * EffectiveInterval(interval) == 900_000_000_000
  {
    Notify.DedupWindowIsThreeIntervals(interval);
    assert Notify.MAX_INT64 / 3 == 3074457345618258602;
  }
}

/** The two functions over a broker object. */
module Natsbus {
  import opened Common
  import Boot
  import Notify

  datatype CreateReply = Created | NameInUse | Error

  class JetStream {
    var main: Option<int>
    var dlq: bool

    constructor ()
      ensures Value() == Boot.Broker(None, false)
    {
      main, dlq := None, false;
    }

    ghost function Value(): Boot.Broker
      reads this
    {
      Boot.Broker(main, dlq)
    }

    method CreateMain(o: Outcome) returns (r: CreateReply)
      modifies this`main
      ensures Value() == if o.Applied() then Boot.CreateMain(old(Value())) else old(Value())
      ensures r.Error? <==> !o.Done?
    {
      var existed := main.Some?;
      if o.Applied() && !existed {
        main := Some(Boot.SERVER_DEFAULT);
      }
      r := if !o.Done? then Error else if existed then NameInUse else Created;
    }

    method UpdateMain(window: int, o: Outcome) returns (ok: bool)
      modifies this`main
      ensures Value() == if o.Applied() then Boot.SetWindow(old(Value()), window) else old(Value())
      ensures ok == o.Done?
    {
      if o.Applied() {
        main := Some(Boot.InForce(window));
      }
      ok := o.Done?;
    }

    method UpdateDlq(o: Outcome) returns (ok: bool)
      modifies this`dlq
      ensures Value() == if o.Applied() then Boot.UpdateDlq(old(Value())) else old(Value())
      ensures ok == o.Done?
    {
      if o.Applied() {
        dlq := true;
      }
      ok := o.Done?;
    }
  }

  /** Success means both streams exist; a window that was there is never touched. */
  method EnsureStreams(js: JetStream, create: Outcome, update: Outcome) returns (ok: bool)
    modifies js
    ensures ok == (create.Done? && update.Done?)
    ensures ok ==> js.main.Some? && js.dlq
    ensures old(js.main).Some? ==> js.main == old(js.main)
    ensures old(js.main).None? ==> js.main == if create.Applied() then Some(Boot.SERVER_DEFAULT) else None
    ensures js.dlq == (old(js.dlq) || (create.Done? && update.Applied()))
  {
    var r := js.CreateMain(create);
    if r.Error? {
      return false;
    }
    ok := js.UpdateDlq(update);
  }

  method SetDedupWindow(js: JetStream, window: int, o: Outcome) returns (ok: bool)
    modifies js`main
    ensures js.Value() == if o.Applied() then Boot.SetWindow(old(js.Value()), window) else old(js.Value())
    ensures ok == o.Done?
  {
    ok := js.UpdateMain(window, o);
  }

  /** The broker part of an application's boot. */
  method AppBoot(js: JetStream, interval: int, create: Outcome, update: Outcome, window: Outcome) returns (ok: bool)
    requires 0 <= interval <= Notify.MAX_INT64
    modifies js
    ensures ok == (create.Done? && update.Done? && window.Done?)
    ensures ok && 0 < interval <= Notify.MAX_INT64 / 3 ==> js.Value() == Boot.Broker(Some(3 * interval), true)
    ensures js.main == if create.Done? && update.Done? && window.Applied()
                       then Some(Boot.InForce(Notify.DedupWindow(interval)))
                       else if old(js.main).None? && create.Applied() then Some(Boot.SERVER_DEFAULT) else old(js.main)
    ensures js.dlq == (old(js.dlq) || (create.Done? && update.Applied()))
  {
    Notify.DedupWindowIsThreeIntervals(interval);
    ok := EnsureStreams(js, create, update);
    if ok {
      ok := SetDedupWindow(js, Notify.DedupWindow(interval), window);
    }
  }

  method NotifierBoot(js: JetStream, create: Outcome, update: Outcome) returns (ok: bool)
    modifies js
    ensures ok == (create.Done? && update.Done?)
    ensures old(js.main).Some? ==> js.main == old(js.main)
    ensures ok ==> js.main.Some? && js.dlq
  {
    ok := EnsureStreams(js, create, update);
  }
}
