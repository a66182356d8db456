/** internal/app/github/cached_client.go: a cached answer in front of the GitHub client. Any number
    of calls overlap; gets and sets may fail, entries may vanish, time moves between any two steps. */
module Cache {
  import opened Common

  datatype Op = Validate | Latest

  datatype Request = Request(op: Op, owner: string, repo: string)

  /** What GitHub, and so the cached client, can say. `Ok` of Validate carries no text. */
  datatype Answer = Ok(tag: string) | NotFound | RateLimited | Failed

  const TTL: nat := 10 * 60 * 1_000_000_000

  const CACHED_OK := "ok"
  const CACHED_NOT_FOUND := "404"
  const CACHED_EMPTY_TAG := "__none__"

  predicate NoSlash(s: string) {
    forall i :: 0 <= i < |s| ==> s[i] != '/'
  }

  predicate RequestOk(r: Request) {
    NoSlash(r.owner)
  }

  function Prefix(op: Op): string {
    match op case Validate => "gh:validate:" case Latest => "gh:latest:"
  }

  function Key(r: Request): string {
    Prefix(r.op) + r.owner + "/" + r.repo
  }

  /** Different requests never share a key. */
  lemma KeyInjective(a: Request, b: Request)
    requires RequestOk(a) && RequestOk(b)
    ensures Key(a) == Key(b) <==> a == b
  {
    if Key(a) == Key(b) {
      assert Key(a)[3] == Key(b)[3] && Prefix(a.op)[3] == Key(a)[3] && Prefix(b.op)[3] == Key(b)[3];
      assert a.op == b.op;
      var n := |Prefix(a.op)|;
      var x, y := a.owner + "/" + a.repo, b.owner + "/" + b.repo;
      assert Key(a)[n..] == x && Key(b)[n..] == y;
      assert x[|a.owner|] == '/' && y[|b.owner|] == '/';
      assert forall i :: 0 <= i < |a.owner| ==> x[i] == a.owner[i];
      assert forall i :: 0 <= i < |b.owner| ==> y[i] == b.owner[i];
      assert |a.owner| == |b.owner|;
      assert x[..|a.owner|] == a.owner && y[..|b.owner|] == b.owner;
      assert x[|a.owner| + 1..] == a.repo && y[|b.owner| + 1..] == b.repo;
    }
  }

  /** Only a repo check answers NotFound, and its success carries no tag. */
  predicate AnswerOk(op: Op, a: Answer) {
    match op
    case Validate => a == Ok("") || !a.Ok?
    case Latest => !a.NotFound?
  }

  predicate Cacheable(a: Answer) {
    a.Ok? || a.NotFound?
  }

  function Encode(op: Op, a: Answer): string
    requires AnswerOk(op, a) && Cacheable(a)
  {
    match op
    case Validate => if a.Ok? then CACHED_OK else CACHED_NOT_FOUND
    case Latest => if a.tag == "" then CACHED_EMPTY_TAG else a.tag
  }

  function Decode(op: Op, text: string): Option<Answer> {
    match op
    case Validate =>
      if text == CACHED_OK then Some(Ok("")) else if text == CACHED_NOT_FOUND then Some(NotFound) else None
    case Latest => Some(Ok(if text == CACHED_EMPTY_TAG then "" else text))
  }

  /** A cached answer is read back as it was written, except that a release really tagged
      `__none__` (a legal ref name) is read back as "no release". */
  lemma CachedAnswerRoundTrips(op: Op, a: Answer)
    requires AnswerOk(op, a) && Cacheable(a)
    ensures Decode(op, Encode(op, a)) == Some(a) <==> !(op == Latest && a == Ok("__none__"))
    ensures op == Latest && a == Ok("__none__") ==> Decode(op, Encode(op, a)) == Some(Ok(""))
  {
    if op == Validate {
      assert CACHED_OK[0] != CACHED_NOT_FOUND[0];
    }
  }

  // ---- the machine ----

  /** `from` is the upstream answer the text was made of. */
  datatype Entry = Entry(text: string, writtenAt: nat, from: nat)

  datatype Source = Upstream(answer: nat) | Cached(answer: nat, writtenAt: nat)

  datatype Call =
    | Getting(req: Request)
    | Asking(req: Request)
    | Setting(req: Request, answer: nat)
    | Returned(req: Request, result: Answer, source: Source, readAt: nat)
    | Gone(req: Request)

  /** One answer of GitHub: to whom, what and when. */
  datatype Told = Told(call: nat, req: Request, answer: Answer, at: nat)

  datatype State = State(now: nat, store: map<string, Entry>, calls: seq<Call>, told: seq<Told>)

  datatype Step =
    | Pass(time: nat)
    | Evict(key: string)
    | Begin(req: Request)
    | Get(c: nat, works: bool)
    | Ask(c: nat, answer: Answer)
    | SetEx(c: nat, o: Outcome)
    | Abandon(c: nat)

  predicate Live(s: State, key: string) {
    key in s.store && s.now < s.store[key].writtenAt + TTL
  }

  predicate Enabled(s: State, st: Step) {
    match st
    case Pass(_) => true
    case Evict(_) => true
    case Begin(r) => RequestOk(r)
    case Get(c, _) => c < |s.calls| && s.calls[c].Getting?
    case Ask(c, a) => c < |s.calls| && s.calls[c].Asking? && AnswerOk(s.calls[c].req.op, a)
    case SetEx(c, _) => c < |s.calls| && s.calls[c].Setting? && s.calls[c].answer < |s.told|
                        && AnswerOk(s.calls[c].req.op, s.told[s.calls[c].answer].answer)
                        && Cacheable(s.told[s.calls[c].answer].answer)
    case Abandon(c) => c < |s.calls| && !s.calls[c].Returned?
  }

  /** What a read gives: nothing on a failed get, a miss, or an unknown text under a validate key. */
  function Hit(s: State, r: Request, works: bool): Option<Answer> {
    if works && Live(s, Key(r)) then Decode(r.op, s.store[Key(r)].text) else None
  }

  function AfterGet(s: State, r: Request, works: bool): Call {
    var hit := Hit(s, r, works);
    if hit.None? || Key(r) !in s.store then Asking(r)
    else Returned(r, hit.value, Cached(s.store[Key(r)].from, s.store[Key(r)].writtenAt), s.now)
  }

  function Apply(s: State, st: Step): State
    requires Enabled(s, st)
  {
    match st
    case Pass(d) => s.(now := s.now + d)
    case Evict(k) => s.(store := s.store - {k})
    case Begin(r) => s.(calls := s.calls + [Getting(r)])
    case Get(c, works) => s.(calls := s.calls[c := AfterGet(s, s.calls[c].req, works)])
    case Ask(c, a) =>
      var r := s.calls[c].req;
      s.(told := s.told + [Told(c, r, a, s.now)],
         calls := s.calls[c := if Cacheable(a) then Setting(r, |s.told|)
                               else Returned(r, a, Upstream(|s.told|), s.now)])
    case SetEx(c, o) =>
      var r, i := s.calls[c].req, s.calls[c].answer;
      var a := s.told[i].answer;
      s.(store := if o.Applied() then s.store[Key(r) := Entry(Encode(r.op, a), s.now, i)] else s.store,
         calls := s.calls[c := Returned(r, a, Upstream(i), s.now)])
    case Abandon(c) => s.(calls := s.calls[c := Gone(s.calls[c].req)])
  }

  // ---- the invariant ----

  predicate ToldOk(s: State, i: nat)
    requires i < |s.told|
  {
    var t := s.told[i];
    RequestOk(t.req) && AnswerOk(t.req.op, t.answer) && t.at <= s.now
  }

  /** An entry is the encoding of one cacheable answer to the request its key belongs to. */
  predicate EntryOk(s: State, key: string)
    requires key in s.store
  {
    var e := s.store[key];
    && e.from < |s.told| && ToldOk(s, e.from)
    && var t := s.told[e.from];
       && key == Key(t.req) && Cacheable(t.answer) && e.text == Encode(t.req.op, t.answer)
       && t.at <= e.writtenAt <= s.now
  }

  predicate CallOk(s: State, c: nat)
    requires c < |s.calls|
  {
    var x := s.calls[c];
    && RequestOk(x.req)
    && match x
       case Setting(r, i) => i < |s.told| && ToldOk(s, i) && s.told[i].req == r && s.told[i].call == c
         && Cacheable(s.told[i].answer)
       case Returned(r, a, Upstream(i), at) =>
         i < |s.told| && s.told[i].req == r && s.told[i].call == c && s.told[i].answer == a
       case Returned(r, a, Cached(i, w), at) =>
         && i < |s.told| && ToldOk(s, i)
         && var t := s.told[i];
            && t.req == r && Cacheable(t.answer) && t.at <= w <= at < w + TTL
            && Decode(r.op, Encode(r.op, t.answer)) == Some(a)
       case _ => true
  }

  ghost predicate Inv(s: State) {
    && (forall i :: 0 <= i < |s.told| ==> ToldOk(s, i))
    && (forall k :: k in s.store ==> EntryOk(s, k))
    && (forall c :: 0 <= c < |s.calls| ==> CallOk(s, c))
  }

  /** The call that steps is in order afterwards. */
  lemma SteppedCallOk(s: State, st: Step)
    requires Inv(s) && Enabled(s, st) && (st.Get? || st.Ask? || st.SetEx? || st.Abandon?)
    ensures CallOk(Apply(s, st), st.c)
  {
    assert CallOk(s, st.c);
    if st.Get? {
      var r := s.calls[st.c].req;
      if Key(r) in s.store {
        assert EntryOk(s, Key(r));
        KeyInjective(r, s.told[s.store[Key(r)].from].req);
      }
    }
  }

  lemma StepKeepsInv(s: State, st: Step)
    requires Inv(s) && Enabled(s, st)
    ensures Inv(Apply(s, st))
  {
    var s' := Apply(s, st);
    forall i | 0 <= i < |s'.told|
      ensures ToldOk(s', i)
    {
      StepKeepsToldOk(s, st, i);
    }
    forall k | k in s'.store
      ensures EntryOk(s', k)
    {
      StepKeepsEntryOk(s, st, k);
    }
    forall c | 0 <= c < |s'.calls|
      ensures CallOk(s', c)
    {
      StepKeepsCallOk(s, st, c);
    }
  }

  lemma StepKeepsToldOk(s: State, st: Step, i: nat)
    requires Inv(s) && Enabled(s, st) && i < |Apply(s, st).told|
    ensures s.told <= Apply(s, st).told && ToldOk(Apply(s, st), i)
  {
    if i < |s.told| {
      assert ToldOk(s, i);
    } else {
      assert CallOk(s, st.c);
    }
  }

  lemma StepKeepsEntryOk(s: State, st: Step, k: string)
    requires Inv(s) && Enabled(s, st) && k in Apply(s, st).store
    ensures EntryOk(Apply(s, st), k)
  {
    if k in s.store && Apply(s, st).store[k] == s.store[k] {
      assert EntryOk(s, k);
    } else {
      assert CallOk(s, st.c);
    }
  }

  lemma StepKeepsCallOk(s: State, st: Step, c: nat)
    requires Inv(s) && Enabled(s, st) && c < |Apply(s, st).calls|
    ensures CallOk(Apply(s, st), c)
  {
    if c < |s.calls| && Apply(s, st).calls[c] == s.calls[c] {
      assert CallOk(s, c);
    } else if c < |s.calls| {
      SteppedCallOk(s, st);
    }
  }

  const INIT := State(0, map[], [], [])

  ghost predicate Legal(steps: seq<Step>)
    decreases |steps|, 0
  {
    steps == [] || (var n := |steps| - 1; Legal(steps[..n]) && Enabled(Exec(steps[..n]), steps[n]))
  }

  ghost function Exec(steps: seq<Step>): State
    requires Legal(steps)
    decreases |steps|, 1
  {
    if steps == [] then INIT else Apply(Exec(steps[..|steps| - 1]), steps[|steps| - 1])
  }

  lemma {:induction false} RunKeepsInv(steps: seq<Step>)
    requires Legal(steps)
    ensures Inv(Exec(steps))
  {
    if steps != [] {
      var n := |steps| - 1;
      RunKeepsInv(steps[..n]);
      StepKeepsInv(Exec(steps[..n]), steps[n]);
    }
  }

  /** The environment is not restrained: time passes and entries vanish at any moment, calls overlap
      and end at any point, and every get, answer and write can turn out in every way. */
  lemma EnvironmentIsFree(s: State, time: nat, key: string, r: Request, c: nat, works: bool, a: Answer, o: Outcome)
    requires Inv(s)
    ensures Enabled(s, Pass(time)) && Apply(s, Pass(time)).now == s.now + time
    ensures Enabled(s, Evict(key)) && key !in Apply(s, Evict(key)).store
    ensures NoSlash(r.owner) ==> Enabled(s, Begin(r))
    ensures c < |s.calls| ==>
      && (s.calls[c].Getting? ==> Enabled(s, Get(c, works)))
      && (s.calls[c].Asking? && (a == RateLimited || a == Failed) ==> Enabled(s, Ask(c, a)))
      && (s.calls[c].Asking? && s.calls[c].req.op == Validate && (a == NotFound || a == Ok("")) ==>
            Enabled(s, Ask(c, a)))
      && (s.calls[c].Asking? && s.calls[c].req.op == Latest && a.Ok? ==> Enabled(s, Ask(c, a)))
      && (s.calls[c].Setting? ==> Enabled(s, SetEx(c, o)))
      && (!s.calls[c].Returned? ==> Enabled(s, Abandon(c)) && Apply(s, Abandon(c)).calls[c].Gone?)
  {
    assert c < |s.calls| ==> CallOk(s, c);
  }

  // ---- staleness ----

  /** Every answer is the one GitHub gave to this very call, or one it gave earlier to the same
      question; then it was written to the store at `writtenAt`, less than ten minutes before it was
      read. The text is the same unless the tag is the sentinel. */
  lemma BoundedStaleness(steps: seq<Step>, c: nat)
    requires Legal(steps) && c < |Exec(steps).calls| && Exec(steps).calls[c].Returned?
    ensures var s := Exec(steps);
            var x := s.calls[c];
            var i := x.source.answer;
      && i < |s.told| && s.told[i].req == x.req
      && (x.source.Upstream? ==> s.told[i].call == c && s.told[i].answer == x.result)
      && (x.source.Cached? ==>
            && Cacheable(s.told[i].answer)
            && s.told[i].at <= x.source.writtenAt <= x.readAt
            && x.readAt - x.source.writtenAt < 600_000_000_000
            && (x.result == s.told[i].answer <==> !(x.req.op == Latest && s.told[i].answer == Ok("__none__"))))
  {
    RunKeepsInv(steps);
    var s := Exec(steps);
    assert CallOk(s, c);
    var x := s.calls[c];
    if x.source.Cached? {
      CachedAnswerRoundTrips(x.req.op, s.told[x.source.answer].answer);
    }
  }

  /** The ten minutes count from the write, not from GitHub's answer: a call whose write is `delay`
      late lets a reader see an answer one nanosecond short of ten minutes plus `delay` old. */
  lemma StalenessIsFromTheWrite(delay: nat, r: Request) returns (steps: seq<Step>)
    requires RequestOk(r) && r.op == Latest
    ensures Legal(steps)
    ensures var s := Exec(steps);
      && |s.calls| == 2 && s.calls[1].Returned? && s.calls[1].source.Cached?
      && s.calls[1].source.answer < |s.told|
      && s.calls[1].readAt - s.told[s.calls[1].source.answer].at == 600_000_000_000 + delay - 1
  {
    var s;
    steps, s := Fetch([], r, true, Ok(""), delay, Done);
    steps, s := Then(steps, Pass(TTL - 1));
    steps, s := Then(steps, Begin(r));
    steps, s := Then(steps, Get(1, true));
  }

  /** One more step of a run. */
  lemma Then(steps: seq<Step>, st: Step) returns (steps': seq<Step>, s': State)
    requires Legal(steps) && Enabled(Exec(steps), st)
    ensures steps' == steps + [st] && Legal(steps')
    ensures s' == Exec(steps') == Apply(Exec(steps), st)
  {
    steps' := steps + [st];
    assert steps'[..|steps|] == steps;
    s' := Exec(steps');
  }

  /** The state after a call that GitHub answers with `a`, `delay` before the write. */
  function Fetched(s: State, r: Request, a: Answer, delay: nat, o: Outcome): State
    requires AnswerOk(r.op, a) && Cacheable(a)
  {
    State(s.now + delay,
          if o.Applied() then s.store[Key(r) := Entry(Encode(r.op, a), s.now + delay, |s.told|)] else s.store,
          s.calls + [Returned(r, a, Upstream(|s.told|), s.now + delay)],
          s.told + [Told(|s.calls|, r, a, s.now)])
  }

  /** The steps of that call, one by one. */
  lemma FetchSteps(s: State, r: Request, works: bool, a: Answer, delay: nat, o: Outcome)
    requires RequestOk(r) && AnswerOk(r.op, a) && Cacheable(a) && Hit(s, r, works).None?
    ensures var c := |s.calls|;
            var s2 := s.(calls := s.calls + [Asking(r)]);
            var s3 := State(s.now, s.store, s.calls + [Setting(r, |s.told|)], s.told + [Told(c, r, a, s.now)]);
            var s4 := s3.(now := s.now + delay);
      && Apply(Apply(s, Begin(r)), Get(c, works)) == s2
      && Apply(s2, Ask(c, a)) == s3
      && Apply(s3, Pass(delay)) == s4
      && Enabled(s4, SetEx(c, o)) && Apply(s4, SetEx(c, o)) == Fetched(s, r, a, delay, o)
  {
    var c := |s.calls|;
    var x := Returned(r, a, Upstream(|s.told|), s.now + delay);
    assert AfterGet(s.(calls := s.calls + [Getting(r)]), r, works) == Asking(r);
    assert (s.calls + [Getting(r)])[c := Asking(r)] == s.calls + [Asking(r)];
    assert (s.calls + [Asking(r)])[c := Setting(r, |s.told|)] == s.calls + [Setting(r, |s.told|)];
    assert (s.calls + [Setting(r, |s.told|)])[c := x] == s.calls + [x];
  }

  /** One more call of a run, answered by GitHub. */
  lemma Fetch(steps: seq<Step>, r: Request, works: bool, a: Answer, delay: nat, o: Outcome)
    returns (steps': seq<Step>, s': State)
    requires Legal(steps) && RequestOk(r) && AnswerOk(r.op, a) && Cacheable(a)
    requires Hit(Exec(steps), r, works).None?
    ensures Legal(steps') && s' == Exec(steps') == Fetched(Exec(steps), r, a, delay, o)
  {
    var c := |Exec(steps).calls|;
    FetchSteps(Exec(steps), r, works, a, delay, o);
    steps', s' := Then(steps, Begin(r));
    steps', s' := Then(steps', Get(c, works));
    steps', s' := Then(steps', Ask(c, a));
    steps', s' := Then(steps', Pass(delay));
    steps', s' := Then(steps', SetEx(c, o));
  }

  /** A call whose get failed is a call of the plain client: whatever happens next, if it returns,
      it returns what GitHub answered to it. */
  lemma {:induction false} FailedGetIsPlain(steps: seq<Step>, c: nat, rest: seq<Step>)
    requires Legal(steps + [Get(c, false)] + rest)
    ensures var s := Exec(steps + [Get(c, false)] + rest);
      && c < |s.calls| && !s.calls[c].Getting?
      && (s.calls[c].Returned? ==>
            && s.calls[c].source.Upstream? && s.calls[c].source.answer < |s.told|
            && s.told[s.calls[c].source.answer].call == c
            && s.told[s.calls[c].source.answer].answer == s.calls[c].result)
  {
    var all := steps + [Get(c, false)] + rest;
    if rest == [] {
      assert all == steps + [Get(c, false)];
      assert all[..|steps|] == steps;
    } else {
      var n := |rest| - 1;
      assert all[..|all| - 1] == steps + [Get(c, false)] + rest[..n];
      FailedGetIsPlain(steps, c, rest[..n]);
    }
    RunKeepsInv(all);
    assert CallOk(Exec(all), c);
  }

  // ---- the store ----

  /** In every run a validate key holds only "ok" or "404", a latest key only text that decodes back
      to the answer it was made of, and nothing is ever made of a rate limit or a failure. */
  lemma StoreIsWellTyped(steps: seq<Step>, key: string)
    requires Legal(steps) && key in Exec(steps).store
    ensures var s := Exec(steps);
            var e := s.store[key];
      && e.from < |s.told| && s.told[e.from].at <= e.writtenAt
      && Key(s.told[e.from].req) == key
      && (forall r :: RequestOk(r) && Key(r) == key ==> s.told[e.from].req == r)
      && var t := s.told[e.from];
         && t.answer != RateLimited && t.answer != Failed
         && (t.req.op == Validate ==>
               && key == "gh:validate:" + t.req.owner + "/" + t.req.repo
               && e.text == if t.answer.Ok? then "ok" else "404")
         && (t.req.op == Latest ==>
               && key == "gh:latest:" + t.req.owner + "/" + t.req.repo
               && t.answer.Ok? && e.text == if t.answer.tag == "" then "__none__" else t.answer.tag)
         && (Decode(t.req.op, e.text) == Some(t.answer) <==> !(t.req.op == Latest && t.answer == Ok("__none__")))
  {
    RunKeepsInv(steps);
    var s := Exec(steps);
    assert EntryOk(s, key);
    var t := s.told[s.store[key].from];
    CachedAnswerRoundTrips(t.req.op, t.answer);
    forall r | RequestOk(r) && Key(r) == key
      ensures t.req == r
    {
      KeyInjective(r, t.req);
    }
  }

  // ---- do the answers move forward? ----

  /** With a failed get and a failed set the cache steps back although GitHub never did: tag, newer
      tag, tag again. A reader that compares with the last tag only takes the third for a release. */
  lemma AnswersCanGoBack(r: Request, tag: string, newer: string) returns (steps: seq<Step>)
    requires RequestOk(r) && r.op == Latest && tag != "" && newer != "" && tag != newer && tag != "__none__"
    ensures Legal(steps)
    ensures var s := Exec(steps);
      && |s.told| == 2 && s.told[0].answer == Ok(tag) && s.told[1].answer == Ok(newer)
      && |s.calls| == 3 && s.calls[0].Returned? && s.calls[1].Returned? && s.calls[2].Returned?
      && s.calls[0].result == Ok(tag) && s.calls[1].result == Ok(newer) && s.calls[2].result == Ok(tag)
  {
    var s;
    steps, s := Fetch([], r, true, Ok(tag), 0, Done);
    steps, s := Fetch(steps, r, false, Ok(newer), 0, NotDone);
    steps, s := Then(steps, Begin(r));
    steps, s := Then(steps, Get(2, true));
  }

  predicate Active(x: Call) {
    x.Getting? || x.Asking? || x.Setting?
  }

  /** What a run needs for its answers to move forward: the calls for one request do not overlap,
      and no get fails while there is something to read. */
  ghost predicate Careful(s: State, st: Step)
    requires Enabled(s, st)
  {
    && (st.Begin? ==> forall c :: 0 <= c < |s.calls| && Active(s.calls[c]) ==> s.calls[c].req != st.req)
    && (st.Get? && !st.works ==> !Live(s, Key(s.calls[st.c].req)))
  }

  ghost predicate CarefulRun(steps: seq<Step>)
    requires Legal(steps)
    decreases |steps|
  {
    steps == [] || (var n := |steps| - 1; CarefulRun(steps[..n]) && Careful(Exec(steps[..n]), steps[n]))
  }

  /** No later answer to the same request. */
  ghost predicate IsLatest(s: State, i: nat)
    requires i < |s.told|
  {
    forall j :: i < j < |s.told| ==> s.told[j].req != s.told[i].req
  }

  ghost predicate OneAtATime(s: State) {
    forall b, c :: 0 <= b < c < |s.calls| && Active(s.calls[b]) && Active(s.calls[c])
      ==> s.calls[b].req != s.calls[c].req
  }

  ghost predicate CallIsForward(s: State, c: nat)
    requires c < |s.calls|
  {
    var x := s.calls[c];
    && (x.Asking? || x.Setting? ==> !Live(s, Key(x.req)))
    && (x.Setting? ==> x.answer < |s.told| && IsLatest(s, x.answer))
  }

  ghost predicate EntryIsForward(s: State, key: string) {
    Live(s, key) ==> s.store[key].from < |s.told| && IsLatest(s, s.store[key].from)
  }

  ghost predicate ForwardInv(s: State) {
    && OneAtATime(s)
    && (forall c :: 0 <= c < |s.calls| ==> CallIsForward(s, c))
    && (forall k :: k in s.store ==> EntryIsForward(s, k))
  }

  /** A careful get that finds nothing had nothing live to find. */
  lemma MissMeansNotLive(s: State, c: nat, works: bool)
    requires Inv(s) && Enabled(s, Get(c, works)) && Careful(s, Get(c, works))
    ensures AfterGet(s, s.calls[c].req, works).Asking? ==> !Live(s, Key(s.calls[c].req))
  {
    var r := s.calls[c].req;
    assert CallOk(s, c);
    if Key(r) in s.store {
      assert EntryOk(s, Key(r));
      KeyInjective(r, s.told[s.store[Key(r)].from].req);
    }
  }

  lemma EntriesStayForward(s: State, st: Step, key: string)
    requires Inv(s) && ForwardInv(s) && Enabled(s, st) && key in Apply(s, st).store
    ensures EntryIsForward(Apply(s, st), key)
  {
    var s' := Apply(s, st);
    if key in s.store && s'.store[key] == s.store[key] {
      assert EntryIsForward(s, key) && EntryOk(s, key);
      if st.Ask? {
        assert CallIsForward(s, st.c);
      }
    } else {
      assert CallIsForward(s, st.c);
    }
  }

  lemma CallsStayForward(s: State, st: Step, c: nat)
    requires Inv(s) && ForwardInv(s) && Enabled(s, st) && Careful(s, st) && c < |Apply(s, st).calls|
    ensures CallIsForward(Apply(s, st), c)
  {
    if c < |s.calls| {
      assert CallIsForward(s, c);
      if st.Get? && st.c == c {
        MissMeansNotLive(s, c, st.works);
      } else if (st.Ask? || st.SetEx?) && st.c != c {
        OthersStayForward(s, st, c);
      }
    }
  }

  /** A call's answer or write leaves the calls for other requests alone. */
  lemma OthersStayForward(s: State, st: Step, c: nat)
    requires Inv(s) && ForwardInv(s) && Enabled(s, st) && (st.Ask? || st.SetEx?) && c < |s.calls| && st.c != c
    ensures CallIsForward(Apply(s, st), c)
  {
    assert CallIsForward(s, c) && CallOk(s, c) && CallOk(s, st.c);
    KeyInjective(s.calls[c].req, s.calls[st.c].req);
  }

  lemma StepKeepsForward(s: State, st: Step)
    requires Inv(s) && ForwardInv(s) && Enabled(s, st) && Careful(s, st)
    ensures ForwardInv(Apply(s, st))
  {
    var s' := Apply(s, st);
    forall k | k in s'.store
      ensures EntryIsForward(s', k)
    {
      EntriesStayForward(s, st, k);
    }
    forall c | 0 <= c < |s'.calls|
      ensures CallIsForward(s', c)
    {
      CallsStayForward(s, st, c);
    }
  }

  lemma {:induction false} RunKeepsForward(steps: seq<Step>)
    requires Legal(steps) && CarefulRun(steps)
    ensures ForwardInv(Exec(steps))
  {
    if steps != [] {
      var n := |steps| - 1;
      RunKeepsForward(steps[..n]);
      RunKeepsInv(steps[..n]);
      StepKeepsForward(Exec(steps[..n]), steps[n]);
    }
  }

  /** In a careful run every call returns GitHub's latest answer to its request so far, so no answer
      is older than one returned before it. */
  lemma CarefulRunsMoveForward(steps: seq<Step>, st: Step, c: nat)
    requires Legal(steps + [st]) && CarefulRun(steps + [st])
    requires c < |Exec(steps + [st]).calls| && Exec(steps + [st]).calls[c].Returned?
    requires Legal(steps) && c < |Exec(steps).calls| && !Exec(steps).calls[c].Returned?
    ensures var s := Exec(steps + [st]);
            var i := s.calls[c].source.answer;
      && i < |s.told| && IsLatest(s, i)
      && forall b :: 0 <= b < |s.calls| && s.calls[b].Returned? && s.calls[b].req == s.calls[c].req ==>
           s.calls[b].source.answer <= i
  {
    assert (steps + [st])[..|steps|] == steps;
    var s, s' := Exec(steps), Exec(steps + [st]);
    RunKeepsInv(steps);
    RunKeepsInv(steps + [st]);
    RunKeepsForward(steps);
    assert CallIsForward(s, c) && CallOk(s, c) && CallOk(s', c);
    if st.Get? {
      assert EntryIsForward(s, Key(s.calls[c].req));
    }
    forall b | 0 <= b < |s'.calls| && s'.calls[b].Returned? && s'.calls[b].req == s'.calls[c].req
      ensures s'.calls[b].source.answer <= s'.calls[c].source.answer
    {
      assert CallOk(s', b);
    }
  }

  // ---- and only then: every careless step can be continued into going back ----

  /** An answer of the other kind. */
  function Other(op: Op, a: Answer): Answer {
    match op
    case Validate => if a.Ok? then NotFound else Ok("")
    case Latest => if a == Ok("v") then Ok("") else Ok("v")
  }

  /** Call `b` has returned an answer, and call `c` returns an older and different one to the same
      request after it. */
  ghost predicate GoesBack(s: State, s': State, b: nat, c: nat) {
    && b < |s.calls| <= |s'.calls| && c < |s.calls| && s.calls[b].Returned? && !s.calls[c].Returned?
    && s'.calls[b] == s.calls[b] && s'.calls[c].Returned? && s'.calls[c].req == s'.calls[b].req
    && s'.calls[c].source.answer < s'.calls[b].source.answer && s'.calls[c].result != s'.calls[b].result
  }

  /** The run goes on from `steps` through `before`, and its next step makes `c` go back behind `b`. */
  ghost predicate LeadsBack(steps: seq<Step>, before: seq<Step>, last: Step, b: nat, c: nat) {
    && steps <= before && Legal(before) && Enabled(Exec(before), last)
    && GoesBack(Exec(before), Apply(Exec(before), last), b, c)
  }

  predicate Dead(s: State, key: string) {
    !Live(s, key)
  }

  /** Call `c` has the answer at `i` and nothing else has changed. */
  ghost predicate Answered(s: State, c: nat, i: nat, s': State) {
    && c < |s.calls| && i < |s'.told|
    && s'.now == s.now && s'.store == s.store && s.told <= s'.told
    && s'.calls == s.calls[c := Setting(s.calls[c].req, i)]
  }

  lemma AskingAnswered(steps: seq<Step>, c: nat, a: Answer) returns (steps': seq<Step>)
    requires Legal(steps) && c < |Exec(steps).calls| && Exec(steps).calls[c].Asking?
    requires AnswerOk(Exec(steps).calls[c].req.op, a) && Cacheable(a)
    ensures steps <= steps' && Legal(steps') && Answered(Exec(steps), c, |Exec(steps).told|, Exec(steps'))
    ensures Exec(steps').told[|Exec(steps).told|].answer == a
  {
    var s;
    steps', s := Then(steps, Ask(c, a));
  }

  /** A call in flight with nothing live to read gets an answer: `a`, unless it has one already. */
  lemma ActiveAnswered(steps: seq<Step>, c: nat, a: Answer) returns (steps': seq<Step>, i: nat)
    requires Legal(steps) && c < |Exec(steps).calls| && Active(Exec(steps).calls[c])
    requires AnswerOk(Exec(steps).calls[c].req.op, a) && Cacheable(a)
    requires Dead(Exec(steps), Key(Exec(steps).calls[c].req))
    ensures steps <= steps' && Legal(steps') && Answered(Exec(steps), c, i, Exec(steps'))
    ensures !Exec(steps).calls[c].Setting? ==> i == |Exec(steps).told| && Exec(steps').told[i].answer == a
  {
    var s := Exec(steps);
    if s.calls[c].Setting? {
      RunKeepsInv(steps);
      assert CallOk(s, c);
      steps', i := steps, s.calls[c].answer;
    } else if s.calls[c].Asking? {
      i := |s.told|;
      steps' := AskingAnswered(steps, c, a);
    } else {
      var asked, s1 := Then(steps, Get(c, true));
      assert s1.calls == s.calls[c := Asking(s.calls[c].req)];
      i := |s.told|;
      steps' := AskingAnswered(asked, c, a);
      assert s1.calls[c := Setting(s.calls[c].req, i)] == s.calls[c := Setting(s.calls[c].req, i)];
    }
  }

  /** A call with an answer returns it; its write fails. */
  lemma AnsweredReturns(steps: seq<Step>, c: nat) returns (steps': seq<Step>)
    requires Legal(steps) && c < |Exec(steps).calls| && Exec(steps).calls[c].Setting?
    ensures steps' == steps + [SetEx(c, NotDone)] && Legal(steps') && Enabled(Exec(steps), SetEx(c, NotDone))
    ensures var s, s', i := Exec(steps), Exec(steps'), Exec(steps).calls[c].answer;
      && i < |s.told| && s'.now == s.now && s'.store == s.store && s'.told == s.told
      && s'.calls == s.calls[c := Returned(s.calls[c].req, s.told[i].answer, Upstream(i), s.now)]
  {
    RunKeepsInv(steps);
    assert CallOk(Exec(steps), c);
    var s;
    steps', s := Then(steps, SetEx(c, NotDone));
  }

  /** Two overlapping calls: the second asks and returns last what is older. */
  lemma OverlapGoesBack(steps: seq<Step>, c: nat, d: nat) returns (before: seq<Step>)
    requires Legal(steps) && c < d < |Exec(steps).calls|
    requires Active(Exec(steps).calls[c]) && Exec(steps).calls[d].Getting?
    requires Exec(steps).calls[c].req == Exec(steps).calls[d].req && Dead(Exec(steps), Key(Exec(steps).calls[c].req))
    ensures LeadsBack(steps, before, SetEx(c, NotDone), d, c)
  {
    var r := Exec(steps).calls[c].req;
    var one, i := ActiveAnswered(steps, c, Ok(""));
    var a := Exec(one).told[i].answer;
    var two, j := ActiveAnswered(one, d, Other(r.op, a));
    before := AnsweredReturns(two, d);
    var after := AnsweredReturns(before, c);
    TwoAnswers(Exec(one), Exec(two), Exec(before), Exec(after), c, d, i, j);
  }

  lemma TwoAnswers(one: State, two: State, before: State, after: State, c: nat, d: nat, i: nat, j: nat)
    requires c < d < |one.calls| && one.calls[c].Setting? && one.calls[c].answer == i < j == |one.told|
    requires one.calls[c].req == one.calls[d].req && Answered(one, d, j, two)
    requires two.told[j].answer == Other(one.calls[c].req.op, one.told[i].answer)
    requires before.told == two.told
    requires before.calls == two.calls[d := Returned(two.calls[d].req, two.told[j].answer, Upstream(j), two.now)]
    requires after.calls
               == before.calls[c := Returned(before.calls[c].req, before.told[i].answer, Upstream(i), before.now)]
    ensures GoesBack(before, after, d, c)
  {
  }

  /** A begin beside another call for the same request. */
  lemma CarelessBeginGoesBack(steps: seq<Step>, r: Request, c: nat) returns (before: seq<Step>, d: nat)
    requires Legal(steps) && RequestOk(r) && c < |Exec(steps).calls|
    requires Active(Exec(steps).calls[c]) && Exec(steps).calls[c].req == r
    ensures LeadsBack(steps + [Begin(r)], before, SetEx(c, NotDone), d, c)
  {
    d := |Exec(steps).calls|;
    var begun, s1 := Then(steps, Begin(r));
    var late, s2 := Then(begun, Pass(TTL));
    RunKeepsInv(begun);
    assert Key(r) in s1.store ==> EntryOk(s1, Key(r));
    before := OverlapGoesBack(late, c, d);
  }

  /** A failed get of something live: the call returns a newer answer, and the next one the old entry. */
  lemma CarelessGetGoesBack(steps: seq<Step>, b: nat) returns (before: seq<Step>, c: nat)
    requires Legal(steps) && Enabled(Exec(steps), Get(b, false)) && Live(Exec(steps), Key(Exec(steps).calls[b].req))
    ensures LeadsBack(steps + [Get(b, false)], before, Get(c, true), b, c)
  {
    var s := Exec(steps);
    var r := s.calls[b].req;
    RunKeepsInv(steps);
    var i := LiveEntry(s, b);
    c := |s.calls|;
    var returned := MissedReturns(steps, b, Other(r.op, s.told[i].answer));
    var s2;
    before, s2 := Then(returned, Begin(r));
    OldEntryIsRead(s, s2, b, c, r, i);
  }

  lemma LiveEntry(s: State, b: nat) returns (i: nat)
    requires Inv(s) && b < |s.calls| && Live(s, Key(s.calls[b].req))
    ensures RequestOk(s.calls[b].req) && EntryOk(s, Key(s.calls[b].req)) && i == s.store[Key(s.calls[b].req)].from
    ensures i < |s.told| && s.told[i].req == s.calls[b].req && Cacheable(s.told[i].answer)
    ensures AnswerOk(s.told[i].req.op, s.told[i].answer)
  {
    var r := s.calls[b].req;
    assert CallOk(s, b) && EntryOk(s, Key(r));
    i := s.store[Key(r)].from;
    KeyInjective(r, s.told[i].req);
  }

  /** A call whose get fails asks, and returns `a` without storing it. */
  lemma MissedReturns(steps: seq<Step>, b: nat, a: Answer) returns (steps': seq<Step>)
    requires Legal(steps) && Enabled(Exec(steps), Get(b, false))
    requires AnswerOk(Exec(steps).calls[b].req.op, a) && Cacheable(a)
    ensures steps + [Get(b, false)] <= steps' && Legal(steps')
    ensures var s, s' := Exec(steps), Exec(steps');
      && s'.now == s.now && s'.store == s.store && s.told <= s'.told
      && s'.calls == s.calls[b := Returned(s.calls[b].req, a, Upstream(|s.told|), s.now)]
  {
    var s, s1 := Exec(steps), Exec(steps);
    steps', s1 := Then(steps, Get(b, false));
    steps' := AskingAnswered(steps', b, a);
    steps' := AnsweredReturns(steps', b);
    assert Exec(steps').calls == s.calls[b := Returned(s.calls[b].req, a, Upstream(|s.told|), s.now)];
  }

  lemma OldEntryIsRead(s: State, s2: State, b: nat, c: nat, r: Request, i: nat)
    requires Live(s, Key(r)) && s.store[Key(r)].from == i < |s.told| && EntryOk(s, Key(r)) && s.told[i].req == r
    requires b < c == |s.calls| && s2.now == s.now && s2.store == s.store && s.told <= s2.told
    requires s2.calls
               == s.calls[b := Returned(r, Other(r.op, s.told[i].answer), Upstream(|s.told|), s.now)] + [Getting(r)]
    ensures Enabled(s2, Get(c, true)) && GoesBack(s2, Apply(s2, Get(c, true)), b, c)
  {
    CachedAnswerRoundTrips(r.op, s.told[i].answer);
  }

  /** So carefulness is exactly what every step must have: after any run, careful or not, a step that
      is not careful can be continued so that a call returns an older answer after a newer one. */
  lemma CarelessStepsGoBack(steps: seq<Step>, st: Step) returns (before: seq<Step>, last: Step, b: nat, c: nat)
    requires Legal(steps) && Enabled(Exec(steps), st) && !Careful(Exec(steps), st)
    ensures LeadsBack(steps + [st], before, last, b, c)
  {
    if st.Begin? {
      c :| 0 <= c < |Exec(steps).calls| && Active(Exec(steps).calls[c]) && Exec(steps).calls[c].req == st.req;
      before, b := CarelessBeginGoesBack(steps, st.req, c);
      last := SetEx(c, NotDone);
    } else {
      b := st.c;
      before, c := CarelessGetGoesBack(steps, b);
      last := Get(c, true);
    }
  }

  // ---- a feed through the cache ----

  /** GitHub never comes back to a tag it left, and does not use the sentinel. */
  ghost predicate TagsNeverReturn(told: seq<Told>, r: Request) {
    && (forall i :: 0 <= i < |told| && told[i].req == r ==> told[i].answer != Ok("__none__"))
    && (forall i, j, k :: i < j < k && IsTag(told, i, r) && IsTag(told, j, r) && IsTag(told, k, r)
          && told[i].answer == told[k].answer
          ==> told[j].answer == told[i].answer)
  }

  predicate IsTag(told: seq<Told>, i: int, r: Request) {
    0 <= i < |told| && told[i].req == r && told[i].answer.Ok? && told[i].answer.tag != ""
  }

  predicate ReturnedTag(s: State, c: int, r: Request) {
    0 <= c < |s.calls| && s.calls[c].Returned? && s.calls[c].req == r
    && s.calls[c].result.Ok? && s.calls[c].result.tag != ""
  }

  /** The calls for one request follow each other, and so do the answers they return. */
  ghost predicate InOrder(s: State) {
    && (forall b, c :: 0 <= b < c < |s.calls| && s.calls[b].req == s.calls[c].req ==> !Active(s.calls[b]))
    && (forall b, c :: 0 <= b < c < |s.calls| && s.calls[b].req == s.calls[c].req
          && s.calls[b].Returned? && s.calls[c].Returned?
          ==> s.calls[b].source.answer <= s.calls[c].source.answer)
  }

  /** A call that returns does so with the latest answer. */
  lemma ReturnsLatest(s: State, st: Step, c: nat)
    requires Inv(s) && ForwardInv(s) && Enabled(s, st) && c < |s.calls|
    requires !s.calls[c].Returned? && Apply(s, st).calls[c].Returned?
    ensures Apply(s, st).calls[c].source.answer < |Apply(s, st).told|
    ensures IsLatest(Apply(s, st), Apply(s, st).calls[c].source.answer)
    ensures Apply(s, st).told[Apply(s, st).calls[c].source.answer].req == s.calls[c].req
  {
    assert CallIsForward(s, c) && CallOk(s, c);
    SteppedCallOk(s, st);
    if st.Get? {
      assert EntryIsForward(s, Key(s.calls[c].req));
    }
  }

  lemma StepKeepsOrder(s: State, st: Step)
    requires Inv(s) && ForwardInv(s) && InOrder(s) && Enabled(s, st) && Careful(s, st)
    ensures InOrder(Apply(s, st))
  {
    var s' := Apply(s, st);
    StepKeepsInv(s, st);
    forall b, c | 0 <= b < c < |s'.calls| && s'.calls[b].req == s'.calls[c].req
                  && s'.calls[b].Returned? && s'.calls[c].Returned?
      ensures s'.calls[b].source.answer <= s'.calls[c].source.answer
    {
      if !s.calls[c].Returned? {
        ReturnsLatest(s, st, c);
        assert CallOk(s', b);
      }
    }
  }

  lemma {:induction false} RunKeepsOrder(steps: seq<Step>)
    requires Legal(steps) && CarefulRun(steps)
    ensures InOrder(Exec(steps))
  {
    if steps != [] {
      var n := |steps| - 1;
      RunKeepsOrder(steps[..n]);
      RunKeepsInv(steps[..n]);
      RunKeepsForward(steps[..n]);
      StepKeepsOrder(Exec(steps[..n]), steps[n]);
    }
  }

  /** What a careful call returns as a tag is a tag GitHub told. */
  lemma ReturnedTagWasTold(s: State, c: nat, r: Request)
    requires Inv(s) && TagsNeverReturn(s.told, r) && ReturnedTag(s, c, r)
    ensures var i := s.calls[c].source.answer; IsTag(s.told, i, r) && s.told[i].answer == s.calls[c].result
  {
    assert CallOk(s, c);
    var i := s.calls[c].source.answer;
    if s.calls[c].source.Cached? {
      CachedAnswerRoundTrips(r.op, s.told[i].answer);
    }
  }

  /** In a careful run the tags the cached client returns never come back to one they left, if
      GitHub's never do. */
  lemma CarefulTagsNeverReturn(steps: seq<Step>, r: Request, b: nat, c: nat, d: nat)
    requires Legal(steps) && CarefulRun(steps) && TagsNeverReturn(Exec(steps).told, r) && b < c < d
    requires var s := Exec(steps); ReturnedTag(s, b, r) && ReturnedTag(s, c, r) && ReturnedTag(s, d, r)
    requires Exec(steps).calls[b].result == Exec(steps).calls[d].result
    ensures Exec(steps).calls[c].result == Exec(steps).calls[b].result
  {
    RunKeepsInv(steps);
    RunKeepsOrder(steps);
    var s := Exec(steps);
    ReturnedTagWasTold(s, b, r);
    ReturnedTagWasTold(s, c, r);
    ReturnedTagWasTold(s, d, r);
  }

  // ---- one undisturbed call ----

  /** What the store shows of an entry. */
  datatype Stamp = Stamp(text: string, writtenAt: nat)

  function Plain(store: map<string, Entry>): map<string, Stamp> {
    map k | k in store :: Stamp(store[k].text, store[k].writtenAt)
  }

  function Read(entries: map<string, Stamp>, r: Request, now: nat, works: bool): Option<Answer> {
    if works && Key(r) in entries && now < entries[Key(r)].writtenAt + TTL
    then Decode(r.op, entries[Key(r)].text) else None
  }

  function ReadThrough(entries: map<string, Stamp>, r: Request, now: nat, works: bool, upstream: Answer): Answer {
    var hit := Read(entries, r, now, works);
    if hit.Some? then hit.value else upstream
  }

  function StoreAfter(entries: map<string, Stamp>, r: Request, now: nat, works: bool, upstream: Answer, later: nat,
                      o: Outcome): map<string, Stamp>
    requires AnswerOk(r.op, upstream)
  {
    if Read(entries, r, now, works).None? && Cacheable(upstream) && o.Applied()
    then entries[Key(r) := Stamp(Encode(r.op, upstream), later)] else entries
  }

  /** A success or not-found that a call brought and whose write took effect is what every working get
      reads in the ten minutes after the write (the sentinel tag as no release); a rate limit or a
      failure leaves the store, and so the next answer, as they were. */
  lemma AnswerIsReadBack(entries: map<string, Stamp>, r: Request, now: nat, works: bool, upstream: Answer, later: nat,
                         o: Outcome, next: nat, nextUpstream: Answer)
    requires AnswerOk(r.op, upstream) && Read(entries, r, now, works).None?
    ensures var stored := StoreAfter(entries, r, now, works, upstream, later, o);
      && (o != NotDone && (upstream.Ok? || upstream == NotFound) && next < later + 600_000_000_000 ==>
            ReadThrough(stored, r, next, true, nextUpstream)
            == if r.op == Latest && upstream == Ok("__none__") then Ok("") else upstream)
      && (o != NotDone && (upstream.Ok? || upstream == NotFound) && next >= later + 600_000_000_000 ==>
            ReadThrough(stored, r, next, true, nextUpstream) == nextUpstream)
      && (o == NotDone || upstream == RateLimited || upstream == Failed ==> stored == entries)
  {
    if Cacheable(upstream) {
      CachedAnswerRoundTrips(r.op, upstream);
    }
  }

  /** And a call writes no entry but its own request's. */
  lemma StoresOnlyItsOwn(entries: map<string, Stamp>, r: Request, now: nat, works: bool, upstream: Answer, later: nat,
                         o: Outcome, other: Request, next: nat, nextUpstream: Answer)
    requires AnswerOk(r.op, upstream) && RequestOk(r) && RequestOk(other) && other != r
    ensures var stored := StoreAfter(entries, r, now, works, upstream, later, o);
            ReadThrough(stored, other, next, true, nextUpstream)
            == ReadThrough(entries, other, next, true, nextUpstream)
  {
    KeyInjective(r, other);
  }

  lemma ReadIsHit(s: State, r: Request, works: bool)
    ensures Read(Plain(s.store), r, s.now, works) == Hit(s, r, works)
  {
  }

  lemma PlainFetched(s: State, r: Request, a: Answer, delay: nat, o: Outcome)
    requires AnswerOk(r.op, a) && Cacheable(a)
    ensures Plain(Fetched(s, r, a, delay, o).store)
            == if o.Applied() then Plain(s.store)[Key(r) := Stamp(Encode(r.op, a), s.now + delay)] else Plain(s.store)
  {
  }

  /** The machine's steps of one call that nothing interrupts, `delay` from answer to write: it
      answers and stores what the class below answers and stores. */
  lemma UndisturbedMatches(s: State, r: Request, works: bool, upstream: Answer, delay: nat, o: Outcome)
    requires RequestOk(r) && AnswerOk(r.op, upstream)
    ensures var c := |s.calls|;
            var s2 := Apply(Apply(s, Begin(r)), Get(c, works));
            var result := ReadThrough(Plain(s.store), r, s.now, works, upstream);
            var stored := StoreAfter(Plain(s.store), r, s.now, works, upstream, s.now + delay, o);
      if Hit(s, r, works).Some? then
        s2.calls[c].Returned? && s2.calls[c].result == result && Plain(s2.store) == stored
      else
        && s2.calls[c].Asking?
        && var s3 := Apply(s2, Ask(c, upstream));
           if !Cacheable(upstream) then
             s3.calls[c].Returned? && s3.calls[c].result == result && Plain(s3.store) == stored
           else
             var s4 := Apply(s3, Pass(delay));
             && Enabled(s4, SetEx(c, o))
             && var s5 := Apply(s4, SetEx(c, o));
                s5.calls[c].Returned? && s5.calls[c].result == result && Plain(s5.store) == stored
  {
    ReadIsHit(s, r, works);
    if Hit(s, r, works).None? && Cacheable(upstream) {
      FetchSteps(s, r, works, upstream, delay, o);
      PlainFetched(s, r, upstream, delay, o);
    }
  }
}

module CacheObject {
  import opened Common
  import opened Cache

  class Store {
    var entries: map<string, Stamp>

    constructor ()
      ensures entries == map[]
    {
      entries := map[];
    }

    method Get(key: string, now: nat, works: bool) returns (v: Option<string>)
      ensures v == if works && key in entries && now < entries[key].writtenAt + TTL
                   then Some(entries[key].text) else None
    {
      v := if works && key in entries && now < entries[key].writtenAt + TTL then Some(entries[key].text) else None;
    }

    method SetEx(key: string, text: string, now: nat, o: Outcome)
      modifies this
      ensures entries == if o.Applied() then old(entries)[key := Stamp(text, now)] else old(entries)
    {
      if o.Applied() {
        entries := entries[key := Stamp(text, now)];
      }
    }
  }

  /** `works`, `upstream`, `later` and `o` are the environment's: does the get work, what would the
      plain client answer, when does the write happen and how does it end. */
  class CachedClient {
    const store: Store

    constructor (store: Store)
      ensures this.store == store
    {
      this.store := store;
    }

    method ValidateRepo(owner: string, repo: string, now: nat, works: bool, upstream: Answer, later: nat, o: Outcome)
      returns (r: Answer)
      requires AnswerOk(Validate, upstream)
      modifies store
      ensures r == ReadThrough(old(store.entries), Request(Validate, owner, repo), now, works, upstream)
      ensures store.entries
              == StoreAfter(old(store.entries), Request(Validate, owner, repo), now, works, upstream, later, o)
      ensures var key := "gh:validate:" + owner + "/" + repo;
        if !works || key !in old(store.entries) then r == upstream
        else
          var e := old(store.entries)[key];
          && (now >= e.writtenAt + 600_000_000_000 ==> r == upstream)
          && (now < e.writtenAt + 600_000_000_000 && e.text == "ok" ==> r == Ok(""))
          && (now < e.writtenAt + 600_000_000_000 && e.text == "404" ==> r == NotFound)
          && (e.text != "ok" && e.text != "404" ==> r == upstream)
    {
      var key := "gh:validate:" + owner + "/" + repo;
      var v := store.Get(key, now, works);
      if v.Some? {
        if v.value == CACHED_OK {
          return Ok("");
        } else if v.value == CACHED_NOT_FOUND {
          return NotFound;
        }
      }
      if upstream.Ok? {
        store.SetEx(key, CACHED_OK, later, o);
      } else if upstream.NotFound? {
        store.SetEx(key, CACHED_NOT_FOUND, later, o);
      }
      return upstream;
    }

    method GetLatestRelease(owner: string, repo: string, now: nat, works: bool, upstream: Answer, later: nat,
                            o: Outcome)
      returns (r: Answer)
      requires AnswerOk(Latest, upstream)
      modifies store
      ensures r == ReadThrough(old(store.entries), Request(Latest, owner, repo), now, works, upstream)
      ensures store.entries
              == StoreAfter(old(store.entries), Request(Latest, owner, repo), now, works, upstream, later, o)
      ensures var key := "gh:latest:" + owner + "/" + repo;
        if !works || key !in old(store.entries) then r == upstream
        else
          var e := old(store.entries)[key];
          && (now >= e.writtenAt + 600_000_000_000 ==> r == upstream)
          && (now < e.writtenAt + 600_000_000_000 ==> r == Ok(if e.text == "__none__" then "" else e.text))
    {
      var key := "gh:latest:" + owner + "/" + repo;
      var v := store.Get(key, now, works);
      if v.Some? {
        return if v.value == CACHED_EMPTY_TAG then Ok("") else Ok(v.value);
      }
      if !upstream.Ok? {
        return upstream;
      }
      store.SetEx(key, if upstream.tag == "" then CACHED_EMPTY_TAG else upstream.tag, later, o);
      return upstream;
    }
  }
}
