/** The state machine and the objects agree: the steps of one call or one check that nothing
    interrupts do to the database and the stream exactly what the service and scanner objects do. */
module SoloRuns {
  import opened Common
  import opened History
  import opened SystemModel
  import opened WorldState
  import Bus
  import RepoFormat
  import Store
  import ScanCycle
  import ServiceSpec
  import ScannerSpec

  /** The steps of a subscribe up to the insert of its rows. */
  function SubscribeSteps(c: nat, email: string, repo: string, unsub: string, confirm: string, o: Outcome): seq<Step> {
    [BeginSubscribe(c, email, repo), CheckExisting(c), ValidateRepo(c), CreateRows(c, unsub, confirm, o)]
  }

  /** The checks of a subscribe leave database and stream alone. */
  lemma CreateReached(at: seq<Sys>, steps: seq<Step>, c: nat, email: string, repo: string)
    requires Path(at, steps) && |steps| > 3
    requires steps[0] == BeginSubscribe(c, email, repo) && steps[1] == CheckExisting(c) && steps[2] == ValidateRepo(c)
    ensures RepoFormat.MatchString(repo) && !Store.PairTaken(at[0].db, email, repo)
    ensures at[3] == at[0].(calls := at[0].calls[c := Creating(email, repo)])
  {
    assert Hop(at, steps, 0) && Hop(at, steps, 1) && Hop(at, steps, 2);
  }

  /** Subscribe, in an environment that lets it come to the insert: a confirmation that cannot be
      composed is one that is not sent. */
  lemma SubscribeAlone(at: seq<Sys>, c: nat, email: string, repo: string, env: ServiceSpec.SubscribeEnv)
    requires env.lookup && env.github.Exists? && env.unsub.Some? && env.confirm.Some?
    requires Path(at, SubscribeSteps(c, email, repo, env.unsub.value, env.confirm.value, env.create))
    ensures c in at[4].calls ==> at[4].calls[c].Mailing?
    ensures var s5 := if c in at[4].calls then DoMail(at[4], c, if env.composed then env.mail else NotDone) else at[4];
            var (w, r) := ServiceSpec.Subscribe(World(at[0].db, at[0].stream), email, repo, env);
      && w == World(s5.db, s5.stream)
      && (r == ServiceSpec.Success <==> c in at[4].calls)
      && c !in s5.calls
  {
    var steps := SubscribeSteps(c, email, repo, env.unsub.value, env.confirm.value, env.create);
    CreateReached(at, steps, c, email, repo);
    CreatedOnPath(at, steps, c, email, repo, env);
    CreateMatches(at[3], c, email, repo, env);
  }

  lemma CreatedOnPath(at: seq<Sys>, steps: seq<Step>, c: nat, email: string, repo: string,
                      env: ServiceSpec.SubscribeEnv)
    requires Path(at, steps) && |steps| > 3 && env.unsub.Some? && env.confirm.Some?
    requires c in at[3].calls && at[3].calls[c] == Creating(email, repo)
    requires steps[3] == CreateRows(c, env.unsub.value, env.confirm.value, env.create)
    ensures at[4] == DoCreate(at[3], c, env.unsub.value, env.confirm.value, env.create)
  {
    assert Hop(at, steps, 3);
  }

  lemma CreateMatches(s: Sys, c: nat, email: string, repo: string, env: ServiceSpec.SubscribeEnv)
    requires c in s.calls && s.calls[c] == Creating(email, repo) && env.unsub.Some? && env.confirm.Some?
    ensures var s4 := DoCreate(s, c, env.unsub.value, env.confirm.value, env.create);
      && s4.stream == s.stream
      && s4.db == (if env.create.Applied()
                   then Store.Create(s.db, email, repo, env.unsub.value, env.confirm.value) else s.db)
      && (c in s4.calls <==> env.create.Done? && Store.CanCreate(s.db, email, repo, env.unsub.value, env.confirm.value))
      && (c in s4.calls ==>
            && s4.calls[c].Mailing?
            && var s5 := DoMail(s4, c, if env.composed then env.mail else NotDone);
               && c !in s5.calls && s5.db == s4.db
               && s5.stream == ServiceSpec.Mailed(s.stream, email, env.confirm.value, env.composed, env.mail))
  {
  }

  lemma ConfirmSteps(s: Sys, c: nat, env: ServiceSpec.ConfirmEnv)
    requires c in s.calls && s.calls[c].Confirming?
    ensures var s3 := DoConfirm(s, c, env.confirm);
      && s3.stream == s.stream
      && s3.db == (if env.confirm.Applied() then Store.Confirm(s.db, s.calls[c].who.sub) else s.db)
      && (c in s3.calls <==> env.confirm.Done?)
      && (c in s3.calls ==>
            && s3.calls[c].Dropping?
            && var s4 := DoDropToken(s3, c, env.drop);
               && c !in s4.calls && s4.stream == s.stream
               && s4.db == if env.drop.Applied() then Store.DropToken(s3.db, s.calls[c].token) else s3.db)
  {
  }

  /** Confirm with a token that is there. */
  lemma ConfirmAlone(s: Sys, c: nat, value: string, env: ServiceSpec.ConfirmEnv, s1: Sys, s2: Sys)
    requires Store.TokensLive(s.db) && c !in s.calls && value != "" && Store.TokenTaken(s.db, value) && env.lookup
    requires s1 == Apply(s, BeginConfirm(c, value))
    requires Next(s1, FindToken(c, ServiceSpec.TokenRow(s.db, value)), s2)
    ensures var (db, r) := ServiceSpec.Confirm(s.db, value, env);
      && Enabled(s2, ConfirmRow(c, env.confirm))
      && var s3 := DoConfirm(s2, c, env.confirm);
         var s4 := if c in s3.calls then DoDropToken(s3, c, env.drop) else s3;
         && s4.db == db && s4.stream == s.stream
         && (r == ServiceSpec.Success <==> c in s3.calls)
         && c !in s4.calls
  {
    var t := ServiceSpec.TokenRow(s.db, value);
    assert s2.calls[c] == Confirming(t, WhoOf(s.db, s.db.tokens[t].sub), value) && s2.db == s.db;
    ConfirmSteps(s2, c, env);
  }

  /** Unsubscribe with a token that is there. */
  lemma UnsubscribeAlone(s: Sys, c: nat, value: string, env: ServiceSpec.UnsubscribeEnv)
    requires c !in s.calls && value != "" && Store.UnsubTaken(s.db, value) && env.lookup
    ensures var id := ServiceSpec.UnsubRow(s.db, value);
            var s1 := Apply(s, BeginUnsubscribe(c, value));
      && Enabled(s1, FindUnsub(c, id))
      && var s3 := Apply(Apply(s1, FindUnsub(c, id)), DeleteRow(c, env.delete));
         && s3.db == ServiceSpec.Unsubscribe(s.db, value, env).0 && s3.stream == s.stream
         && (ServiceSpec.Unsubscribe(s.db, value, env).1 == ServiceSpec.Success <==> env.delete == Done)
         && c !in s3.calls
  {
    var id := ServiceSpec.UnsubRow(s.db, value);
    var s1 := Apply(s, BeginUnsubscribe(c, value));
    var s2 := Apply(s1, FindUnsub(c, id));
    assert Apply(s2, DeleteRow(c, env.delete)) == DoDelete(s2, c, env.delete);
  }

  // ---- one check ----

  /** The handler of worker `i` has moved from `s` to `s'`, and nothing shared has changed. */
  predicate Moved(s: Sys, i: nat, h: ScanCycle.Check, s': Sys)
    requires InHandler(s, i)
  {
    InHandler(s', i) && Handler(s', i) == h && Job(s', i) == Job(s, i)
  }

  lemma MoveToMoves(s: Sys, i: nat, h: ScanCycle.Check)
    requires InHandler(s, i) && ScanCycle.CanMove(s.cycle.value, i, h)
    ensures Moved(s, i, h, MoveTo(s, i, h))
  {
  }

  lemma FetchStep(s: Sys, i: nat, tag: string, s1: Sys, s2: Sys)
    requires InHandler(s, i) && Next(s, FetchTag(i, tag), s1) && Next(s1, ReadCursor(i), s2)
    ensures Moved(s, i, ScanCycle.Compared(tag, |s.log|, Lookup(s.db.watched, Job(s, i))), s2)
    ensures s2.db == s.db && s2.stream == s.stream
  {
    MoveToMoves(s, i, ScanCycle.Fetched(tag, |s.log|));
    MoveToMoves(s1, i, ScanCycle.Compared(tag, |s.log|, Lookup(s.db.watched, Job(s, i))));
  }

  lemma SendMoves(s: Sys, i: nat, h: ScanCycle.Check, o: Outcome, s': Sys)
    requires InHandler(s, i) && Handler(s, i) == h && h.Sending? && Next(s, Send(i, o), s')
    ensures h.sent < |h.recs|
    ensures var who := h.recs[h.sent];
      && Moved(s, i, h.(sent := h.sent + 1, allSent := h.allSent && o.Done?), s')
      && s'.db == s.db
      && s'.stream == Bus.Publish(s.stream, ScannerSpec.Id(who.repo, h.tag, who.email),
                                  Bus.ReleaseCommand(who.repo, h.tag, who.email), o)
  {
    DoSendMoves(s, i, h, o);
  }

  lemma DoSendMoves(s: Sys, i: nat, h: ScanCycle.Check, o: Outcome)
    requires InHandler(s, i) && Handler(s, i) == h && h.Sending? && h.sent < |h.recs|
    ensures var who, s' := h.recs[h.sent], DoSend(s, i, o);
      && Moved(s, i, h.(sent := h.sent + 1, allSent := h.allSent && o.Done?), s')
      && s'.db == s.db
      && s'.stream == Bus.Publish(s.stream, ScannerSpec.Id(who.repo, h.tag, who.email),
                                  Bus.ReleaseCommand(who.repo, h.tag, who.email), o)
  {
    MoveToMoves(s, i, h.(sent := h.sent + 1, allSent := h.allSent && o.Done?));
  }

  /** `s'` is `s` after the first `n` sends of the loop. */
  predicate SentSoFar(s: Sys, i: nat, h: ScanCycle.Check, sends: nat -> Outcome, emails: seq<string>, n: nat, s': Sys)
    requires InHandler(s, i) && h.Sending? && n <= |emails|
  {
    && Moved(s, i, h.(sent := n, allSent := ScannerSpec.AllSent(sends, n)), s') && s'.db == s.db
    && s'.stream == ScannerSpec.Sent(s.stream, Job(s, i), h.tag, emails, sends, n)
  }

  lemma SentOneMore(s: Sys, i: nat, h: ScanCycle.Check, sends: nat -> Outcome, emails: seq<string>, n: nat, s1: Sys,
                    s2: Sys)
    requires InHandler(s, i) && h.Sending? && n < |emails| && SentSoFar(s, i, h, sends, emails, n, s1)
    requires n < |h.recs| && h.recs[n].repo == Job(s, i) && h.recs[n].email == emails[n]
    requires Next(s1, Send(i, sends(n)), s2)
    ensures SentSoFar(s, i, h, sends, emails, n + 1, s2)
  {
    SendMoves(s1, i, h.(sent := n, allSent := ScannerSpec.AllSent(sends, n)), sends(n), s2);
  }

  /** The machine's send steps, from the `b`-th state of a path on, are the send loop. */
  lemma {:induction false} SendsMatch(at: seq<Sys>, steps: seq<Step>, b: nat, i: nat, h: ScanCycle.Check,
                                      sends: nat -> Outcome, emails: seq<string>, n: nat)
    requires Path(at, steps) && b + n <= |steps| && forall k: nat :: k < n ==> steps[b + k] == Send(i, sends(k))
    requires InHandler(at[b], i) && Handler(at[b], i) == h && h.Sending? && h.sent == 0 && h.allSent
    requires n <= |h.recs| == |emails|
    requires forall k :: 0 <= k < |emails| ==> h.recs[k].repo == Job(at[b], i) && h.recs[k].email == emails[k]
    ensures SentSoFar(at[b], i, h, sends, emails, n, at[b + n])
  {
    if n > 0 {
      SendsMatch(at, steps, b, i, h, sends, emails, n - 1);
      SendsStep(at, steps, b, i, h, sends, emails, n - 1);
    }
  }

  lemma SendsStep(at: seq<Sys>, steps: seq<Step>, b: nat, i: nat, h: ScanCycle.Check,
                  sends: nat -> Outcome, emails: seq<string>, n: nat)
    requires Path(at, steps) && b + n < |steps| && steps[b + n] == Send(i, sends(n))
    requires InHandler(at[b], i) && h.Sending? && n < |emails| && SentSoFar(at[b], i, h, sends, emails, n, at[b + n])
    requires n < |h.recs| && h.recs[n].repo == Job(at[b], i) && h.recs[n].email == emails[n]
    ensures SentSoFar(at[b], i, h, sends, emails, n + 1, at[b + n + 1])
  {
    assert Hop(at, steps, b + n);
    SentOneMore(at[b], i, h, sends, emails, n, at[b + n], at[b + n + 1]);
  }

  lemma SnapshotMatches(s: Sys, i: nat, ids: seq<nat>)
    requires InHandler(s, i) && Handler(s, i).Compared? && Store.IsConfirmedList(s.db, Job(s, i), ids)
    ensures forall k :: 0 <= k < |ids| ==> ids[k] in s.db.subs
    ensures var s', emails := DoSnapshot(s, i, ids), ScannerSpec.EmailsOf(s.db.subs, ids);
      && s'.db == s.db && s'.stream == s.stream && InHandler(s', i) && Job(s', i) == Job(s, i)
      && var h := Handler(s', i);
         && h.Sending? && h.sent == 0 && h.allSent && h.tag == Handler(s, i).tag && |h.recs| == |ids|
         && forall k :: 0 <= k < |ids| ==> h.recs[k].repo == Job(s, i) && h.recs[k].email == emails[k]
  {
    assert forall k :: 0 <= k < |ids| ==> ids[k] in ids;
    var h := Handler(s, i);
    var recs := seq(|ids|, k requires 0 <= k < |ids| => WhoOf(s.db, ids[k]));
    MoveToMoves(s, i, ScanCycle.Sending(h.tag, h.fetchAt, |s.log|, recs, 0, true));
  }

  lemma SaveMatches(s: Sys, i: nat, o: Outcome, s': Sys)
    requires Next(s, Save(i, o), s')
    ensures World(s'.db, s'.stream)
            == ScannerSpec.Saved(World(s.db, s.stream), Job(s, i), Handler(s, i).tag, o)
  {
    assert s' == DoSave(s, i, o);
  }

  lemma DecideMoves(s: Sys, i: nat, s': Sys)
    requires Next(s, DecideQuiet(i), s') || Next(s, DecideLoud(i), s')
    ensures InHandler(s', i) && Handler(s', i).Saving? && Handler(s', i).tag == Handler(s, i).tag
    ensures Job(s', i) == Job(s, i) && s'.db == s.db && s'.stream == s.stream
  {
    var h := Handler(s, i);
    MoveToMoves(s, i, ScanCycle.Saving(h.tag, h.fetchAt, if h.Sending? then Some(h.at) else None));
  }

  /** A check with nothing to announce writes the cursor as the scanner object does. */
  lemma QuietCheckAlone(at: seq<Sys>, i: nat, env: ScannerSpec.CheckEnv, emails: seq<string>)
    requires env.fetch.Release? && env.fetch.tag != "" && env.readCursor
    requires Path(at, [FetchTag(i, env.fetch.tag), ReadCursor(i), DecideQuiet(i), Save(i, env.save)])
    requires InHandler(at[0], i) && |RepoFormat.SplitN(Job(at[0], i))| == 2
    requires !IsNewRelease(Lookup(at[0].db.watched, Job(at[0], i)), env.fetch.tag)
    ensures World(at[4].db, at[4].stream)
            == ScannerSpec.CheckRepo(World(at[0].db, at[0].stream), Job(at[0], i), env, emails).0
  {
    ghost var steps := [FetchTag(i, env.fetch.tag), ReadCursor(i), DecideQuiet(i), Save(i, env.save)];
    FetchedOnPath(at, steps, i, env.fetch.tag);
    DecidedOnPath(at, steps, 2, i);
    SavedOnPath(at, steps, 3, i, env.save);
  }

  lemma FetchedOnPath(at: seq<Sys>, steps: seq<Step>, i: nat, tag: string)
    requires Path(at, steps) && |steps| >= 2 && steps[0] == FetchTag(i, tag) && steps[1] == ReadCursor(i)
    requires InHandler(at[0], i)
    ensures Moved(at[0], i, ScanCycle.Compared(tag, |at[0].log|, Lookup(at[0].db.watched, Job(at[0], i))), at[2])
    ensures at[2].db == at[0].db && at[2].stream == at[0].stream
  {
    assert Hop(at, steps, 0) && Hop(at, steps, 1);
    FetchStep(at[0], i, tag, at[1], at[2]);
  }

  lemma DecidedOnPath(at: seq<Sys>, steps: seq<Step>, k: nat, i: nat)
    requires Path(at, steps) && k < |steps| && (steps[k] == DecideQuiet(i) || steps[k] == DecideLoud(i))
    requires InHandler(at[k], i) && !Handler(at[k], i).Fetched?
    ensures var s, s' := at[k], at[k + 1];
      && (Handler(s, i).Compared? || Handler(s, i).Sending?)
      && InHandler(s', i) && Handler(s', i).Saving? && Handler(s', i).tag == Handler(s, i).tag
      && Job(s', i) == Job(s, i) && s'.db == s.db && s'.stream == s.stream
  {
    assert Hop(at, steps, k);
    DecideMoves(at[k], i, at[k + 1]);
  }

  lemma SavedOnPath(at: seq<Sys>, steps: seq<Step>, k: nat, i: nat, o: Outcome)
    requires Path(at, steps) && k < |steps| && steps[k] == Save(i, o)
    requires InHandler(at[k], i) && Handler(at[k], i).Saving?
    ensures World(at[k + 1].db, at[k + 1].stream)
            == ScannerSpec.Saved(World(at[k].db, at[k].stream), Job(at[k], i), Handler(at[k], i).tag, o)
  {
    assert Hop(at, steps, k);
    SaveMatches(at[k], i, o, at[k + 1]);
  }

  lemma SnapshotOnPath(at: seq<Sys>, steps: seq<Step>, k: nat, i: nat, ids: seq<nat>)
    requires Path(at, steps) && k < |steps| && steps[k] == TakeSnapshot(i, ids)
    requires InHandler(at[k], i) && Handler(at[k], i).Compared?
    ensures var s, s', emails := at[k], at[k + 1], ScannerSpec.EmailsOf(at[k].db.subs, ids);
      && s'.db == s.db && s'.stream == s.stream && InHandler(s', i) && Job(s', i) == Job(s, i)
      && var h := Handler(s', i);
         && h.Sending? && h.sent == 0 && h.allSent && h.tag == Handler(s, i).tag && |h.recs| == |ids|
         && forall k :: 0 <= k < |ids| ==> h.recs[k].repo == Job(s, i) && h.recs[k].email == emails[k]
  {
    assert Hop(at, steps, k);
    SnapshotMatches(at[k], i, ids);
    assert at[k + 1] == DoSnapshot(at[k], i, ids);
  }

  lemma SnapshotReached(at: seq<Sys>, steps: seq<Step>, i: nat, ids: seq<nat>, tag: string)
    requires Path(at, steps) && |steps| >= 3 && InHandler(at[0], i)
    requires steps[0] == FetchTag(i, tag) && steps[1] == ReadCursor(i) && steps[2] == TakeSnapshot(i, ids)
    ensures var s, s', emails := at[0], at[3], ScannerSpec.EmailsOf(at[0].db.subs, ids);
      && s'.db == s.db && s'.stream == s.stream && InHandler(s', i) && Job(s', i) == Job(s, i)
      && var h := Handler(s', i);
         && h.Sending? && h.sent == 0 && h.allSent && h.tag == tag && |h.recs| == |ids|
         && forall k :: 0 <= k < |ids| ==> h.recs[k].repo == Job(s, i) && h.recs[k].email == emails[k]
  {
    FetchedOnPath(at, steps, i, tag);
    SnapshotOnPath(at, steps, 2, i, ids);
  }

  /** Everyone was tried: what the state after the send loop looks like. */
  ghost predicate SendsDone(s: Sys, i: nat, ids: seq<nat>, tag: string, sends: nat -> Outcome, s': Sys)
    requires InHandler(s, i)
  {
    && InHandler(s', i) && Job(s', i) == Job(s, i) && s'.db == s.db
    && Handler(s', i).Sending? && Handler(s', i).tag == tag && Handler(s', i).sent == |Handler(s', i).recs|
    && Handler(s', i).allSent == ScannerSpec.AllSent(sends, |ids|)
    && s'.stream == ScannerSpec.Sent(s.stream, Job(s, i), tag, ScannerSpec.EmailsOf(s.db.subs, ids), sends, |ids|)
  }

  lemma SendsOnPath(at: seq<Sys>, steps: seq<Step>, i: nat, ids: seq<nat>, tag: string, sends: nat -> Outcome)
    requires Path(at, steps) && InHandler(at[0], i) && IsRound(steps, i, tag, ids, sends)
    ensures SendsDone(at[0], i, ids, tag, sends, at[3 + |ids|])
  {
    SnapshotReached(at, steps, i, ids, tag);
    var h, emails, n := Handler(at[3], i), ScannerSpec.EmailsOf(at[0].db.subs, ids), |ids|;
    SendsMatch(at, steps, 3, i, h, sends, emails, n);
    assert Handler(at[3 + n], i) == h.(sent := n, allSent := ScannerSpec.AllSent(sends, n));
  }

  /** The save after a complete send loop. */
  lemma LoudSaveOnPath(at: seq<Sys>, steps: seq<Step>, i: nat, ids: seq<nat>, tag: string, sends: nat -> Outcome,
                       o: Outcome)
    requires Path(at, steps) && |steps| == 5 + |ids| && InHandler(at[0], i)
    requires steps[3 + |ids|] == DecideLoud(i) && steps[4 + |ids|] == Save(i, o)
    requires SendsDone(at[0], i, ids, tag, sends, at[3 + |ids|])
    ensures var s, s' := at[0], at[5 + |ids|];
      && s'.db == (if o.Applied() then Store.SaveTag(s.db, Job(s, i), tag) else s.db)
      && s'.stream == at[3 + |ids|].stream
  {
    DecidedOnPath(at, steps, 3 + |ids|, i);
    SavedOnPath(at, steps, 4 + |ids|, i, o);
  }

  lemma CheckAnnounces(w: World, repo: string, env: ScannerSpec.CheckEnv, emails: seq<string>)
    requires ScannerSpec.Announces(w, repo, env)
    ensures var stream := ScannerSpec.Sent(w.stream, repo, env.fetch.tag, emails, env.sends, |emails|);
            var saved := ScannerSpec.AllSent(env.sends, |emails|) && env.save.Applied();
            ScannerSpec.CheckRepo(w, repo, env, emails).0
            == World(if saved then Store.SaveTag(w.db, repo, env.fetch.tag) else w.db, stream)
  {
  }

  /** The steps up to the last send. */
  predicate IsRound(steps: seq<Step>, i: nat, tag: string, ids: seq<nat>, sends: nat -> Outcome) {
    && |steps| >= 3 + |ids|
    && steps[0] == FetchTag(i, tag) && steps[1] == ReadCursor(i) && steps[2] == TakeSnapshot(i, ids)
    && (forall k: nat :: k < |ids| ==> steps[3 + k] == Send(i, sends(k)))
  }

  /** The steps of a check that announces: the save comes only when all were accepted. */
  predicate IsLoud(steps: seq<Step>, i: nat, env: ScannerSpec.CheckEnv, ids: seq<nat>)
    requires env.fetch.Release?
  {
    var n := |ids|;
    && IsRound(steps, i, env.fetch.tag, ids, env.sends)
    && |steps| == 3 + n + (if ScannerSpec.AllSent(env.sends, n) then 2 else 0)
    && (ScannerSpec.AllSent(env.sends, n) ==> steps[3 + n] == DecideLoud(i) && steps[4 + n] == Save(i, env.save))
  }

  /** What the scanner object's check makes of an announcement. */
  ghost predicate Announced(s: Sys, i: nat, env: ScannerSpec.CheckEnv, ids: seq<nat>, s': Sys)
    requires InHandler(s, i) && env.fetch.Release?
  {
    var emails := ScannerSpec.EmailsOf(s.db.subs, ids);
    && s'.stream == ScannerSpec.Sent(s.stream, Job(s, i), env.fetch.tag, emails, env.sends, |ids|)
    && s'.db == if ScannerSpec.AllSent(env.sends, |ids|) && env.save.Applied()
                then Store.SaveTag(s.db, Job(s, i), env.fetch.tag) else s.db
  }

  lemma SavedIsAnnounced(s: Sys, i: nat, env: ScannerSpec.CheckEnv, ids: seq<nat>, s1: Sys, s2: Sys)
    requires InHandler(s, i) && env.fetch.Release? && SendsDone(s, i, ids, env.fetch.tag, env.sends, s1)
    requires if ScannerSpec.AllSent(env.sends, |ids|) then
               && s2.stream == s1.stream
               && s2.db == if env.save.Applied() then Store.SaveTag(s.db, Job(s, i), env.fetch.tag) else s.db
             else s2 == s1
    ensures Announced(s, i, env, ids, s2)
  {
  }

  lemma LoudSends(at: seq<Sys>, steps: seq<Step>, i: nat, env: ScannerSpec.CheckEnv, ids: seq<nat>)
    requires Path(at, steps) && InHandler(at[0], i) && env.fetch.Release? && IsLoud(steps, i, env, ids)
    ensures SendsDone(at[0], i, ids, env.fetch.tag, env.sends, at[3 + |ids|])
  {
    SendsOnPath(at, steps, i, ids, env.fetch.tag, env.sends);
  }

  lemma FullLoudIsAnnounced(at: seq<Sys>, steps: seq<Step>, i: nat, env: ScannerSpec.CheckEnv, ids: seq<nat>, n: nat)
    requires Path(at, steps) && InHandler(at[0], i) && env.fetch.Release? && n == |ids| && |steps| == 5 + n
    requires IsRound(steps, i, env.fetch.tag, ids, env.sends) && ScannerSpec.AllSent(env.sends, n)
    requires steps[3 + n] == DecideLoud(i) && steps[4 + n] == Save(i, env.save)
    ensures Announced(at[0], i, env, ids, at[5 + n])
  {
    SendsOnPath(at, steps, i, ids, env.fetch.tag, env.sends);
    LoudSaveOnPath(at, steps, i, ids, env.fetch.tag, env.sends, env.save);
    SavedIsAnnounced(at[0], i, env, ids, at[3 + n], at[5 + n]);
  }

  lemma PartLoudIsAnnounced(at: seq<Sys>, steps: seq<Step>, i: nat, env: ScannerSpec.CheckEnv, ids: seq<nat>, n: nat)
    requires Path(at, steps) && InHandler(at[0], i) && env.fetch.Release? && n == |ids| && |steps| == 3 + n
    requires IsRound(steps, i, env.fetch.tag, ids, env.sends) && !ScannerSpec.AllSent(env.sends, n)
    ensures Announced(at[0], i, env, ids, at[3 + n])
  {
    SendsOnPath(at, steps, i, ids, env.fetch.tag, env.sends);
    SavedIsAnnounced(at[0], i, env, ids, at[3 + n], at[3 + n]);
  }

  lemma LoudWorld(at: seq<Sys>, steps: seq<Step>, i: nat, env: ScannerSpec.CheckEnv, ids: seq<nat>)
    requires Path(at, steps) && InHandler(at[0], i) && env.fetch.Release? && IsLoud(steps, i, env, ids)
    ensures Announced(at[0], i, env, ids, at[|at| - 1])
  {
    if ScannerSpec.AllSent(env.sends, |ids|) {
      FullLoudIsAnnounced(at, steps, i, env, ids, |ids|);
    } else {
      PartLoudIsAnnounced(at, steps, i, env, ids, |ids|);
    }
  }

  /** A check that announces - snapshot, one send per recipient, and the save when all were
      accepted - has the effect of the scanner object's check. */
  lemma LoudCheckAlone(at: seq<Sys>, steps: seq<Step>, i: nat, env: ScannerSpec.CheckEnv, ids: seq<nat>)
    requires Path(at, steps) && InHandler(at[0], i)
    requires ScannerSpec.Announces(World(at[0].db, at[0].stream), Job(at[0], i), env)
    requires IsLoud(steps, i, env, ids)
    ensures var s' := at[|at| - 1];
            World(s'.db, s'.stream)
            == ScannerSpec.CheckRepo(World(at[0].db, at[0].stream), Job(at[0], i), env,
                                     ScannerSpec.EmailsOf(at[0].db.subs, ids)).0
  {
    LoudWorld(at, steps, i, env, ids);
    AnnouncedIsChecked(at[0], i, env, ids, at[|at| - 1]);
  }

  lemma AnnouncedIsChecked(s: Sys, i: nat, env: ScannerSpec.CheckEnv, ids: seq<nat>, s': Sys)
    requires InHandler(s, i) && ScannerSpec.Announces(World(s.db, s.stream), Job(s, i), env)
    requires Announced(s, i, env, ids, s')
    ensures World(s'.db, s'.stream)
            == ScannerSpec.CheckRepo(World(s.db, s.stream), Job(s, i), env, ScannerSpec.EmailsOf(s.db.subs, ids)).0
  {
    CheckAnnounces(World(s.db, s.stream), Job(s, i), env, ScannerSpec.EmailsOf(s.db.subs, ids));
  }

  // ---- and the machine can take those steps ----

  lemma Extend(at: seq<Sys>, steps: seq<Step>, st: Step) returns (at': seq<Sys>, steps': seq<Step>)
    requires Path(at, steps) && Enabled(at[|steps|], st)
    ensures at <= at' && steps' == steps + [st] && Path(at', steps') && at'[|steps'|] == Apply(at[|steps|], st)
  {
    at', steps' := at + [Apply(at[|steps|], st)], steps + [st];
    forall k: nat | k < |steps'|
      ensures Hop(at', steps', k)
    {
      if k < |steps| {
        assert Hop(at, steps, k);
      }
    }
  }

  lemma SendsRun(at: seq<Sys>, steps: seq<Step>, i: nat, h: ScanCycle.Check, sends: nat -> Outcome, n: nat)
    returns (at': seq<Sys>, steps': seq<Step>)
    requires Path(at, steps) && InHandler(at[|steps|], i) && Handler(at[|steps|], i) == h
    requires h.Sending? && h.sent == 0 && n <= |h.recs|
    ensures at <= at' && steps <= steps' && |steps'| == |steps| + n && Path(at', steps')
    ensures forall k: nat :: k < n ==> steps'[|steps| + k] == Send(i, sends(k))
    ensures InHandler(at'[|steps'|], i)
    ensures var h' := Handler(at'[|steps'|], i); h'.Sending? && h'.recs == h.recs && h'.sent == n
  {
    if n == 0 {
      at', steps' := at, steps;
    } else {
      var a, st := SendsRun(at, steps, i, h, sends, n - 1);
      SendIsEnabled(a[|st|], i, sends(n - 1));
      at', steps' := Extend(a, st, Send(i, sends(n - 1)));
    }
  }

  lemma SendIsEnabled(s: Sys, i: nat, o: Outcome)
    requires InHandler(s, i) && Handler(s, i).Sending? && Handler(s, i).sent < |Handler(s, i).recs|
    ensures Enabled(s, Send(i, o))
    ensures var h, s' := Handler(s, i), Apply(s, Send(i, o));
            InHandler(s', i) && Handler(s', i).Sending? && Handler(s', i).recs == h.recs
            && Handler(s', i).sent == h.sent + 1
  {
    SendMoves(s, i, Handler(s, i), o, Apply(s, Send(i, o)));
  }

  lemma FetchRuns(s: Sys, i: nat, tag: string) returns (at: seq<Sys>, steps: seq<Step>)
    requires InHandler(s, i) && Handler(s, i).Calling? && tag != ""
    ensures steps == [FetchTag(i, tag), ReadCursor(i)] && Path(at, steps) && at[0] == s
  {
    at, steps := [s], [];
    at, steps := Extend(at, steps, FetchTag(i, tag));
    MoveToMoves(s, i, ScanCycle.Fetched(tag, |s.log|));
    at, steps := Extend(at, steps, ReadCursor(i));
  }

  lemma SnapshotRuns(s: Sys, i: nat, tag: string, ids: seq<nat>) returns (at: seq<Sys>, steps: seq<Step>)
    requires InHandler(s, i) && Handler(s, i).Calling? && tag != ""
    requires IsNewRelease(Lookup(s.db.watched, Job(s, i)), tag) && Store.IsConfirmedList(s.db, Job(s, i), ids)
    ensures steps == [FetchTag(i, tag), ReadCursor(i), TakeSnapshot(i, ids)]
    ensures Path(at, steps) && at[0] == s
  {
    at, steps := FetchRuns(s, i, tag);
    FetchedOnPath(at, steps, i, tag);
    at, steps := Extend(at, steps, TakeSnapshot(i, ids));
  }

  /** The steps up to the last send. */
  lemma RoundRuns(s: Sys, i: nat, tag: string, sends: nat -> Outcome, ids: seq<nat>, n: nat)
    returns (at: seq<Sys>, steps: seq<Step>)
    requires InHandler(s, i) && Handler(s, i).Calling? && tag != "" && n == |ids|
    requires IsNewRelease(Lookup(s.db.watched, Job(s, i)), tag) && Store.IsConfirmedList(s.db, Job(s, i), ids)
    ensures Path(at, steps) && at[0] == s && |steps| == 3 + n && IsRound(steps, i, tag, ids, sends)
  {
    var a, st := SnapshotRuns(s, i, tag, ids);
    SnapshotReached(a, st, i, ids, tag);
    at, steps := SendsRun(a, st, i, Handler(a[3], i), sends, n);
    assert steps[0] == st[0] && steps[1] == st[1] && steps[2] == st[2];
  }

  lemma SaveRuns(at: seq<Sys>, steps: seq<Step>, i: nat, o: Outcome) returns (at': seq<Sys>, steps': seq<Step>)
    requires Path(at, steps) && InHandler(at[|steps|], i) && Handler(at[|steps|], i).Sending?
    requires Handler(at[|steps|], i).sent == |Handler(at[|steps|], i).recs| && Handler(at[|steps|], i).allSent
    ensures at <= at' && steps' == steps + [DecideLoud(i), Save(i, o)] && Path(at', steps')
  {
    DecideLoudIsEnabled(at[|steps|], i);
    at', steps' := Extend(at, steps, DecideLoud(i));
    at', steps' := Extend(at', steps', Save(i, o));
  }

  /** A check whose handler is in its GitHub call, in any state: when the cursor is present and
      another tag arrives, the steps of `IsLoud` can be taken, the save's two included when every
      send was accepted. */
  lemma AnnouncementRuns(s: Sys, i: nat, env: ScannerSpec.CheckEnv, ids: seq<nat>)
    returns (at: seq<Sys>, steps: seq<Step>)
    requires InHandler(s, i) && Handler(s, i).Calling?
    requires ScannerSpec.Announces(World(s.db, s.stream), Job(s, i), env)
    requires Store.IsConfirmedList(s.db, Job(s, i), ids)
    ensures Path(at, steps) && at[0] == s && IsLoud(steps, i, env, ids)
  {
    at, steps := RoundRuns(s, i, env.fetch.tag, env.sends, ids, |ids|);
    if ScannerSpec.AllSent(env.sends, |ids|) {
      at, steps := FullRoundSaves(at, steps, i, env, ids, |ids|);
    }
  }

  lemma FullRoundSaves(at: seq<Sys>, steps: seq<Step>, i: nat, env: ScannerSpec.CheckEnv, ids: seq<nat>, n: nat)
    returns (at': seq<Sys>, steps': seq<Step>)
    requires Path(at, steps) && InHandler(at[0], i) && env.fetch.Release? && n == |ids| && |steps| == 3 + n
    requires IsRound(steps, i, env.fetch.tag, ids, env.sends) && ScannerSpec.AllSent(env.sends, n)
    ensures at <= at' && steps' == steps + [DecideLoud(i), Save(i, env.save)] && Path(at', steps')
  {
    SendsOnPath(at, steps, i, ids, env.fetch.tag, env.sends);
    at', steps' := SaveRuns(at, steps, i, env.save);
  }

  lemma DecideLoudIsEnabled(s: Sys, i: nat)
    requires InHandler(s, i) && Handler(s, i).Sending?
    requires Handler(s, i).sent == |Handler(s, i).recs| && Handler(s, i).allSent
    ensures Enabled(s, DecideLoud(i))
    ensures var s' := Apply(s, DecideLoud(i)); InHandler(s', i) && Handler(s', i).Saving?
  {
    DecideMoves(s, i, Apply(s, DecideLoud(i)));
  }
}
