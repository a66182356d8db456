/** What every run of the application guarantees, under every interleaving, failure and crash. */
module SystemTheorems {
  import opened Common
  import opened History
  import opened SystemModel
  import opened SystemInvariant
  import RepoFormat
  import Notify
  import Bus
  import Store
  import Pool
  import ScanCycle
  import Ticker

  // ---- runs ----

  lemma StepGrowsLog(s: Sys, st: Step)
    requires Enabled(s, st)
    ensures s.log <= Apply(s, st).log && s.stream.log <= Apply(s, st).stream.log
  {
    if IsScan(st) {
      ScanGrowsLog(s, st);
    } else if IsService(st) {
      ServiceGrowsLog(s, st);
    }
  }

  lemma ScanGrowsLog(s: Sys, st: Step)
    requires Enabled(s, st) && IsScan(st)
    ensures s.log <= Apply(s, st).log && s.stream.log <= Apply(s, st).stream.log
  {
  }

  lemma ServiceGrowsLog(s: Sys, st: Step)
    requires Enabled(s, st) && IsService(st)
    ensures s.log <= Apply(s, st).log && s.stream.log <= Apply(s, st).stream.log
  {
  }

  /** Logs only grow along a path. */
  lemma {:induction false} LogsGrow(at: seq<Sys>, steps: seq<Step>, j: nat, k: nat)
    requires Path(at, steps) && j <= k < |at|
    ensures at[j].log <= at[k].log && at[j].stream.log <= at[k].stream.log
  {
    if j < k {
      LogsGrow(at, steps, j, k - 1);
      assert Hop(at, steps, k - 1);
      StepGrowsLog(at[k - 1], steps[k - 1]);
    }
  }

  // ---- the store under interleaved service calls ----

  /** Unique pairs and tokens, no dangling token, exactly one token while unconfirmed: in every
      reachable state, also between any two statements of one call. */
  lemma StoreIntegrity(window: nat, at: seq<Sys>, steps: seq<Step>, k: nat)
    requires Run(window, at, steps) && k < |at|
    ensures Store.Integrity(at[k].db)
  {
    RunKeepsInv(window, at, steps, k);
  }

  predicate IsScanner(st: Step) {
    IsScan(st) || IsDecision(st) || st.EndCycle?
  }

  lemma ScannerLeavesRows(s: Sys, st: Step)
    requires Enabled(s, st) && IsScanner(st)
    ensures Apply(s, st).db.subs == s.db.subs && Apply(s, st).db.tokens == s.db.tokens
    ensures !st.Save? ==> Apply(s, st).db == s.db
  {
    if IsDecision(st) {
      DecisionLeavesDb(s, st);
    } else if st.Send? || st.Save? || st.TakeSnapshot? {
      RoundLeavesRows(s, st);
    }
  }

  lemma DecisionLeavesDb(s: Sys, st: Step)
    requires Enabled(s, st) && IsDecision(st)
    ensures Apply(s, st).db == s.db
  {
  }

  lemma RoundLeavesRows(s: Sys, st: Step)
    requires Enabled(s, st) && (st.Send? || st.Save? || st.TakeSnapshot?)
    ensures Apply(s, st).db.subs == s.db.subs && Apply(s, st).db.tokens == s.db.tokens
    ensures !st.Save? ==> Apply(s, st).db == s.db
  {
  }

  lemma ServiceLeavesCursors(s: Sys, st: Step)
    requires Enabled(s, st) && !IsScanner(st)
    ensures Apply(s, st).db.watched == s.db.watched
  {
  }

  /** Which steps reach the rows at all, and what they do. */
  ghost predicate ReachesRows(s: Sys, st: Step, s': Sys) {
    if st.CreateRows? then
      st.c in s.calls && s.calls[st.c].Creating? && s' == DoCreate(s, st.c, st.unsub, st.confirm, st.o)
    else if st.ConfirmRow? then
      st.c in s.calls && s.calls[st.c].Confirming? && s' == DoConfirm(s, st.c, st.o)
    else if st.DeleteRow? then
      st.c in s.calls && s.calls[st.c].Removing? && s' == DoDelete(s, st.c, st.o)
    else if st.DropTokenRow? then
      st.c in s.calls && s.calls[st.c].Dropping? && s' == DoDropToken(s, st.c, st.o)
    else
      s'.db.subs == s.db.subs && s'.db.tokens == s.db.tokens
  }

  lemma StepsReachRows(s: Sys, st: Step)
    requires Enabled(s, st)
    ensures ReachesRows(s, st, Apply(s, st))
  {
    if IsScanner(st) {
      ScannerLeavesRows(s, st);
    }
  }

  predicate HoldsRow(call: Call) {
    call.Confirming? || call.Dropping? || call.Removing?
  }

  /** A call that is about to confirm, delete or drop holds the row its id stands for. */
  ghost predicate Held(s: Sys, call: Call)
    requires HoldsRow(call)
  {
    && (call.who.sub in s.db.subs ==> WhoOf(s.db, call.who.sub) == call.who)
    && (call.Confirming? ==> Created(call.who, call.value) in s.log && Presented(call.who, call.value) in s.log)
    && (call.Dropping? && call.token in s.db.tokens ==>
          && s.db.tokens[call.token] == Store.Token(call.value, call.who.sub)
          && call.who.sub in s.db.subs && s.db.subs[call.who.sub].confirmed)
  }

  lemma CallsHoldTheirRows(s: Sys, c: nat)
    requires Inv(s) && c in s.calls && HoldsRow(s.calls[c])
    ensures Held(s, s.calls[c])
  {
    var call := s.calls[c];
    assert CallOk(s.db, s.log, call);
    assert Born(s.log, call.who);
    if call.who.sub in s.db.subs {
      RowIsWho(s, call.who);
    }
  }

  ghost predicate SameRow(db: Store.Db, db': Store.Db, j: nat) {
    j in db.subs && j in db'.subs && db'.subs[j] == db.subs[j]
  }

  /** Who may change a subscription row: confirming takes a call that presented this row's own
      confirmation token, deleting one that presented its own unsubscribe token, and nothing else
      about a row ever changes. */
  ghost predicate AuthorizedChange(s: Sys, st: Step, db': Store.Db, j: nat)
    requires j in s.db.subs
  {
    var w := WhoOf(s.db, j);
    || SameRow(s.db, db', j)
    || (st.DeleteRow? && st.c in s.calls && s.calls[st.c] == Removing(w) && j !in db'.subs)
    || (&& st.ConfirmRow? && st.c in s.calls && s.calls[st.c].Confirming? && s.calls[st.c].who == w
        && Created(w, s.calls[st.c].value) in s.log && Presented(w, s.calls[st.c].value) in s.log
        && j in db'.subs && db'.subs[j] == s.db.subs[j].(confirmed := true))
  }

  lemma ConfirmAuthority(s: Sys, c: nat, o: Outcome, j: nat)
    requires c in s.calls && s.calls[c].Confirming? && Held(s, s.calls[c]) && j in s.db.subs
    ensures AuthorizedChange(s, ConfirmRow(c, o), DoConfirm(s, c, o).db, j)
  {
  }

  lemma DeleteAuthority(s: Sys, c: nat, o: Outcome, j: nat)
    requires c in s.calls && s.calls[c].Removing? && Held(s, s.calls[c]) && j in s.db.subs
    ensures AuthorizedChange(s, DeleteRow(c, o), DoDelete(s, c, o).db, j)
  {
  }

  lemma CreateLeavesRow(s: Sys, c: nat, unsub: string, confirm: string, o: Outcome, j: nat)
    requires c in s.calls && s.calls[c].Creating? && Store.RowsOk(s.db) && j in s.db.subs
    ensures SameRow(s.db, DoCreate(s, c, unsub, confirm, o).db, j)
  {
  }

  lemma AuthorizedReach(s: Sys, st: Step, s': Sys, j: nat)
    requires ReachesRows(s, st, s') && j in s.db.subs && Store.RowsOk(s.db)
    requires st.ConfirmRow? || st.DeleteRow? ==> Held(s, s.calls[st.c])
    ensures AuthorizedChange(s, st, s'.db, j)
  {
    if st.ConfirmRow? {
      ConfirmAuthority(s, st.c, st.o, j);
    } else if st.DeleteRow? {
      DeleteAuthority(s, st.c, st.o, j);
    } else if st.CreateRows? {
      CreateLeavesRow(s, st.c, st.unsub, st.confirm, st.o, j);
    }
  }

  lemma StepAuthority(s: Sys, st: Step, j: nat)
    requires Inv(s) && Enabled(s, st) && j in s.db.subs
    ensures AuthorizedChange(s, st, Apply(s, st).db, j)
  {
    StepsReachRows(s, st);
    if st.ConfirmRow? || st.DeleteRow? {
      CallsHoldTheirRows(s, st.c);
    }
    AuthorizedReach(s, st, Apply(s, st), j);
  }

  /** In every run, every step changes each row only in an authorized way. */
  lemma RowAuthority(window: nat, at: seq<Sys>, steps: seq<Step>, k: nat, j: nat)
    requires Run(window, at, steps) && k < |steps| && j in at[k].db.subs
    ensures AuthorizedChange(at[k], steps[k], at[k + 1].db, j)
  {
    RunKeepsInv(window, at, steps, k);
    assert Hop(at, steps, k);
    StepAuthority(at[k], steps[k], j);
  }

  lemma StepGivesNewId(s: Sys, st: Step, j: nat, w: Who, confirm: string)
    requires BirthsStored(s.db, s.log) && Enabled(s, st) && j !in s.db.subs && j in Apply(s, st).db.subs
    requires Created(w, confirm) in s.log
    ensures st.CreateRows? && j == s.db.nextSub && w.sub != j
  {
    StepsReachRows(s, st);
  }

  /** A new row's id has never been anybody's before. */
  lemma NewRowsHaveNewIds(window: nat, at: seq<Sys>, steps: seq<Step>, k: nat, j: nat, w: Who, confirm: string)
    requires Run(window, at, steps) && k < |steps| && j !in at[k].db.subs && j in at[k + 1].db.subs
    requires Created(w, confirm) in at[k].log
    ensures steps[k].CreateRows? && w.sub != j
  {
    RunKeepsInv(window, at, steps, k);
    assert Hop(at, steps, k);
    StepGivesNewId(at[k], steps[k], j, w, confirm);
  }

  lemma TokensGoneBy(s: Sys, st: Step, s': Sys, t: nat)
    requires ReachesRows(s, st, s') && t in s.db.tokens && t !in s'.db.tokens && s.db.tokens[t].sub in s'.db.subs
    ensures st.DropTokenRow? && st.c in s.calls && s.calls[st.c].Dropping? && s.calls[st.c].token == t
  {
  }

  lemma StepTokenAuthority(s: Sys, st: Step, t: nat)
    requires Inv(s) && Enabled(s, st) && t in s.db.tokens && t !in Apply(s, st).db.tokens
    requires s.db.tokens[t].sub in Apply(s, st).db.subs
    ensures var j := s.db.tokens[t].sub;
      && j in s.db.subs && s.db.subs[j].confirmed
      && st.DropTokenRow? && st.c in s.calls
      && s.calls[st.c] == Dropping(t, WhoOf(s.db, j), s.db.tokens[t].value)
  {
    StepsReachRows(s, st);
    TokensGoneBy(s, st, Apply(s, st), t);
    CallsHoldTheirRows(s, st.c);
  }

  /** Who may take a live subscription's token away: a call that presented that very token, and
      only once the subscription is confirmed. */
  lemma TokenAuthority(window: nat, at: seq<Sys>, steps: seq<Step>, k: nat, t: nat)
    requires Run(window, at, steps) && k < |steps| && t in at[k].db.tokens && t !in at[k + 1].db.tokens
    requires at[k].db.tokens[t].sub in at[k + 1].db.subs
    ensures var s, j := at[k], at[k].db.tokens[t].sub;
      && j in s.db.subs && s.db.subs[j].confirmed
      && steps[k].DropTokenRow? && steps[k].c in s.calls
      && s.calls[steps[k].c] == Dropping(t, WhoOf(s.db, j), s.db.tokens[t].value)
  {
    RunKeepsInv(window, at, steps, k);
    assert Hop(at, steps, k);
    StepTokenAuthority(at[k], steps[k], t);
  }

  lemma ConfirmTouchesOnlyItsOwn(s: Sys, c: nat, o: Outcome, j: nat)
    requires c in s.calls && s.calls[c].Confirming? && j in s.db.subs && s.calls[c].who.sub != j
    ensures DoConfirm(s, c, o).db.subs.Keys == s.db.subs.Keys
    ensures DoConfirm(s, c, o).db.subs[j] == s.db.subs[j]
    ensures DoConfirm(s, c, o).db.tokens == s.db.tokens
  {
  }

  lemma DropTouchesOnlyItsOwn(s: Sys, c: nat, o: Outcome, t: nat)
    requires c in s.calls && s.calls[c].Dropping? && Held(s, s.calls[c])
    requires t in s.db.tokens && s.calls[c].who.sub != s.db.tokens[t].sub
    ensures DoDropToken(s, c, o).db.subs == s.db.subs
    ensures t in DoDropToken(s, c, o).db.tokens && DoDropToken(s, c, o).db.tokens[t] == s.db.tokens[t]
  {
  }

  /** The step is a confirm's write on behalf of the subscription its lookup found. */
  predicate ConfirmsFor(s: Sys, st: Step, w: Who) {
    (st.ConfirmRow? || st.DropTokenRow?) && st.c in s.calls && HoldsRow(s.calls[st.c]) && s.calls[st.c].who == w
  }

  ghost predicate RowStays(db: Store.Db, db': Store.Db, j: nat) {
    SameRow(db, db', j) && forall t :: t in db.tokens && db.tokens[t].sub == j ==> TokenStays(db, db', t)
  }

  lemma DropLeavesRowAlone(s: Sys, c: nat, o: Outcome, j: nat)
    requires c in s.calls && s.calls[c].Dropping? && Held(s, s.calls[c]) && j in s.db.subs && s.calls[c].who.sub != j
    ensures RowStays(s.db, DoDropToken(s, c, o).db, j)
  {
    forall t | t in s.db.tokens && s.db.tokens[t].sub == j
      ensures TokenStays(s.db, DoDropToken(s, c, o).db, t)
    {
      DropTouchesOnlyItsOwn(s, c, o, t);
    }
  }

  lemma RowsLeftAlone(s: Sys, st: Step, w: Who, j: nat)
    requires Enabled(s, st) && ConfirmsFor(s, st, w) && Held(s, s.calls[st.c]) && j in s.db.subs && w.sub != j
    ensures RowStays(s.db, Apply(s, st).db, j)
  {
    if st.ConfirmRow? {
      ConfirmTouchesOnlyItsOwn(s, st.c, st.o, j);
    } else {
      DropLeavesRowAlone(s, st.c, st.o, j);
    }
  }

  predicate TokenStays(db: Store.Db, db': Store.Db, t: nat) {
    t in db.tokens && t in db'.tokens && db'.tokens[t] == db.tokens[t]
  }

  lemma OtherWhoOtherId(s: Sys, st: Step, w: Who, j: nat)
    requires Inv(s) && ConfirmsFor(s, st, w) && j in s.db.subs
    ensures WhoOf(s.db, j) != w ==> w.sub != j
    ensures Removed(w) in s.log ==> w.sub !in s.db.subs
  {
    CallsHoldTheirRows(s, st.c);
    if Removed(w) in s.log {
      RemovedStaysAway(s, w);
    }
  }

  /** No ABA: in every run, a confirm that looked its token up for the subscription `w` leaves every
      other row and its tokens as they are. When `w` was removed meanwhile, that is every row there
      is, also one created since for the same address and repo. */
  lemma NoABA(window: nat, at: seq<Sys>, steps: seq<Step>, k: nat, w: Who, j: nat)
    requires Run(window, at, steps) && k < |steps| && ConfirmsFor(at[k], steps[k], w) && j in at[k].db.subs
    ensures WhoOf(at[k].db, j) != w ==> RowStays(at[k].db, at[k + 1].db, j)
    ensures Removed(w) in at[k].log ==> WhoOf(at[k].db, j) != w
  {
    RunKeepsInv(window, at, steps, k);
    assert Hop(at, steps, k);
    OtherWhoOtherId(at[k], steps[k], w, j);
    if WhoOf(at[k].db, j) != w {
      CallsHoldTheirRows(at[k], steps[k].c);
      RowsLeftAlone(at[k], steps[k], w, j);
    }
  }

  lemma RemovedStaysAway(s: Sys, w: Who)
    requires Inv(s) && Removed(w) in s.log
    ensures w.sub !in s.db.subs
  {
    RemovedWasBorn(s.log, w);
    if w.sub in s.db.subs {
      RowIsWho(s, w);
    }
  }

  lemma DeleteLogs(at: seq<Sys>, steps: seq<Step>, n: nat)
    requires Path(at, steps) && n < |steps| && steps[n].DeleteRow? && steps[n].o.Done?
    ensures steps[n].c in at[n].calls && at[n].calls[steps[n].c].Removing?
    ensures at[n + 1].log == at[n].log + [Removed(at[n].calls[steps[n].c].who)]
  {
    assert Hop(at, steps, n);
  }

  /** Unsubscribe is final. Once its delete is reported done, in every later state the row is gone,
      no snapshot taken since contains it, and any release published to it since comes from a
      snapshot taken before. */
  lemma UnsubscribeIsFinal(window: nat, at: seq<Sys>, steps: seq<Step>, n: nat, m: nat, k: nat)
    requires Run(window, at, steps) && n < m < |at| && steps[n].DeleteRow? && steps[n].o.Done?
    ensures steps[n].c in at[n].calls && at[n].calls[steps[n].c].Removing?
    ensures var w, log := at[n].calls[steps[n].c].who, at[m].log;
      && w.sub !in at[m].db.subs
      && (|at[n].log| < k < |log| && log[k].Snapshot? ==> w !in log[k].recs)
      && (|at[n].log| < k < |log| && log[k].ReleaseSent? && log[k].who == w ==> log[k].snapAt < |at[n].log|)
  {
    DeleteLogs(at, steps, n);
    LogsGrow(at, steps, n + 1, m);
    RunKeepsInv(window, at, steps, m);
    var w, d := at[n].calls[steps[n].c].who, |at[n].log|;
    assert at[m].log[d] == Removed(w);
    RemovedStaysAway(at[m], w);
    if d < k < |at[m].log| {
      RemovedIsFinal(at[m].log, d, k);
    }
  }

  // ---- from cursor to stream ----

  ghost predicate ColonFreeTags(log: seq<Event>) {
    forall i :: 0 <= i < |log| && log[i].Fetched? ==> ':' !in log[i].tag
  }

  /** Repo and tag of every publish are clean enough for the ids to be unambiguous. */
  lemma PublishedNamesAreClean(log: seq<Event>, k: nat)
    requires LogOk(log) && ColonFreeTags(log) && k < |log| && log[k].ReleaseSent?
    ensures ':' !in log[k].who.repo && ':' !in log[k].tag
  {
    var created, _, _ := DoubleOptIn(log, k);
    assert EventOk(log[..created], log[created]);
    RepoFormat.AcceptedRepoSplits(log[k].who.repo);
    assert EventOk(log[..k], log[k]);
    var at := log[k].snapAt;
    assert EventOk(log[..at], log[at]);
    assert Fetched(log[k].who.repo, log[k].tag) in log[..at];
    var f :| 0 <= f < at && log[f] == Fetched(log[k].who.repo, log[k].tag);
  }

  ghost predicate Delivered(s: Bus.Stream, cmd: Bus.Command) {
    exists i :: 0 <= i < |s.log| && s.log[i].command == cmd
  }

  /** Deduplication never swallows somebody else's command: an accepted release publish has left
      a copy of that same command, to that same recipient. */
  lemma AcceptedMeansOwnCopy(s: Sys, k: nat)
    requires Inv(s) && ColonFreeTags(s.log)
    requires k < |s.log| && s.log[k].ReleaseSent? && s.log[k].o.Done?
    ensures var e := s.log[k]; Delivered(s.stream, Bus.ReleaseCommand(e.who.repo, e.tag, e.who.email))
  {
    var e := s.log[k];
    var id := Notify.ReleaseDedupID(e.who.repo, e.tag, e.who.email);
    assert Bus.HasCopy(s.stream, id);
    var i :| 0 <= i < |s.stream.log| && s.stream.log[i].id == id;
    PublishedNamesAreClean(s.log, k);
    var cmd := s.stream.log[i].command;
    assert CommandLogged(s.log, cmd);
    if cmd.ReleaseCommand? {
      var j :| 0 <= j < |s.log| && s.log[j].ReleaseSent? && s.log[j].who.repo == cmd.repo && s.log[j].tag == cmd.tag;
      PublishedNamesAreClean(s.log, j);
    }
    Bus.CopyIsTheRecipients(s.stream, i, e.who.repo, e.tag, e.who.email);
  }

  lemma SavesWriteCursors(s: Sys, st: Step)
    requires Enabled(s, st) && Apply(s, st).db.watched != s.db.watched
    ensures st.Save? && InHandler(s, st.i) && Handler(s, st.i).Saving?
    ensures Apply(s, st).db.watched == s.db.watched[Job(s, st.i) := Handler(s, st.i).tag]
  {
    if IsScanner(st) {
      ScannerLeavesRows(s, st);
    } else {
      ServiceLeavesCursors(s, st);
    }
  }

  /** Of all steps only a check's save writes a cursor: its own repo's, with the tag it fetched. */
  lemma OnlySavesWriteCursors(at: seq<Sys>, steps: seq<Step>, k: nat)
    requires Path(at, steps) && k < |steps| && at[k + 1].db.watched != at[k].db.watched
    ensures steps[k].Save? && InHandler(at[k], steps[k].i) && Handler(at[k], steps[k].i).Saving?
    ensures at[k + 1].db.watched == at[k].db.watched[Job(at[k], steps[k].i) := Handler(at[k], steps[k].i).tag]
  {
    assert Hop(at, steps, k);
    SavesWriteCursors(at[k], steps[k]);
  }

  /** The round whose snapshot stands at `round` in the log: it named exactly the confirmed, not
      removed subscriptions of the repo, each of them had its publish of the tag accepted in this
      very round, and the stream holds each one's command. */
  ghost predicate EveryoneServed(s: Sys, repo: string, tag: string, round: nat) {
    && round < |s.log| && s.log[round].Snapshot? && s.log[round].repo == repo && s.log[round].tag == tag
    && ExactRecipients(s.log[..round], repo, s.log[round].recs)
    && AllAccepted(s.log, s.log[round].recs, |s.log[round].recs|, tag, round)
    && forall w :: w in s.log[round].recs ==> Delivered(s.stream, Bus.ReleaseCommand(repo, tag, w.email))
  }

  lemma RecipientsWereExact(log: seq<Event>, at: nat)
    requires LogOk(log) && at < |log| && log[at].Snapshot?
    ensures ExactRecipients(log[..at], log[at].repo, log[at].recs)
  {
    assert EventOk(log[..at], log[at]);
  }

  lemma AcceptedSendServes(s: Sys, w: Who, tag: string, at: nat)
    requires Inv(s) && ColonFreeTags(s.log) && ReleaseSent(w, tag, at, Done) in s.log
    ensures Delivered(s.stream, Bus.ReleaseCommand(w.repo, tag, w.email))
  {
    var j :| 0 <= j < |s.log| && s.log[j] == ReleaseSent(w, tag, at, Done);
    AcceptedMeansOwnCopy(s, j);
  }

  lemma AcceptedRoundServes(s: Sys, repo: string, tag: string, at: nat)
    requires Inv(s) && ColonFreeTags(s.log)
    requires at < |s.log| && s.log[at].Snapshot? && s.log[at].repo == repo && s.log[at].tag == tag
    requires AllAccepted(s.log, s.log[at].recs, |s.log[at].recs|, tag, at)
    ensures EveryoneServed(s, repo, tag, at)
  {
    RecipientsWereExact(s.log, at);
    var recs := s.log[at].recs;
    forall w | w in recs
      ensures Delivered(s.stream, Bus.ReleaseCommand(repo, tag, w.email))
    {
      var r :| 0 <= r < |recs| && recs[r] == w;
      AcceptedSendServes(s, recs[r], tag, at);
    }
  }

  /** The check in `h` is about to save what its own round, after its own fetch, has announced. */
  ghost predicate OwnRound(log: seq<Event>, repo: string, h: ScanCycle.Check, round: nat) {
    && h.Saving? && h.round == Some(round) && h.fetchAt < round < |log|
    && log[h.fetchAt] == Fetched(repo, h.tag)
    && log[round].Snapshot? && log[round].fetchAt == h.fetchAt
    && NoSaveSince(log, repo, h.fetchAt)
  }

  lemma MoveIsAnnounced(s: Sys, st: Step, repo: string) returns (round: nat)
    requires Inv(s) && Enabled(s, st) && ColonFreeTags(s.log)
    requires repo in s.db.watched && Lookup(Apply(s, st).db.watched, repo) != Lookup(s.db.watched, repo)
    ensures st.Save? && InHandler(s, st.i) && Job(s, st.i) == repo && repo in Apply(s, st).db.watched
    ensures OwnRound(s.log, repo, Handler(s, st.i), round)
    ensures EveryoneServed(s, repo, Apply(s, st).db.watched[repo], round)
  {
    SavesWriteCursors(s, st);
    var h := Handler(s, st.i);
    HandlerIsOk(s, st.i);
    assert Cursor(s.log, repo) == Lookup(s.db.watched, repo);
    round := h.round.value;
    AcceptedRoundServes(s, repo, h.tag, round);
  }

  /** Whenever a stored cursor moves from a present tag to another tag, it is the save of a check
      that fetched the tag, then took a snapshot of exactly the confirmed subscriptions of that repo,
      then had every one's publish accepted, with no save of the repo in between; and the stream
      already holds each one's command. */
  lemma CursorMovesOnlyWhenAnnounced(window: nat, at: seq<Sys>, steps: seq<Step>, k: nat, repo: string)
    returns (round: nat)
    requires Run(window, at, steps) && k < |steps| && ColonFreeTags(at[k].log) && repo in at[k].db.watched
    requires Lookup(at[k + 1].db.watched, repo) != Lookup(at[k].db.watched, repo)
    ensures steps[k].Save? && InHandler(at[k], steps[k].i) && Job(at[k], steps[k].i) == repo
    ensures OwnRound(at[k].log, repo, Handler(at[k], steps[k].i), round)
    ensures repo in at[k + 1].db.watched && EveryoneServed(at[k], repo, at[k + 1].db.watched[repo], round)
  {
    RunKeepsInv(window, at, steps, k);
    assert Hop(at, steps, k);
    round := MoveIsAnnounced(at[k], steps[k], repo);
  }

  /** Double opt-in, end to end: every release command in the stream goes back to a publish for a
      subscription that was created, had its own token presented, was confirmed and was in the
      snapshot, in this order. */
  lemma StoredReleaseWasOptedIn(window: nat, at: seq<Sys>, steps: seq<Step>, k: nat, i: nat)
    returns (sent: nat, created: nat, presented: nat, confirmed: nat)
    requires Run(window, at, steps) && k < |at|
    requires i < |at[k].stream.log| && at[k].stream.log[i].command.ReleaseCommand?
    ensures var s := at[k];
            var cmd := s.stream.log[i].command;
      && created < presented < confirmed < sent < |s.log|
      && s.log[sent].ReleaseSent? && s.log[sent].who.repo == cmd.repo && s.log[sent].tag == cmd.tag
      && s.log[sent].who.email == cmd.recipient
      && s.log[created].Created? && s.log[created].who == s.log[sent].who
      && s.log[presented] == Presented(s.log[sent].who, s.log[created].confirm)
      && s.log[confirmed] == RowConfirmed(s.log[sent].who)
      && confirmed < s.log[sent].snapAt < sent
  {
    var s := at[k];
    RunKeepsInv(window, at, steps, k);
    var cmd := s.stream.log[i].command;
    assert CommandLogged(s.log, cmd);
    sent :| 0 <= sent < |s.log| && s.log[sent].ReleaseSent? && s.log[sent].who.repo == cmd.repo
      && s.log[sent].tag == cmd.tag && s.log[sent].who.email == cmd.recipient;
    created, presented, confirmed := DoubleOptIn(s.log, sent);
  }

  /** Every confirmation command in the stream names a token committed with its subscription before
      the publish, and goes to that subscription's address. */
  lemma StoredConfirmationWasCommitted(window: nat, at: seq<Sys>, steps: seq<Step>, k: nat, i: nat)
    returns (sent: nat, created: nat)
    requires Run(window, at, steps) && k < |at|
    requires i < |at[k].stream.log| && at[k].stream.log[i].command.ConfirmationCommand?
    ensures var s := at[k];
            var cmd := s.stream.log[i].command;
      && created < sent < |s.log| && s.log[sent].ConfirmationSent? && s.log[sent].who.email == cmd.recipient
      && s.log[created] == Created(s.log[sent].who, cmd.token)
  {
    var s := at[k];
    RunKeepsInv(window, at, steps, k);
    var cmd := s.stream.log[i].command;
    assert CommandLogged(s.log, cmd);
    sent :| 0 <= sent < |s.log| && s.log[sent].ConfirmationSent? && s.log[sent].confirm == cmd.token
      && s.log[sent].who.email == cmd.recipient;
    created := ConfirmationNamesCommittedToken(s.log, sent);
  }

  /** A repo whose cursor row is missing has never had a release command stored. */
  lemma FirstSightingStoresNothing(window: nat, at: seq<Sys>, steps: seq<Step>, k: nat, repo: string, i: nat)
    requires Run(window, at, steps) && k < |at| && repo !in at[k].db.watched
    requires i < |at[k].stream.log|
    ensures var cmd := at[k].stream.log[i].command;
            cmd.ReleaseCommand? ==> cmd.repo != repo
  {
    var s := at[k];
    RunKeepsInv(window, at, steps, k);
    var cmd := s.stream.log[i].command;
    assert CommandLogged(s.log, cmd);
    assert Cursor(s.log, repo) == Lookup(s.db.watched, repo);
    if cmd.ReleaseCommand? && cmd.repo == repo {
      var j :| 0 <= j < |s.log| && s.log[j].ReleaseSent? && s.log[j].who.repo == repo;
      FirstSightingSilent(s.log, repo, j);
    }
  }

  lemma CursorInLog(window: nat, at: seq<Sys>, steps: seq<Step>, k: nat, repo: string)
    requires Run(window, at, steps) && k < |at|
    ensures Cursor(at[k].log, repo) == Lookup(at[k].db.watched, repo)
  {
    RunKeepsInv(window, at, steps, k);
  }

  /** On a feed that never returns to a tag it left, a stored cursor never does either. */
  lemma StoredCursorNeverReturns(window: nat, at: seq<Sys>, steps: seq<Step>, i: nat, j: nat, k: nat, repo: string)
    requires Run(window, at, steps) && i <= j <= k < |at| && NeverReturns(at[k].log, repo)
    requires repo in at[i].db.watched && Lookup(at[i].db.watched, repo) == Lookup(at[k].db.watched, repo)
    ensures Lookup(at[j].db.watched, repo) == Lookup(at[k].db.watched, repo)
  {
    CursorInLog(window, at, steps, i, repo);
    CursorInLog(window, at, steps, j, repo);
    CursorInLog(window, at, steps, k, repo);
    LogsGrow(at, steps, i, j);
    LogsGrow(at, steps, j, k);
    var x, y, z := LastSavesInOrder(at[i].log, at[j].log, at[k].log, repo);
    SavesNeverReturn(window, at, steps, k, at[k].log, x, y, z);
  }

  /** And each tag has at most one announcing round that ends in a save. */
  lemma TagIsAnnouncedOnce(window: nat, at: seq<Sys>, steps: seq<Step>, k: nat, log: seq<Event>, i: nat, j: nat)
    requires Run(window, at, steps) && k < |at| && log == at[k].log && i < j < |log|
    requires log[j].Saved? && NeverReturns(log, log[j].repo) && SavesRepo(log[i], log[j].repo)
    ensures log[i].tag == log[j].tag ==> log[j].round.None?
  {
    RunLogOk(window, at, steps, k);
    if log[i].tag == log[j].tag {
      AnnouncedOnce(log, i, j);
    }
  }

  /** And once a tag is saved, no release of it is published any more. */
  lemma NoPublishAfterItsSave(window: nat, at: seq<Sys>, steps: seq<Step>, k: nat, log: seq<Event>, i: nat, j: nat)
    requires Run(window, at, steps) && k < |at| && log == at[k].log && i < j < |log|
    requires log[j].ReleaseSent? && NeverReturns(log, log[j].who.repo) && SavesRepo(log[i], log[j].who.repo)
    ensures log[i].tag != log[j].tag
  {
    RunLogOk(window, at, steps, k);
    NoPublishAfterSave(log, i, j);
  }

  /** A repo is scanned only once somebody confirmed a subscription to it, so every fetched tag, the
      silently recorded first one included, was fetched after such a confirmation. */
  lemma TagsAreFetchedAfterAConfirmation(window: nat, at: seq<Sys>, steps: seq<Step>, k: nat, j: nat) returns (c: nat)
    requires Run(window, at, steps) && k < |at| && j < |at[k].log| && at[k].log[j].Fetched?
    ensures c < j && at[k].log[c].RowConfirmed? && at[k].log[c].who.repo == at[k].log[j].repo
  {
    RunLogOk(window, at, steps, k);
    c := FetchFollowsConfirmation(at[k].log, j);
  }

  lemma RunLogOk(window: nat, at: seq<Sys>, steps: seq<Step>, k: nat)
    requires Run(window, at, steps) && k < |at|
    ensures LogOk(at[k].log)
  {
    RunKeepsInv(window, at, steps, k);
  }

  lemma SavesNeverReturn(window: nat, at: seq<Sys>, steps: seq<Step>, k: nat, log: seq<Event>, x: nat, y: nat, z: nat)
    requires Run(window, at, steps) && k < |at| && log == at[k].log && x <= y <= z < |log|
    requires log[z].Saved? && NeverReturns(log, log[z].repo)
    requires SavesRepo(log[x], log[z].repo) && SavesRepo(log[y], log[z].repo) && log[x].tag == log[z].tag
    ensures log[y].tag == log[z].tag
  {
    RunLogOk(window, at, steps, k);
    if x < y < z {
      CursorNeverRevisits(log, x, y, z);
    }
  }

  // ---- the dedup window ----

  ghost predicate WindowsAtLeast(window: nat, steps: seq<Step>, w: nat) {
    window >= w && forall i :: 0 <= i < |steps| && steps[i].SetWindow? ==> steps[i].window >= w
  }

  ghost predicate WindowsFrom(s: Bus.Stream, w: nat) {
    s.window >= w && forall i :: 0 <= i < |s.log| ==> s.log[i].window >= w
  }

  lemma StepWindows(s: Sys, st: Step, w: nat)
    requires Enabled(s, st) && WindowsFrom(s.stream, w) && (st.SetWindow? ==> st.window >= w)
    ensures WindowsFrom(Apply(s, st).stream, w)
  {
  }

  lemma {:induction false} StoredWindows(window: nat, at: seq<Sys>, steps: seq<Step>, w: nat, k: nat)
    requires Run(window, at, steps) && WindowsAtLeast(window, steps, w) && k < |at|
    ensures WindowsFrom(at[k].stream, w)
  {
    if k > 0 {
      StoredWindows(window, at, steps, w, k - 1);
      assert Hop(at, steps, k - 1);
      StepWindows(at[k - 1], steps[k - 1], w);
    }
  }

  /** A retry session of length `l`, crashes and all, stores at most floor(l / w) + 1 copies of one
      release id when no boot configured a window below `w`. */
  lemma RetrySessionBound(window: nat, at: seq<Sys>, steps: seq<Step>, k: nat, w: nat, id: string, lo: nat, l: nat)
    requires Run(window, at, steps) && WindowsAtLeast(window, steps, w) && w > 0 && k < |at|
    ensures Bus.Copies(at[k].stream.log, id, lo, lo + l) <= l / w + 1
  {
    RunKeepsInv(window, at, steps, k);
    StoredWindows(window, at, steps, w, k);
    Bus.SessionBound(at[k].stream, id, lo, l, w);
  }

  /** Between two moments of a run less than one window apart, at most one copy of an id is stored. */
  lemma OneCopyPerWindow(window: nat, at: seq<Sys>, steps: seq<Step>, b: nat, e: nat, w: nat, id: string)
    requires Run(window, at, steps) && WindowsAtLeast(window, steps, w) && b <= e < |at|
    requires at[b].stream.now <= at[e].stream.now < at[b].stream.now + w
    ensures Bus.Copies(at[e].stream.log, id, at[b].stream.now, at[e].stream.now) <= 1
  {
    RetrySessionBound(window, at, steps, e, w, id, at[b].stream.now, at[e].stream.now - at[b].stream.now);
  }

  /** A scanner started at time `t0` whose runs each take less than an interval: whatever three
      consecutive runs publish, from the start of the first to the end of the third, at most one copy
      of an id is stored. */
  lemma ThreeRunsStoreOneCopy(window: nat, at: seq<Sys>, steps: seq<Step>, interval: nat, t0: nat, takes: seq<nat>,
                              runs: seq<Ticker.Span>, k: nat, b: nat, e: nat, id: string)
    requires Run(window, at, steps) && interval > 0 && WindowsAtLeast(window, steps, 3 * interval)
    requires Ticker.AllShort(interval, takes) && Ticker.Lasts(runs, takes)
    requires Ticker.OnSuccessiveTicks(t0, interval, runs)
    requires k + 2 < |runs| && b <= e < |at|
    requires runs[k].start <= at[b].stream.now <= at[e].stream.now <= runs[k + 2].end
    ensures Bus.Copies(at[e].stream.log, id, at[b].stream.now, at[e].stream.now) <= 1
  {
    Ticker.ThreeShortRunsFit(t0, interval, takes, runs, k);
    OneCopyPerWindow(window, at, steps, b, e, 3 * interval, id);
  }

  // ---- the scan cycle ----

  /** In every reachable cycle: at most `size` checks in flight, at most `size` of them ever
      rate-limited, at most `size - 1` GitHub calls started after the flag was raised and none by a
      job dispatched after it; and no repo is checked twice. */
  lemma ScanCycleBounds(window: nat, at: seq<Sys>, steps: seq<Step>, k: nat)
    requires Run(window, at, steps) && k < |at| && at[k].cycle.Some?
    ensures var c := at[k].cycle.value;
      && Count(c.pool.workers, Pool.InHandler) <= c.pool.size
      && c.limited <= c.pool.size && c.late <= c.pool.size - 1
      && (c.flag ==> forall i :: i in c.called ==> i < c.flagAt)
      && forall i, j :: 0 <= i < j < |c.pool.workers| ==> c.pool.workers[i].job != c.pool.workers[j].job
  {
    RunKeepsInv(window, at, steps, k);
    var c := at[k].cycle.value;
    ScanCycle.RateLimitBounds(c);
    CountDisjoint<Pool.Worker<ScanCycle.Check>>(c.pool.workers, Pool.InHandler, Pool.Never, Pool.HoldsSlot);
  }

  /** A scan leaves no confirmed subscription out, and lists no other repo: its jobs are exactly the
      repos with one, each once. */
  lemma EveryConfirmedRepoIsListed(window: nat, at: seq<Sys>, steps: seq<Step>, k: nat)
    requires Run(window, at, steps) && k < |steps| && steps[k].BeginCycle?
    ensures at[k + 1].cycle.Some? && NoDup(at[k + 1].cycle.value.pool.jobs)
    ensures var db, jobs := at[k].db, at[k + 1].cycle.value.pool.jobs;
      && (forall i :: i in db.subs && db.subs[i].confirmed ==> db.subs[i].repo in jobs)
      && (forall r :: r in jobs ==> exists i :: i in db.subs && db.subs[i].confirmed && db.subs[i].repo == r)
  {
    assert Hop(at, steps, k);
  }

  /** The environment is not restrained. Time, boots and crashes come in any state, a call can fail at
      any point, and every write and publish of a call can end in every way. */
  lemma CallsFailFreely(s: Sys, c: nat, o: Outcome, n: nat)
    ensures Enabled(s, Tick(n)) && Apply(s, Tick(n)).stream.now == s.stream.now + n
    ensures Enabled(s, SetWindow(n)) && Apply(s, SetWindow(n)).stream.window == n
    ensures Enabled(s, Crash) && Apply(s, Crash).calls == map[] && Apply(s, Crash).cycle == None
    ensures c in s.calls ==> Enabled(s, Abandon(c)) && c !in Apply(s, Abandon(c)).calls
    ensures c in s.calls && s.calls[c].Mailing? ==> Enabled(s, MailConfirmation(c, o))
    ensures c in s.calls && s.calls[c].Confirming? ==> Enabled(s, ConfirmRow(c, o))
    ensures c in s.calls && s.calls[c].Dropping? ==> Enabled(s, DropTokenRow(c, o))
    ensures c in s.calls && s.calls[c].Removing? ==> Enabled(s, DeleteRow(c, o))
  {
  }

  /** A check can get any tag, and have every publish and its save end in every way. */
  lemma ChecksEndFreely(s: Sys, i: nat, o: Outcome, tag: string)
    requires InHandler(s, i)
    ensures Handler(s, i).Calling? && tag != "" ==> Enabled(s, FetchTag(i, tag))
    ensures Handler(s, i).Sending? && Handler(s, i).sent < |Handler(s, i).recs| ==> Enabled(s, Send(i, o))
    ensures Handler(s, i).Saving? ==> Enabled(s, Save(i, o))
  {
  }

  /** It can be refused for the rate, and panic at any point. */
  lemma ChecksFailFreely(s: Sys, i: nat)
    requires InHandler(s, i)
    ensures Handler(s, i).Calling? ==> Enabled(s, Local(i, ScanCycle.Limited))
    ensures !Handler(s, i).Loading? && !Handler(s, i).Finished? ==> Enabled(s, Local(i, ScanCycle.Finished))
  {
  }

  /** Calls begin at any moment and find what is there: a free pair, a token's row, the row of an
      unsubscribe token. */
  lemma LookupsFind(s: Sys, c: nat, email: string, repo: string, value: string, t: nat, id: nat)
    ensures c !in s.calls && RepoFormat.MatchString(repo) ==> Enabled(s, BeginSubscribe(c, email, repo))
    ensures c !in s.calls && value != "" ==> Enabled(s, BeginConfirm(c, value))
    ensures c !in s.calls && value != "" ==> Enabled(s, BeginUnsubscribe(c, value))
    ensures c in s.calls && s.calls[c] == Checking(email, repo) && !Store.PairTaken(s.db, email, repo)
            ==> Enabled(s, CheckExisting(c))
    ensures c in s.calls && s.calls[c].Validating? ==> Enabled(s, ValidateRepo(c))
    ensures c in s.calls && s.calls[c] == LookingUp(value) && t in s.db.tokens && s.db.tokens[t].value == value
            && s.db.tokens[t].sub in s.db.subs
            ==> Enabled(s, FindToken(c, t))
    ensures c in s.calls && s.calls[c] == Leaving(value) && id in s.db.subs && s.db.subs[id].unsub == value
            ==> Enabled(s, FindUnsub(c, id))
  {
  }

  /** Scans begin with any such list and end when the pool returns; a check that has its tag reads the
      cursor and then records the poll or takes its snapshot, by whether there is news. */
  lemma ChecksProceed(s: Sys, i: nat, ids: seq<nat>, size: nat, repos: seq<string>)
    ensures s.cycle == None && size >= 1 && Store.IsRepoList(s.db, repos) ==> Enabled(s, BeginCycle(size, repos))
    ensures s.cycle.Some? && s.cycle.value.pool.at.Returned? ==> Enabled(s, EndCycle)
    ensures InHandler(s, i) && Handler(s, i).Fetched? ==> Enabled(s, ReadCursor(i))
    ensures InHandler(s, i) && Handler(s, i).Compared? ==>
      var h := Handler(s, i);
      if h.prev.Some? && h.tag != "" && h.prev.value != h.tag then
        Store.IsConfirmedList(s.db, Job(s, i), ids) ==> Enabled(s, TakeSnapshot(i, ids))
      else Enabled(s, DecideQuiet(i))
  {
  }

  /** In particular an insert, with tokens never drawn before. */
  lemma InsertIsFree(s: Sys, c: nat, unsub: string, confirm: string, o: Outcome)
    requires c in s.calls && s.calls[c].Creating? && unsub != confirm && unsub !in s.issued && confirm !in s.issued
    ensures Enabled(s, CreateRows(c, unsub, confirm, o))
  {
  }

  /** Every repo a worker is given has the subscribed format, so checkRepo's format error cannot
      happen: the split gives the owner and name that join back to the repo. */
  lemma ScannedReposAreWellFormed(window: nat, at: seq<Sys>, steps: seq<Step>, k: nat, i: nat)
    requires Run(window, at, steps) && k < |at| && InHandler(at[k], i)
    ensures var repo := Job(at[k], i);
            var p := RepoFormat.SplitN(repo);
            |p| == 2 && p[0] != "" && p[1] != "" && repo == p[0] + "/" + p[1]
  {
    RunKeepsInv(window, at, steps, k);
    var c := at[k].cycle.value;
    assert c.pool.workers[i].job in c.pool.jobs;
    RepoFormat.AcceptedRepoSplits(c.pool.workers[i].job);
  }
}
