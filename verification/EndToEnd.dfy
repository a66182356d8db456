/** From the subscription to the mail: the consumer machine fed with the application's stream. */
module EndToEnd {
  import opened Common
  import opened SystemModel
  import SystemTheorems
  import Boot
  import Bus
  import Cache
  import Consumer
  import History
  import Ticker

  function PayloadOf(cmd: Bus.Command): Consumer.Payload {
    if cmd.recipient == "" then Consumer.NoRecipient else Consumer.Email(cmd.recipient)
  }

  /** What has arrived at the consumer is a beginning of what the stream stored. */
  predicate Feeds(log: seq<Bus.Stored>, messages: seq<Consumer.Message>) {
    |messages| <= |log| && forall i :: 0 <= i < |messages| ==> messages[i].payload == PayloadOf(log[i].command)
  }

  predicate Concerns(x: Bus.Stored, id: string, lo: nat, hi: int) {
    x.id == id && lo <= x.at <= hi
  }

  /** How often the mailer took the copies of one id that were stored between `lo` and `hi`. */
  function Mails(log: seq<Bus.Stored>, messages: seq<Consumer.Message>, id: string, lo: nat, hi: int): nat
    requires |messages| <= |log|
  {
    if messages == [] then 0
    else
      var n := |messages| - 1;
      Mails(log, messages[..n], id, lo, hi)
      + (if Concerns(log[n], id, lo, hi) then Consumer.MailsOf(messages[n]) else 0)
  }

  lemma MoreCopies(log: seq<Bus.Stored>, n: nat, id: string, lo: nat, hi: int)
    requires n <= |log|
    ensures Bus.Copies(log[..n], id, lo, hi) <= Bus.Copies(log, id, lo, hi)
  {
    if n < |log| {
      var m := |log| - 1;
      assert log[..m][..n] == log[..n];
      MoreCopies(log[..m], n, id, lo, hi);
    } else {
      assert log[..n] == log;
    }
  }

  lemma {:induction false} MailsPerCopy(log: seq<Bus.Stored>, messages: seq<Consumer.Message>, id: string, lo: nat,
                                        hi: int, most: nat)
    requires |messages| <= |log| && forall i :: 0 <= i < |messages| ==> Consumer.MailsOf(messages[i]) <= most
    ensures Mails(log, messages, id, lo, hi) <= most * Bus.Copies(log[..|messages|], id, lo, hi)
  {
    if messages != [] {
      var n := |messages| - 1;
      MailsPerCopy(log, messages[..n], id, lo, hi, most);
      var head := log[..n + 1];
      assert head[..|head| - 1] == log[..n] && head[|head| - 1] == log[n];
      var copies := Bus.Copies(log[..n], id, lo, hi);
      OneMoreTime(most, copies);
    }
  }

  lemma OneMoreTime(most: nat, a: nat)
    ensures most * (a + 1) == most * a + most
  {
  }

  lemma TimesAtMost(most: nat, a: nat, b: nat)
    requires a <= b
    ensures most * a <= most * b
  {
  }

  /** All mails of one release id in a retry session of length `l`: at most `most` for each of at most
      floor(l / w) + 1 copies. */
  lemma MailsOfASession(window: nat, at: seq<Sys>, steps: seq<Step>, k: nat, w: nat, messages: seq<Consumer.Message>,
                        id: string, lo: nat, l: nat, most: nat)
    requires Run(window, at, steps) && SystemTheorems.WindowsAtLeast(window, steps, w) && w > 0 && k < |at|
    requires |messages| <= |at[k].stream.log|
    requires forall i :: 0 <= i < |messages| ==> Consumer.MailsOf(messages[i]) <= most
    ensures Mails(at[k].stream.log, messages, id, lo, lo + l) <= most * (l / w + 1)
  {
    var log := at[k].stream.log;
    SystemTheorems.RetrySessionBound(window, at, steps, k, w, id, lo, l);
    MoreCopies(log, |messages|, id, lo, lo + l);
    MailsPerCopy(log, messages, id, lo, lo + l, most);
    TimesAtMost(most, Bus.Copies(log[..|messages|], id, lo, lo + l), l / w + 1);
  }

  /** Over all runs of application and notifier: one subscriber gets at most
      maxDeliver * (floor(l / w) + 1) mails about one tag in a retry session of length `l`, and at
      most floor(l / w) + 1 when the notifier's run is calm. */
  lemma MailsPerSubscriber(window: nat, at: seq<Sys>, steps: seq<Step>, k: nat, w: nat,
                           maxDeliver: nat, deliveries: seq<Consumer.Step>, id: string, lo: nat, l: nat)
    requires Run(window, at, steps) && SystemTheorems.WindowsAtLeast(window, steps, w) && w > 0 && k < |at|
    requires maxDeliver >= 1 && Consumer.Legal(maxDeliver, deliveries)
    requires Feeds(at[k].stream.log, Consumer.Exec(maxDeliver, deliveries).messages)
    ensures var mails := Mails(at[k].stream.log, Consumer.Exec(maxDeliver, deliveries).messages, id, lo, lo + l);
      && mails <= maxDeliver * (l / w + 1)
      && (Consumer.CalmRun(maxDeliver, deliveries) ==> mails <= l / w + 1)
  {
    var messages := Consumer.Exec(maxDeliver, deliveries).messages;
    forall m | 0 <= m < |messages|
      ensures Consumer.MailsOf(messages[m]) <= maxDeliver
    {
      Consumer.MailsAreBounded(maxDeliver, deliveries, m);
    }
    MailsOfASession(window, at, steps, k, w, messages, id, lo, l, maxDeliver);
    if Consumer.CalmRun(maxDeliver, deliveries) {
      forall m | 0 <= m < |messages|
        ensures Consumer.MailsOf(messages[m]) <= 1
      {
        Consumer.CalmRunsMailOnce(maxDeliver, deliveries, m);
      }
      MailsOfASession(window, at, steps, k, w, messages, id, lo, l, 1);
    }
  }

  /** What became of a message, as far as its recipient is concerned. */
  predicate Accounted(s: Consumer.State, m: nat)
    requires m < |s.messages|
  {
    var msg := s.messages[m];
    match Consumer.FateOf(msg, s.maxDeliver)
    case Pending => true
    case Acked => Consumer.MailsOf(msg) >= 1
    case Termed => Consumer.Parked(m, msg.payload) in s.dlq
    case Exhausted => Consumer.UsedUp(msg, s.maxDeliver)
  }

  lemma FateAccounts(maxDeliver: nat, deliveries: seq<Consumer.Step>, m: nat)
    requires maxDeliver >= 1 && Consumer.Legal(maxDeliver, deliveries)
    requires m < |Consumer.Exec(maxDeliver, deliveries).messages|
    ensures Accounted(Consumer.Exec(maxDeliver, deliveries), m)
  {
    var s := Consumer.Exec(maxDeliver, deliveries);
    Consumer.RunKeepsInv(maxDeliver, deliveries);
    Consumer.Fates(maxDeliver, deliveries, m);
    assert Consumer.MessageOk(s, m);
    CountNone(s.messages[m].deliveries, Consumer.WasAccepted);
  }

  /** A command without a recipient never reaches the mailer. */
  lemma NoRecipientNoMail(log: seq<Bus.Stored>, maxDeliver: nat, deliveries: seq<Consumer.Step>, m: nat)
    requires maxDeliver >= 1 && Consumer.Legal(maxDeliver, deliveries)
    requires Feeds(log, Consumer.Exec(maxDeliver, deliveries).messages)
    requires m < |Consumer.Exec(maxDeliver, deliveries).messages| && log[m].command.recipient == ""
    ensures Consumer.MailsOf(Consumer.Exec(maxDeliver, deliveries).messages[m]) == 0
  {
    Consumer.RunKeepsInv(maxDeliver, deliveries);
    var s := Consumer.Exec(maxDeliver, deliveries);
    assert Consumer.MessageOk(s, m);
    CountNone(s.messages[m].deliveries, Consumer.WasAccepted);
  }

  /** The command has a message of its own at the notifier, and we know what became of it. */
  predicate HasMessage(log: seq<Bus.Stored>, s: Consumer.State, cmd: Bus.Command) {
    exists m :: 0 <= m < |s.messages| && m < |log| && log[m].command == cmd
      && s.messages[m].payload == PayloadOf(cmd) && Accounted(s, m)
  }

  lemma ArrivedCommandHasMessage(log: seq<Bus.Stored>, later: seq<Bus.Stored>, maxDeliver: nat,
                                 deliveries: seq<Consumer.Step>, cmd: Bus.Command)
    requires log <= later && maxDeliver >= 1 && Consumer.Legal(maxDeliver, deliveries)
    requires Feeds(later, Consumer.Exec(maxDeliver, deliveries).messages)
    requires |log| <= |Consumer.Exec(maxDeliver, deliveries).messages|
    requires exists i :: 0 <= i < |log| && log[i].command == cmd
    ensures HasMessage(later, Consumer.Exec(maxDeliver, deliveries), cmd)
  {
    var i :| 0 <= i < |log| && log[i].command == cmd;
    assert later[i] == log[i];
    FateAccounts(maxDeliver, deliveries, i);
  }

  /** A cursor moves at step `k`; at some later moment `j` what the stream held at the move has reached
      the notifier, and maybe more. Every subscriber of the saving check's own round then has the
      message of their own release command there: pending, mailed, parked or used up. */
  lemma EverySubscriberIsAccountedFor(window: nat, at: seq<Sys>, steps: seq<Step>, k: nat, j: nat, repo: string,
                                      maxDeliver: nat, deliveries: seq<Consumer.Step>) returns (round: nat)
    requires Run(window, at, steps) && k < |steps| && k < j < |at| && SystemTheorems.ColonFreeTags(at[k].log)
    requires repo in at[k].db.watched && Lookup(at[k + 1].db.watched, repo) != Lookup(at[k].db.watched, repo)
    requires maxDeliver >= 1 && Consumer.Legal(maxDeliver, deliveries)
    requires Feeds(at[j].stream.log, Consumer.Exec(maxDeliver, deliveries).messages)
    requires |at[k].stream.log| <= |Consumer.Exec(maxDeliver, deliveries).messages|
    ensures steps[k].Save? && InHandler(at[k], steps[k].i) && repo in at[k + 1].db.watched
    ensures SystemTheorems.OwnRound(at[k].log, repo, Handler(at[k], steps[k].i), round)
    ensures SystemTheorems.EveryoneServed(at[k], repo, at[k + 1].db.watched[repo], round)
    ensures forall w :: w in at[k].log[round].recs ==>
              HasMessage(at[j].stream.log, Consumer.Exec(maxDeliver, deliveries),
                         Bus.ReleaseCommand(repo, at[k + 1].db.watched[repo], w.email))
  {
    round := SystemTheorems.CursorMovesOnlyWhenAnnounced(window, at, steps, k, repo);
    SystemTheorems.LogsGrow(at, steps, k, j);
    var tag := at[k + 1].db.watched[repo];
    forall w | w in at[k].log[round].recs
      ensures HasMessage(at[j].stream.log, Consumer.Exec(maxDeliver, deliveries),
                         Bus.ReleaseCommand(repo, tag, w.email))
    {
      assert SystemTheorems.Delivered(at[k].stream, Bus.ReleaseCommand(repo, tag, w.email));
      ArrivedCommandHasMessage(at[k].stream.log, at[j].stream.log, maxDeliver, deliveries,
                               Bus.ReleaseCommand(repo, tag, w.email));
    }
  }

  // ---- the windows come from the boots ----

  /** The application's run sees the windows of the boot machine: its first one is in force when the
      scanner starts, and it changes to what some later boots leave. */
  ghost predicate ConfiguredBy(window: nat, steps: seq<Step>, s: Boot.State, later: seq<Boot.Step>) {
    && s.broker.main == Some(window)
    && forall i :: 0 <= i < |steps| && steps[i].SetWindow? ==> LeftByBoots(steps[i].window, s, later)
  }

  ghost predicate LeftByBoots(window: nat, s: Boot.State, later: seq<Boot.Step>) {
    exists b: nat :: b <= |later| && Boot.Legal(s, later[..b]) && Boot.Exec(s, later[..b]).broker.main == Some(window)
  }

  /** So no window of such a run is below three of the least interval. */
  lemma BootsSupplyWindows(boots: seq<Boot.Step>, p: nat, least: nat, later: seq<Boot.Step>, window: nat,
                           steps: seq<Step>)
    requires Boot.Starts(boots, p, least) && Boot.AppsFrom(Boot.Started(boots, p, least), later, least)
    requires ConfiguredBy(window, steps, Boot.Started(boots, p, least), later)
    ensures SystemTheorems.WindowsAtLeast(window, steps, 3 * least)
  {
    var s := Boot.Started(boots, p, least);
    Boot.ScannersWindow(boots, p, least, []);
    forall i | 0 <= i < |steps| && steps[i].SetWindow?
      ensures steps[i].window >= 3 * least
    {
      var b: nat :| b <= |later| && Boot.Legal(s, later[..b])
        && Boot.Exec(s, later[..b]).broker.main == Some(steps[i].window);
      assert Boot.AppsFrom(s, later[..b], least);
      Boot.ScannersWindow(boots, p, least, later[..b]);
    }
  }

  /** Boots, application and scanner together: a scanner that ticks with the least interval of all
      applications ever booted, and whose runs are shorter than it, stores at most one copy of an id
      in three consecutive runs, whatever boots in between. */
  lemma BootedScannerStoresOneCopy(boots: seq<Boot.Step>, p: nat, later: seq<Boot.Step>, window: nat, at: seq<Sys>,
                                   steps: seq<Step>, interval: nat, t0: nat, takes: seq<nat>, runs: seq<Ticker.Span>,
                                   k: nat, b: nat, e: nat, id: string)
    requires Boot.Starts(boots, p, interval) && Boot.AppsFrom(Boot.Started(boots, p, interval), later, interval)
    requires Run(window, at, steps) && ConfiguredBy(window, steps, Boot.Started(boots, p, interval), later)
    requires Ticker.AllShort(interval, takes) && Ticker.Lasts(runs, takes)
    requires Ticker.OnSuccessiveTicks(t0, interval, runs)
    requires k + 2 < |runs| && b <= e < |at|
    requires runs[k].start <= at[b].stream.now <= at[e].stream.now <= runs[k + 2].end
    ensures Bus.Copies(at[e].stream.log, id, at[b].stream.now, at[e].stream.now) <= 1
  {
    BootsSupplyWindows(boots, p, interval, later, window, steps);
    SystemTheorems.ThreeRunsStoreOneCopy(window, at, steps, interval, t0, takes, runs, k, b, e, id);
  }

  // ---- the feed comes through the cache ----

  /** The scanner's fetches of a repo are calls of the cached client, in this order: the fetch at
      position `i` of the log is call `call[i]`, and brought the tag that call returned. */
  ghost predicate FetchedThrough(log: seq<History.Event>, repo: string, s: Cache.State, r: Cache.Request,
                                 call: map<int, nat>) {
    && (forall i :: History.IsFetch(log, i, repo) ==>
          i in call && Cache.ReturnedTag(s, call[i], r) && s.calls[call[i]].result == Cache.Ok(log[i].tag))
    && (forall i, j :: i < j && History.IsFetch(log, i, repo) && History.IsFetch(log, j, repo) && i in call && j in call
          ==> call[i] < call[j])
  }

  /** If GitHub never comes back to a tag it left, and the cached client's run is careful, the feed the
      scanner sees never does either. */
  lemma CarefulFeedNeverReturns(log: seq<History.Event>, repo: string, asks: seq<Cache.Step>, r: Cache.Request,
                                call: map<int, nat>)
    requires Cache.Legal(asks) && Cache.CarefulRun(asks) && Cache.TagsNeverReturn(Cache.Exec(asks).told, r)
    requires FetchedThrough(log, repo, Cache.Exec(asks), r, call)
    ensures History.NeverReturns(log, repo)
  {
    forall i, j, k | i < j < k && History.IsFetch(log, i, repo) && History.IsFetch(log, j, repo)
                     && History.IsFetch(log, k, repo) && log[i].tag == log[k].tag
      ensures log[j].tag == log[i].tag
    {
      Cache.CarefulTagsNeverReturn(asks, r, call[i], call[j], call[k]);
    }
  }

  /** Hence every tag has at most one announcing round that ends in a save, and no release of it is
      published after that save. */
  lemma CarefulFeedAnnouncesOnce(window: nat, at: seq<Sys>, steps: seq<Step>, k: nat, log: seq<History.Event>, i: nat,
                                 j: nat,
                                 asks: seq<Cache.Step>, r: Cache.Request, call: map<int, nat>)
    requires Run(window, at, steps) && k < |at| && log == at[k].log && i < j < |log| && log[i].Saved?
    requires Cache.Legal(asks) && Cache.CarefulRun(asks) && Cache.TagsNeverReturn(Cache.Exec(asks).told, r)
    requires FetchedThrough(log, log[i].repo, Cache.Exec(asks), r, call)
    ensures History.SavesRepo(log[j], log[i].repo) && log[j].tag == log[i].tag ==> log[j].round.None?
    ensures log[j].ReleaseSent? && log[j].who.repo == log[i].repo ==> log[j].tag != log[i].tag
  {
    CarefulFeedNeverReturns(log, log[i].repo, asks, r, call);
    if History.SavesRepo(log[j], log[i].repo) {
      SystemTheorems.TagIsAnnouncedOnce(window, at, steps, k, log, i, j);
    }
    if log[j].ReleaseSent? && log[j].who.repo == log[i].repo {
      SystemTheorems.NoPublishAfterItsSave(window, at, steps, k, log, i, j);
    }
  }
}
