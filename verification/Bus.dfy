/** The NOTIFICATIONS stream with its message-id deduplication, and the arithmetic of its window. */
module Bus {
  import opened Common
  import Notify

  /** One email command. The rendered body is opaque: who gets it and what it is about remain. */
  datatype Command =
    | ConfirmationCommand(token: string, recipient: string)
    | ReleaseCommand(repo: string, tag: string, recipient: string)

  function DedupID(c: Command): string {
    match c
    case ConfirmationCommand(token, _) => Notify.ConfirmationDedupID(token)
    case ReleaseCommand(repo, tag, recipient) => Notify.ReleaseDedupID(repo, tag, recipient)
  }

  /** A stored copy: its Nats-Msg-Id, payload, time of storing, and the window in force then. */
  datatype Stored = Stored(id: string, command: Command, at: nat, window: nat)

  datatype Stream = Stream(now: nat, window: nat, log: seq<Stored>)

  /** No copy with this id was stored within the window. */
  predicate Fresh(s: Stream, id: string) {
    forall i :: 0 <= i < |s.log| && s.log[i].id == id ==> s.log[i].at + s.window <= s.now
  }

  /** A publish stores a copy iff it reaches the broker and its id is fresh. A duplicate is
      acknowledged like any other publish and does not restart the window. */
  function Publish(s: Stream, id: string, c: Command, o: Outcome): Stream {
    if o.Applied() && Fresh(s, id) then s.(log := s.log + [Stored(id, c, s.now, s.window)]) else s
  }

  predicate HasCopy(s: Stream, id: string) {
    exists i :: 0 <= i < |s.log| && s.log[i].id == id
  }

  ghost predicate Ok(s: Stream) {
    && (forall i :: 0 <= i < |s.log| ==> s.log[i].at <= s.now)
    && (forall i, j :: 0 <= i < j < |s.log| ==> s.log[i].at <= s.log[j].at)
    && (forall i, j :: 0 <= i < j < |s.log| && s.log[i].id == s.log[j].id
          ==> s.log[i].at + s.log[j].window <= s.log[j].at)
    && (forall i :: 0 <= i < |s.log| ==> s.log[i].id == DedupID(s.log[i].command))
  }

  /** Publishing keeps copies of one id a window apart, only ever appends, and once it has
      reached the broker a copy with that id exists. */
  lemma PublishKeepsOk(s: Stream, c: Command, o: Outcome)
    requires Ok(s)
    ensures var s' := Publish(s, DedupID(c), c, o);
            Ok(s') && s.log <= s'.log && (o.Applied() ==> HasCopy(s', DedupID(c)))
  {
    var id := DedupID(c);
    var s' := Publish(s, id, c, o);
    if o.Applied() {
      if Fresh(s, id) {
        assert s'.log[|s.log|].id == id;
        assert HasCopy(s', id);
      } else {
        var i :| 0 <= i < |s.log| && s.log[i].id == id && s.log[i].at + s.window > s.now;
        assert HasCopy(s, id);
      }
    }
  }

  /** A copy carrying a release id is about that repo and tag, and goes to that recipient. */
  lemma CopyIsTheRecipients(s: Stream, i: nat, repo: string, tag: string, email: string)
    requires Ok(s) && i < |s.log| && s.log[i].id == Notify.ReleaseDedupID(repo, tag, email)
    requires ':' !in repo && ':' !in tag
    requires s.log[i].command.ReleaseCommand? ==> ':' !in s.log[i].command.repo && ':' !in s.log[i].command.tag
    ensures s.log[i].command == ReleaseCommand(repo, tag, email)
  {
    match s.log[i].command {
      case ConfirmationCommand(token, _) => Notify.ReleaseIdIsNoConfirmationId(repo, tag, email, token);
      case ReleaseCommand(r, t, e) => Notify.ReleaseIdInjective(repo, tag, email, r, t, e);
    }
  }

  /** Copies of `id` stored no earlier than `lo` and no later than `hi`. */
  function Copies(log: seq<Stored>, id: string, lo: nat, hi: int): nat {
    if log == [] then 0
    else
      var m := log[|log| - 1];
      Copies(log[..|log| - 1], id, lo, hi) + (if m.id == id && lo <= m.at <= hi then 1 else 0)
  }

  ghost predicate Spaced(log: seq<Stored>, id: string, w: nat) {
    && (forall i, j :: 0 <= i < j < |log| ==> log[i].at <= log[j].at)
    && (forall i, j :: 0 <= i < j < |log| && log[i].id == id && log[j].id == id ==> log[i].at + w <= log[j].at)
  }

  /** Copies stored by `hi` are all stored by any later bound on which no copy lies in between. */
  lemma {:induction false} CopiesTighten(log: seq<Stored>, id: string, lo: nat, hi: int, hi': int)
    requires forall i :: 0 <= i < |log| && log[i].id == id ==> log[i].at <= hi' || hi < log[i].at
    requires hi' <= hi
    ensures Copies(log, id, lo, hi) == Copies(log, id, lo, hi')
  {
    if log != [] {
      var n := |log| - 1;
      assert forall i :: 0 <= i < n ==> log[..n][i] == log[i];
      CopiesTighten(log[..n], id, lo, hi, hi');
    }
  }

  lemma OneMore(k: int, w: nat)
    ensures (k + 1 - 1) * w == (k - 1) * w + w
  {
  }

  /** Between `lo` and `hi` there is room for one copy plus one more per whole window. */
  lemma {:induction false} CopiesFit(log: seq<Stored>, id: string, lo: nat, hi: int, w: nat)
    requires Spaced(log, id, w)
    ensures Copies(log, id, lo, hi) == 0 || (Copies(log, id, lo, hi) - 1) * w <= hi - lo
  {
    if log != [] {
      var n := |log| - 1;
      var m := log[n];
      assert forall i :: 0 <= i < n ==> log[..n][i] == log[i];
      if m.id == id && lo <= m.at <= hi {
        var k := Copies(log[..n], id, lo, hi);
        if w == 0 {
        } else if k > 0 {
          CopiesTighten(log[..n], id, lo, hi, m.at - w);
          CopiesFit(log[..n], id, lo, m.at - w, w);
          OneMore(k, w);
        }
      } else {
        CopiesFit(log[..n], id, lo, hi, w);
      }
    }
  }

  lemma QuotientBound(k: int, w: nat, l: int)
    requires w > 0 && (k - 1) * w <= l
    ensures k <= l / w + 1
  {
    var q := l / w;
    assert k - 1 >= q + 1 ==> (k - 1) * w >= (q + 1) * w;
  }

  /** A retry session: any stretch of length `l` stores at most floor(l / w) + 1 copies of an
      id, when every window in force was at least `w`. */
  lemma SessionBound(s: Stream, id: string, lo: nat, l: nat, w: nat)
    requires Ok(s) && w > 0
    requires forall i :: 0 <= i < |s.log| ==> s.log[i].window >= w
    ensures Copies(s.log, id, lo, lo + l) <= l / w + 1
  {
    CopiesFit(s.log, id, lo, lo + l, w);
    var k := Copies(s.log, id, lo, lo + l);
    if k == 0 {
      assert l / w >= 0;
    } else {
      QuotientBound(k, w, l);
    }
  }
}

/** internal/app/natspublisher/publisher.go and internal/app/service/email_notifier.go, over a
    broker object. Each remote write takes its outcome as a parameter. */
module Publishing {
  import opened Common
  import Notify
  import Bus

  class Broker {
    var now: nat
    var window: nat
    var log: seq<Bus.Stored>

    constructor (window: nat)
      ensures Value() == Bus.Stream(0, window, [])
    {
      this.now, this.window, this.log := 0, window, [];
    }

    ghost function Value(): Bus.Stream
      reads this
    {
      Bus.Stream(now, window, log)
    }

    /** js.Publish with jetstream.WithMsgID */
    method Publish(id: string, c: Bus.Command, o: Outcome) returns (ok: bool)
      modifies this`log
      ensures Value() == Bus.Publish(old(Value()), id, c, o)
      ensures ok == o.Done?
    {
      if o.Applied() && Bus.Fresh(Bus.Stream(now, window, log), id) {
        log := log + [Bus.Stored(id, c, now, window)];
      }
      ok := o.Done?;
    }
  }

  class Publisher {
    const js: Broker

    constructor (js: Broker)
      ensures this.js == js
    {
      this.js := js;
    }

    method Publish(dedupID: string, c: Bus.Command, o: Outcome) returns (ok: bool)
      modifies js`log
      ensures js.Value() == Bus.Publish(old(js.Value()), dedupID, c, o)
      ensures ok == o.Done?
    {
      ok := js.Publish(dedupID, c, o);
    }
  }

  class EmailNotifier {
    const publisher: Publisher

    constructor (publisher: Publisher)
      ensures this.publisher == publisher
    {
      this.publisher := publisher;
    }

    /** Composing can fail before anything is published. */
    method SendConfirmation(email: string, token: string, composed: bool, o: Outcome) returns (ok: bool)
      modifies publisher.js`log
      ensures publisher.js.Value() == (
        if composed then
          Bus.Publish(old(publisher.js.Value()), Notify.ConfirmationDedupID(token),
                      Bus.ConfirmationCommand(token, email), o)
        else old(publisher.js.Value()))
      ensures ok == (composed && o.Done?)
    {
      if !composed {
        return false;
      }
      var c := Bus.ConfirmationCommand(token, email);
      ok := publisher.Publish(Notify.ConfirmationDedupID(token), c, o);
    }

    method SendReleaseNotification(email: string, repo: string, tag: string, composed: bool, o: Outcome)
      returns (ok: bool)
      modifies publisher.js`log
      ensures publisher.js.Value() == (
        if composed then
          Bus.Publish(old(publisher.js.Value()), Notify.ReleaseDedupID(repo, tag, email),
                      Bus.ReleaseCommand(repo, tag, email), o)
        else old(publisher.js.Value()))
      ensures ok == (composed && o.Done?)
    {
      if !composed {
        return false;
      }
      var c := Bus.ReleaseCommand(repo, tag, email);
      ok := publisher.Publish(Notify.ReleaseDedupID(repo, tag, email), c, o);
    }
  }
}
