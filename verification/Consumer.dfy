/** internal/notifier/subscriber.go and handler.go: what can become of a message. Deliveries of one
    message may overlap, die anywhere and lose their settlement. */
module Consumer {
  import opened Common

  /** A command as the handler sees it. */
  datatype Payload = Malformed | NoRecipient | Email(recipient: string)

  datatype HandlerError = NoError | Permanent | Transient

  datatype Action = Ack | Nak | Term

  function Handle(p: Payload, accepted: bool): HandlerError {
    match p
    case Malformed => Permanent
    case NoRecipient => Permanent
    case Email(_) => if accepted then NoError else Transient
  }

  function Classify(err: HandlerError, numDelivered: int, maxDeliver: int): Action {
    if err == NoError then Ack
    else if err == Permanent then Term
    else if numDelivered >= maxDeliver then Term
    else Nak
  }

  /** The delivery count the callback works with: 1 when the metadata cannot be read. */
  function CountSeen(delivery: nat, readable: bool): int {
    if readable then delivery else 1
  }

  /** How a delivery ended without settling its message. */
  datatype End = Settled | Retried | ParkFailed | SettlementLost | Died

  datatype Phase =
    | Handling                 // in the handler
    | Acking                   // msg.Ack() next
    | Naking(end: End)         // msg.NakWithDelay next
    | Parking                  // js.Publish to the DLQ next
    | Terming                  // msg.Term() next
    | Over(end: End)

  /** One delivery. `accepted`, `parked` and `readable` record what happened in it. */
  datatype Delivery = Delivery(phase: Phase, accepted: bool, parked: bool, readable: bool)

  /** `settledBy` is the delivery whose ack or term the broker took. */
  datatype Message = Message(payload: Payload, deliveries: seq<Delivery>, settledBy: Option<nat>)

  datatype Parked = Parked(message: nat, payload: Payload)

  datatype State = State(maxDeliver: nat, messages: seq<Message>, dlq: seq<Parked>)

  datatype Step =
    | Arrive(payload: Payload)
    | Deliver(m: nat)
    | RunHandler(m: nat, d: nat, mailer: Outcome, readable: bool)
    | SendAck(m: nat, d: nat, o: Outcome)
    | SendNak(m: nat, d: nat)
    | Park(m: nat, d: nat, o: Outcome)
    | SendTerm(m: nat, d: nat, o: Outcome)
    | Die(m: nat, d: nat)

  predicate Has(s: State, m: nat, d: nat) {
    m < |s.messages| && d < |s.messages[m].deliveries|
  }

  function At(s: State, m: nat, d: nat): Phase
    requires Has(s, m, d)
  {
    s.messages[m].deliveries[d].phase
  }

  /** The consumer is configured with the same maximum that the callback classifies with. */
  predicate MayDeliver(s: State, m: nat) {
    m < |s.messages| && s.messages[m].settledBy.None? && |s.messages[m].deliveries| < s.maxDeliver
  }

  predicate Enabled(s: State, st: Step) {
    match st
    case Arrive(_) => true
    case Deliver(m) => MayDeliver(s, m)
    case RunHandler(m, d, _, _) => Has(s, m, d) && At(s, m, d).Handling?
    case SendAck(m, d, _) => Has(s, m, d) && At(s, m, d).Acking?
    case SendNak(m, d) => Has(s, m, d) && At(s, m, d).Naking?
    case Park(m, d, _) => Has(s, m, d) && At(s, m, d).Parking?
    case SendTerm(m, d, _) => Has(s, m, d) && At(s, m, d).Terming?
    case Die(m, d) => Has(s, m, d) && !At(s, m, d).Over?
  }

  function SetDelivery(s: State, m: nat, d: nat, x: Delivery): State
    requires Has(s, m, d)
  {
    s.(messages := s.messages[m := s.messages[m].(deliveries := s.messages[m].deliveries[d := x])])
  }

  /** An ack or term reaches the broker: the first one to do so settles the message. */
  function Settle(s: State, m: nat, d: nat, o: Outcome): State
    requires Has(s, m, d)
  {
    var x := s.messages[m].deliveries[d];
    if !o.Applied() then SetDelivery(s, m, d, x.(phase := Over(SettlementLost)))
    else
      var s' := SetDelivery(s, m, d, x.(phase := Over(Settled)));
      if s.messages[m].settledBy.None? then s'.(messages := s'.messages[m := s'.messages[m].(settledBy := Some(d))])
      else s'
  }

  function AfterHandler(s: State, p: Payload, d: nat, mailer: Outcome, readable: bool): Delivery {
    var act := Classify(Handle(p, mailer.Done?), CountSeen(d + 1, readable), s.maxDeliver);
    Delivery(match act case Ack => Acking case Nak => Naking(Retried) case Term => Parking,
             p.Email? && mailer.Applied(), false, readable)
  }

  function Apply(s: State, st: Step): State
    requires Enabled(s, st)
  {
    match st
    case Arrive(p) => s.(messages := s.messages + [Message(p, [], None)])
    case Deliver(m) =>
      var msg := s.messages[m];
      s.(messages := s.messages[m := msg.(deliveries := msg.deliveries + [Delivery(Handling, false, false, true)])])
    case RunHandler(m, d, mailer, readable) =>
      SetDelivery(s, m, d, AfterHandler(s, s.messages[m].payload, d, mailer, readable))
    case SendAck(m, d, o) => Settle(s, m, d, o)
    case SendNak(m, d) => SetDelivery(s, m, d, s.messages[m].deliveries[d].(phase := Over(At(s, m, d).end)))
    case Park(m, d, o) =>
      var x := s.messages[m].deliveries[d];
      SetDelivery(if o.Applied() then s.(dlq := s.dlq + [Parked(m, s.messages[m].payload)]) else s, m, d,
                  x.(phase := if o.Done? then Terming else Naking(ParkFailed), parked := o.Applied()))
    case SendTerm(m, d, o) => Settle(s, m, d, o)
    case Die(m, d) => SetDelivery(s, m, d, s.messages[m].deliveries[d].(phase := Over(Died)))
  }

  // ---- the invariant ----

  predicate LastChance(p: Payload, d: nat, readable: bool, maxDeliver: nat) {
    !p.Email? || CountSeen(d + 1, readable) >= maxDeliver
  }

  /** What each point of a delivery says about it. */
  ghost predicate DeliveryOk(p: Payload, d: nat, x: Delivery, maxDeliver: nat) {
    && (x.accepted ==> p.Email?)
    && match x.phase
       case Handling => !x.accepted && !x.parked
       case Acking => x.accepted && !x.parked
       case Naking(end) =>
         || (end == Retried && !x.parked && p.Email? && CountSeen(d + 1, x.readable) < maxDeliver)
         || (end == ParkFailed && LastChance(p, d, x.readable, maxDeliver))
       case Parking => !x.parked && LastChance(p, d, x.readable, maxDeliver)
       case Terming => x.parked && LastChance(p, d, x.readable, maxDeliver)
       case Over(end) =>
         && (end == Settled ==> if x.parked then LastChance(p, d, x.readable, maxDeliver) else x.accepted)
         && (end == Retried ==> p.Email? && CountSeen(d + 1, x.readable) < maxDeliver)
         && (end == ParkFailed ==> LastChance(p, d, x.readable, maxDeliver))
  }

  ghost predicate MessageOk(s: State, m: nat)
    requires m < |s.messages|
  {
    var msg := s.messages[m];
    && |msg.deliveries| <= s.maxDeliver
    && (forall d :: 0 <= d < |msg.deliveries| ==>
          && DeliveryOk(msg.payload, d, msg.deliveries[d], s.maxDeliver)
          && (msg.deliveries[d].parked ==> Parked(m, msg.payload) in s.dlq))
    && (msg.settledBy.Some? ==>
          msg.settledBy.value < |msg.deliveries| && msg.deliveries[msg.settledBy.value].phase == Over(Settled))
    && (msg.settledBy.None? ==> forall d :: 0 <= d < |msg.deliveries| ==> msg.deliveries[d].phase != Over(Settled))
  }

  ghost predicate DlqOk(s: State) {
    forall i :: 0 <= i < |s.dlq| ==>
      s.dlq[i].message < |s.messages| && s.dlq[i].payload == s.messages[s.dlq[i].message].payload
  }

  ghost predicate Inv(s: State) {
    s.maxDeliver >= 1 && DlqOk(s) && forall m :: 0 <= m < |s.messages| ==> MessageOk(s, m)
  }

  /** A step inside one message, whose new delivery record is in order, keeps the invariant. */
  lemma DeliveryStepKeepsInv(s: State, st: Step, m: nat, d: nat, x: Delivery)
    requires Inv(s) && Enabled(s, st) && Has(s, m, d)
    requires Apply(s, st).maxDeliver == s.maxDeliver && s.dlq <= Apply(s, st).dlq && DlqOk(Apply(s, st))
    requires Apply(s, st).messages
             == s.messages[m := Message(s.messages[m].payload, s.messages[m].deliveries[d := x],
                                        if x.phase == Over(Settled) && s.messages[m].settledBy.None? then Some(d)
                                        else s.messages[m].settledBy)]
    requires DeliveryOk(s.messages[m].payload, d, x, s.maxDeliver)
    requires x.parked ==> Parked(m, s.messages[m].payload) in Apply(s, st).dlq
    requires !s.messages[m].deliveries[d].phase.Over?
    ensures Inv(Apply(s, st))
  {
    var s' := Apply(s, st);
    assert forall e :: e in s.dlq ==> e in s'.dlq;
    assert MessageOk(s, m);
    forall n | 0 <= n < |s'.messages|
      ensures MessageOk(s', n)
    {
      assert MessageOk(s, n);
    }
  }

  lemma ArriveKeepsInv(s: State, p: Payload)
    requires Inv(s)
    ensures Inv(Apply(s, Arrive(p)))
  {
    var s' := Apply(s, Arrive(p));
    forall n | 0 <= n < |s'.messages|
      ensures MessageOk(s', n)
    {
      if n < |s.messages| {
        assert MessageOk(s, n);
      }
    }
  }

  lemma DeliverKeepsInv(s: State, m: nat)
    requires Inv(s) && Enabled(s, Deliver(m))
    ensures Inv(Apply(s, Deliver(m)))
  {
    var s' := Apply(s, Deliver(m));
    forall n | 0 <= n < |s'.messages|
      ensures MessageOk(s', n)
    {
      assert MessageOk(s, n);
    }
  }

  lemma DeliveryIsOk(s: State, m: nat, d: nat)
    requires Inv(s) && Has(s, m, d)
    ensures DeliveryOk(s.messages[m].payload, d, s.messages[m].deliveries[d], s.maxDeliver)
    ensures s.messages[m].deliveries[d].parked ==> Parked(m, s.messages[m].payload) in s.dlq
  {
    assert MessageOk(s, m);
  }

  lemma HandlerKeepsInv(s: State, m: nat, d: nat, mailer: Outcome, readable: bool)
    requires Inv(s) && Enabled(s, RunHandler(m, d, mailer, readable))
    ensures Inv(Apply(s, RunHandler(m, d, mailer, readable)))
  {
    DeliveryIsOk(s, m, d);
    DeliveryStepKeepsInv(s, RunHandler(m, d, mailer, readable), m, d,
                         AfterHandler(s, s.messages[m].payload, d, mailer, readable));
  }

  lemma ParkKeepsInv(s: State, m: nat, d: nat, o: Outcome)
    requires Inv(s) && Enabled(s, Park(m, d, o))
    ensures Inv(Apply(s, Park(m, d, o)))
  {
    DeliveryIsOk(s, m, d);
    var x := s.messages[m].deliveries[d].(phase := if o.Done? then Terming else Naking(ParkFailed),
                                          parked := o.Applied());
    DeliveryStepKeepsInv(s, Park(m, d, o), m, d, x);
  }

  lemma SettleKeepsInv(s: State, st: Step)
    requires Inv(s) && Enabled(s, st) && (st.SendAck? || st.SendTerm?)
    ensures Inv(Apply(s, st))
  {
    DeliveryIsOk(s, st.m, st.d);
    var end := Over(if st.o.Applied() then Settled else SettlementLost);
    DeliveryStepKeepsInv(s, st, st.m, st.d, s.messages[st.m].deliveries[st.d].(phase := end));
  }

  lemma EndKeepsInv(s: State, st: Step)
    requires Inv(s) && Enabled(s, st) && (st.SendNak? || st.Die?)
    ensures Inv(Apply(s, st))
  {
    DeliveryIsOk(s, st.m, st.d);
    var end := Over(if st.Die? then Died else At(s, st.m, st.d).end);
    DeliveryStepKeepsInv(s, st, st.m, st.d, s.messages[st.m].deliveries[st.d].(phase := end));
  }

  lemma StepKeepsInv(s: State, st: Step)
    requires Inv(s) && Enabled(s, st)
    ensures Inv(Apply(s, st))
  {
    match st {
      case Arrive(p) => ArriveKeepsInv(s, p);
      case Deliver(m) => DeliverKeepsInv(s, m);
      case RunHandler(m, d, mailer, readable) => HandlerKeepsInv(s, m, d, mailer, readable);
      case Park(m, d, o) => ParkKeepsInv(s, m, d, o);
      case SendAck(_, _, _) => SettleKeepsInv(s, st);
      case SendTerm(_, _, _) => SettleKeepsInv(s, st);
      case SendNak(_, _) => EndKeepsInv(s, st);
      case Die(_, _) => EndKeepsInv(s, st);
    }
  }

  /** The environment is not restrained: commands of any kind arrive, deliveries overlap, die at any
      point, and every acceptance, park and settlement can end in every way. */
  lemma EnvironmentIsFree(s: State, p: Payload, m: nat, d: nat, o: Outcome, readable: bool)
    ensures Enabled(s, Arrive(p)) && (MayDeliver(s, m) ==> Enabled(s, Deliver(m)))
    ensures Has(s, m, d) ==>
      && (At(s, m, d).Handling? ==> Enabled(s, RunHandler(m, d, o, readable)))
      && (At(s, m, d).Acking? ==> Enabled(s, SendAck(m, d, o)))
      && (At(s, m, d).Naking? ==> Enabled(s, SendNak(m, d)))
      && (At(s, m, d).Parking? ==> Enabled(s, Park(m, d, o)))
      && (At(s, m, d).Terming? ==> Enabled(s, SendTerm(m, d, o)))
      && (!At(s, m, d).Over? ==>
            Enabled(s, Die(m, d)) && Apply(s, Die(m, d)).messages[m].deliveries[d].phase == Over(Died))
    ensures m < |s.messages| && s.messages[m].settledBy.None? && |s.messages[m].deliveries| < s.maxDeliver
            ==> MayDeliver(s, m)
  {
  }

  // ---- runs ----

  ghost predicate Legal(maxDeliver: nat, steps: seq<Step>)
    decreases |steps|, 0
  {
    steps == []
    || (var n := |steps| - 1; Legal(maxDeliver, steps[..n]) && Enabled(Exec(maxDeliver, steps[..n]), steps[n]))
  }

  ghost function Exec(maxDeliver: nat, steps: seq<Step>): State
    requires Legal(maxDeliver, steps)
    decreases |steps|, 1
  {
    if steps == [] then State(maxDeliver, [], [])
    else Apply(Exec(maxDeliver, steps[..|steps| - 1]), steps[|steps| - 1])
  }

  lemma {:induction false} RunKeepsInv(maxDeliver: nat, steps: seq<Step>)
    requires maxDeliver >= 1 && Legal(maxDeliver, steps)
    ensures Inv(Exec(maxDeliver, steps)) && Exec(maxDeliver, steps).maxDeliver == maxDeliver
  {
    if steps != [] {
      var n := |steps| - 1;
      RunKeepsInv(maxDeliver, steps[..n]);
      StepKeepsInv(Exec(maxDeliver, steps[..n]), steps[n]);
    }
  }

  // ---- where a message can end up ----

  datatype Fate = Pending | Acked | Termed | Exhausted

  predicate AllOver(msg: Message) {
    forall d :: 0 <= d < |msg.deliveries| ==> msg.deliveries[d].phase.Over?
  }

  function FateOf(msg: Message, maxDeliver: nat): Fate {
    if msg.settledBy.Some? && msg.settledBy.value < |msg.deliveries| then
      if msg.deliveries[msg.settledBy.value].parked then Termed else Acked
    else if |msg.deliveries| == maxDeliver && AllOver(msg) then Exhausted
    else Pending
  }

  /** All deliveries are spent, and the last one could not settle. */
  predicate UsedUp(msg: Message, maxDeliver: nat) {
    && msg.settledBy.None? && |msg.deliveries| == maxDeliver > 0
    && var last := msg.deliveries[maxDeliver - 1];
       || last.phase == Over(ParkFailed) || last.phase == Over(SettlementLost) || last.phase == Over(Died)
       || (last.phase == Over(Retried) && !last.readable && maxDeliver > 1)
  }

  /** In every reachable state: the handler ran at most `maxDeliver` times per message; an acked
      message was accepted by the mailer in the delivery that acked it; a termed one is in the
      dead-letter stream, and only because it was hopeless or on its last counted try; and an
      exhausted one is unsettled only because in its last delivery the park failed, the settlement
      was lost, the process died, or the delivery count could not be read. */
  lemma Fates(maxDeliver: nat, steps: seq<Step>, m: nat)
    requires maxDeliver >= 1 && Legal(maxDeliver, steps) && m < |Exec(maxDeliver, steps).messages|
    ensures var s := Exec(maxDeliver, steps);
            var msg := s.messages[m];
            var fate := FateOf(msg, maxDeliver);
      && |msg.deliveries| <= maxDeliver
      && (fate == Acked ==> msg.payload.Email? && msg.deliveries[msg.settledBy.value].accepted)
      && (fate == Termed ==>
            && Parked(m, msg.payload) in s.dlq
            && LastChance(msg.payload, msg.settledBy.value, msg.deliveries[msg.settledBy.value].readable, maxDeliver))
      && (fate == Exhausted ==> UsedUp(msg, maxDeliver))
  {
    RunKeepsInv(maxDeliver, steps);
    var s := Exec(maxDeliver, steps);
    assert MessageOk(s, m);
    var msg := s.messages[m];
    if FateOf(msg, maxDeliver) == Exhausted {
      assert DeliveryOk(msg.payload, maxDeliver - 1, msg.deliveries[maxDeliver - 1], maxDeliver);
    }
  }

  /** A fate other than pending is final. */
  lemma FatesAreFinal(s: State, st: Step, m: nat)
    requires Inv(s) && Enabled(s, st) && m < |s.messages|
    ensures var msg, msg' := s.messages[m], Apply(s, st).messages[m];
            FateOf(msg, s.maxDeliver) != Pending ==> FateOf(msg', s.maxDeliver) == FateOf(msg, s.maxDeliver)
  {
    assert MessageOk(s, m);
  }

  /** The nak after a failed park (subscriber.go:108-117) can lead to another delivery only of a
      message that was hopeless anyway: a command whose retries ran out is at its cap. */
  lemma FailedParkIsRedeliverableIff(s: State, m: nat, d: nat)
    requires Inv(s) && Has(s, m, d) && s.messages[m].settledBy.None? && At(s, m, d) == Over(ParkFailed)
    ensures MayDeliver(s, m) <==> !s.messages[m].payload.Email? && |s.messages[m].deliveries| < s.maxDeliver
  {
    assert MessageOk(s, m);
    assert DeliveryOk(s.messages[m].payload, d, s.messages[m].deliveries[d], s.maxDeliver);
  }

  /** A message refused `n` times, each time naked. */
  function Refused(maxDeliver: nat, to: string, n: nat): State {
    State(maxDeliver, [Message(Email(to), seq(n, i => Delivery(Over(Retried), false, false, true)), None)], [])
  }

  lemma Refusal(s: State, n: nat, to: string, steps: seq<Step>) returns (steps': seq<Step>)
    requires Legal(s.maxDeliver, steps) && Exec(s.maxDeliver, steps) == s == Refused(s.maxDeliver, to, n)
    requires n + 1 < s.maxDeliver
    ensures Legal(s.maxDeliver, steps') && Exec(s.maxDeliver, steps') == Refused(s.maxDeliver, to, n + 1)
  {
    steps' := LegalSnoc(s.maxDeliver, steps, Deliver(0));
    steps' := LegalSnoc(s.maxDeliver, steps', RunHandler(0, n, NotDone, true));
    steps' := LegalSnoc(s.maxDeliver, steps', SendNak(0, n));
    assert Exec(s.maxDeliver, steps').messages[0].deliveries == Refused(s.maxDeliver, to, n + 1).messages[0].deliveries;
  }

  lemma {:induction false} Refusals(maxDeliver: nat, to: string, n: nat) returns (steps: seq<Step>)
    requires n < maxDeliver
    ensures Legal(maxDeliver, steps) && Exec(maxDeliver, steps) == Refused(maxDeliver, to, n)
  {
    if n == 0 {
      steps := LegalSnoc(maxDeliver, [], Arrive(Email(to)));
      assert Exec(maxDeliver, steps).messages[0].deliveries == Refused(maxDeliver, to, 0).messages[0].deliveries;
    } else {
      var before := Refusals(maxDeliver, to, n - 1);
      steps := Refusal(Refused(maxDeliver, to, n - 1), n - 1, to, before);
    }
  }

  /** A command that was never accepted and is in no dead-letter stream, and will stay so. */
  predicate IsLost(s: State, maxDeliver: nat, to: string) {
    && |s.messages| == 1 && s.messages[0].payload == Email(to) && s.dlq == []
    && FateOf(s.messages[0], maxDeliver) == Exhausted && |s.messages[0].deliveries| == maxDeliver
    && forall d :: 0 <= d < |s.messages[0].deliveries| ==> !s.messages[0].deliveries[d].accepted
  }

  /** With every maximum, a failed park at the cap loses a command. */
  lemma FailedParkCanLoseACommand(maxDeliver: nat, to: string) returns (steps: seq<Step>)
    requires maxDeliver >= 1
    ensures Legal(maxDeliver, steps) && IsLost(Exec(maxDeliver, steps), maxDeliver, to)
    ensures Exec(maxDeliver, steps).messages[0].deliveries[maxDeliver - 1].phase == Over(ParkFailed)
  {
    var n := maxDeliver - 1;
    steps := Refusals(maxDeliver, to, n);
    steps := LegalSnoc(maxDeliver, steps, Deliver(0));
    steps := LegalSnoc(maxDeliver, steps, RunHandler(0, n, NotDone, true));
    steps := LegalSnoc(maxDeliver, steps, Park(0, n, NotDone));
    steps := LegalSnoc(maxDeliver, steps, SendNak(0, n));
  }

  /** With every maximum above one, so does unreadable metadata: the last delivery counts as the
      first and is naked without a try at parking. */
  lemma UnreadableCountCanLoseACommand(maxDeliver: nat, to: string) returns (steps: seq<Step>)
    requires maxDeliver > 1
    ensures Legal(maxDeliver, steps) && IsLost(Exec(maxDeliver, steps), maxDeliver, to)
    ensures var d := Exec(maxDeliver, steps).messages[0].deliveries[maxDeliver - 1];
            d.phase == Over(Retried) && !d.readable
  {
    var n := maxDeliver - 1;
    steps := Refusals(maxDeliver, to, n);
    steps := LegalSnoc(maxDeliver, steps, Deliver(0));
    steps := LegalSnoc(maxDeliver, steps, RunHandler(0, n, NotDone, false));
    steps := LegalSnoc(maxDeliver, steps, SendNak(0, n));
  }

  lemma LegalSnoc(maxDeliver: nat, steps: seq<Step>, st: Step) returns (steps': seq<Step>)
    requires Legal(maxDeliver, steps) && Enabled(Exec(maxDeliver, steps), st)
    ensures steps' == steps + [st] && Legal(maxDeliver, steps')
    ensures Exec(maxDeliver, steps') == Apply(Exec(maxDeliver, steps), st)
  {
    steps' := steps + [st];
    assert steps'[..|steps|] == steps;
  }

  /** No message is stuck: a pending one may be delivered again or has a delivery in progress. */
  lemma PendingIsNotStuck(s: State, m: nat)
    requires Inv(s) && m < |s.messages| && FateOf(s.messages[m], s.maxDeliver) == Pending
    ensures MayDeliver(s, m) || exists d :: 0 <= d < |s.messages[m].deliveries| && !At(s, m, d).Over?
  {
    assert MessageOk(s, m);
    if !MayDeliver(s, m) {
      var d :| 0 <= d < |s.messages[m].deliveries| && !s.messages[m].deliveries[d].phase.Over?;
      assert !At(s, m, d).Over?;
    }
  }

  // ---- how many mails one message makes ----

  predicate WasAccepted(x: Delivery) {
    x.accepted
  }

  /** How often the mailer took this message. */
  function MailsOf(msg: Message): nat {
    Count(msg.deliveries, WasAccepted)
  }

  /** Never more often than it may be delivered. */
  lemma MailsAreBounded(maxDeliver: nat, steps: seq<Step>, m: nat)
    requires maxDeliver >= 1 && Legal(maxDeliver, steps) && m < |Exec(maxDeliver, steps).messages|
    ensures MailsOf(Exec(maxDeliver, steps).messages[m]) <= maxDeliver
  {
    RunKeepsInv(maxDeliver, steps);
    assert MessageOk(Exec(maxDeliver, steps), m);
    CountAtMost(Exec(maxDeliver, steps).messages[m].deliveries, WasAccepted);
  }

  /** A message accepted `n` times, its ack lost each time. */
  function AckLost(maxDeliver: nat, to: string, n: nat): State {
    State(maxDeliver, [Message(Email(to), seq(n, i => Delivery(Over(SettlementLost), true, false, true)), None)], [])
  }

  /** And that bound is reached, for every maximum: lost acks let one subscriber have as many mails. */
  lemma {:induction false} MailsCanReachTheMaximum(maxDeliver: nat, to: string, n: nat) returns (steps: seq<Step>)
    requires n <= maxDeliver
    ensures Legal(maxDeliver, steps) && Exec(maxDeliver, steps) == AckLost(maxDeliver, to, n)
    ensures MailsOf(AckLost(maxDeliver, to, n).messages[0]) == n
  {
    if n == 0 {
      steps := LegalSnoc(maxDeliver, [], Arrive(Email(to)));
      assert Exec(maxDeliver, steps).messages[0].deliveries == AckLost(maxDeliver, to, 0).messages[0].deliveries;
    } else {
      var before := MailsCanReachTheMaximum(maxDeliver, to, n - 1);
      steps := LostAck(AckLost(maxDeliver, to, n - 1), n - 1, to, before);
      var x := Delivery(Over(SettlementLost), true, false, true);
      assert AckLost(maxDeliver, to, n).messages[0].deliveries
             == AckLost(maxDeliver, to, n - 1).messages[0].deliveries + [x];
      CountSnoc(AckLost(maxDeliver, to, n - 1).messages[0].deliveries, x, WasAccepted);
    }
  }

  lemma LostAck(s: State, n: nat, to: string, steps: seq<Step>) returns (steps': seq<Step>)
    requires Legal(s.maxDeliver, steps) && Exec(s.maxDeliver, steps) == s == AckLost(s.maxDeliver, to, n)
    requires n < s.maxDeliver
    ensures Legal(s.maxDeliver, steps') && Exec(s.maxDeliver, steps') == AckLost(s.maxDeliver, to, n + 1)
  {
    steps' := LegalSnoc(s.maxDeliver, steps, Deliver(0));
    steps' := LegalSnoc(s.maxDeliver, steps', RunHandler(0, n, Done, true));
    steps' := LegalSnoc(s.maxDeliver, steps', SendAck(0, n, NotDone));
    assert Exec(s.maxDeliver, steps').messages[0].deliveries == AckLost(s.maxDeliver, to, n + 1).messages[0].deliveries;
  }

  /** What it takes to mail at most once: no acceptance goes unreported, no ack is lost, no process
      dies between acceptance and ack, and no delivery starts while another is running. */
  predicate Calm(s: State, st: Step)
    requires Enabled(s, st)
  {
    match st
    case Deliver(m) => AllOver(s.messages[m])
    case RunHandler(_, _, mailer, _) => mailer != DoneUnreported
    case SendAck(_, _, o) => o.Applied()
    case Die(m, d) => !s.messages[m].deliveries[d].accepted
    case _ => true
  }

  ghost predicate CalmRun(maxDeliver: nat, steps: seq<Step>)
    requires Legal(maxDeliver, steps)
    decreases |steps|
  {
    steps == []
    || (var n := |steps| - 1; CalmRun(maxDeliver, steps[..n]) && Calm(Exec(maxDeliver, steps[..n]), steps[n]))
  }

  /** Only the latest delivery runs or was accepted, and an accepted one is acking or has settled. */
  predicate CalmMessage(msg: Message) {
    var n := |msg.deliveries|;
    && (forall d :: 0 <= d < n - 1 ==> msg.deliveries[d].phase.Over? && !msg.deliveries[d].accepted)
    && (msg.settledBy.Some? ==> AllOver(msg))
    && (n > 0 && msg.deliveries[n - 1].accepted ==>
          && !msg.deliveries[n - 1].parked
          && (msg.deliveries[n - 1].phase.Acking? || msg.settledBy == Some(n - 1)))
  }

  predicate CalmState(s: State) {
    forall m :: 0 <= m < |s.messages| ==> CalmMessage(s.messages[m])
  }

  lemma StepKeepsCalm(s: State, st: Step)
    requires Inv(s) && CalmState(s) && Enabled(s, st) && Calm(s, st)
    ensures CalmState(Apply(s, st))
  {
    var s' := Apply(s, st);
    forall m | 0 <= m < |s'.messages|
      ensures CalmMessage(s'.messages[m])
    {
      if m < |s.messages| && s'.messages[m] == s.messages[m] {
        assert CalmMessage(s.messages[m]);
      } else if m < |s.messages| {
        SteppedMessageIsCalm(s, st);
      }
    }
  }

  lemma SteppedMessageIsCalm(s: State, st: Step)
    requires Inv(s) && CalmState(s) && Enabled(s, st) && Calm(s, st) && !st.Arrive?
    ensures CalmMessage(Apply(s, st).messages[st.m])
  {
    assert MessageOk(s, st.m) && CalmMessage(s.messages[st.m]);
  }

  lemma {:induction false} RunKeepsCalm(maxDeliver: nat, steps: seq<Step>)
    requires maxDeliver >= 1 && Legal(maxDeliver, steps) && CalmRun(maxDeliver, steps)
    ensures CalmState(Exec(maxDeliver, steps))
  {
    if steps != [] {
      var n := |steps| - 1;
      RunKeepsCalm(maxDeliver, steps[..n]);
      RunKeepsInv(maxDeliver, steps[..n]);
      StepKeepsCalm(Exec(maxDeliver, steps[..n]), steps[n]);
    }
  }

  /** In a calm run every message is mailed at most once, an acked one exactly once, and one that
      ended in the dead-letter stream or exhausted not at all. */
  lemma CalmRunsMailOnce(maxDeliver: nat, steps: seq<Step>, m: nat)
    requires maxDeliver >= 1 && Legal(maxDeliver, steps) && CalmRun(maxDeliver, steps)
    requires m < |Exec(maxDeliver, steps).messages|
    ensures var msg := Exec(maxDeliver, steps).messages[m];
      && MailsOf(msg) <= 1
      && (FateOf(msg, maxDeliver) == Acked ==> MailsOf(msg) == 1)
      && (FateOf(msg, maxDeliver) == Termed || FateOf(msg, maxDeliver) == Exhausted ==> MailsOf(msg) == 0)
  {
    RunKeepsInv(maxDeliver, steps);
    RunKeepsCalm(maxDeliver, steps);
    var msg := Exec(maxDeliver, steps).messages[m];
    assert MessageOk(Exec(maxDeliver, steps), m) && CalmMessage(msg);
    CalmMessageMails(msg);
    if msg.settledBy.Some? {
      DeliveryIsOk(Exec(maxDeliver, steps), m, msg.settledBy.value);
    }
  }

  lemma CalmMessageMails(msg: Message)
    requires CalmMessage(msg)
    ensures var n := |msg.deliveries|; MailsOf(msg) == if n > 0 && msg.deliveries[n - 1].accepted then 1 else 0
  {
    var n := |msg.deliveries|;
    if n > 0 {
      assert forall d :: 0 <= d < n - 1 ==> msg.deliveries[..n - 1][d] == msg.deliveries[d];
      CountNone(msg.deliveries[..n - 1], WasAccepted);
    }
  }

  // ---- exactly when one more mail can come ----

  predicate HandlerRuns(msg: Message) {
    exists d :: 0 <= d < |msg.deliveries| && msg.deliveries[d].phase.Handling?
  }

  /** The guard: a command that may be delivered once more, or is with the handler right now. */
  predicate CanBeMailed(s: State, m: nat) {
    m < |s.messages| && s.messages[m].payload.Email? && (MayDeliver(s, m) || HandlerRuns(s.messages[m]))
  }

  /** The run continues with `more`, and in it the mailer takes message `m` again. */
  ghost predicate MailedIn(maxDeliver: nat, steps: seq<Step>, more: seq<Step>, m: nat) {
    && Legal(maxDeliver, steps) && Legal(maxDeliver, steps + more)
    && m < |Exec(maxDeliver, steps).messages| && m < |Exec(maxDeliver, steps + more).messages|
    && MailsOf(Exec(maxDeliver, steps).messages[m]) < MailsOf(Exec(maxDeliver, steps + more).messages[m])
  }

  lemma HandlerMails(s: State, m: nat, d: nat)
    requires Inv(s) && Has(s, m, d) && At(s, m, d).Handling? && s.messages[m].payload.Email?
    ensures MailsOf(Apply(s, RunHandler(m, d, Done, true)).messages[m]) == MailsOf(s.messages[m]) + 1
  {
    DeliveryIsOk(s, m, d);
    var x := AfterHandler(s, s.messages[m].payload, d, Done, true);
    CountUpdate(s.messages[m].deliveries, d, x, WasAccepted);
  }

  lemma DeliverMails(s: State, m: nat)
    requires MayDeliver(s, m)
    ensures var s', d := Apply(s, Deliver(m)), |s.messages[m].deliveries|;
            Has(s', m, d) && At(s', m, d).Handling? && s'.messages[m].payload == s.messages[m].payload
            && MailsOf(s'.messages[m]) == MailsOf(s.messages[m])
  {
    CountSnoc(s.messages[m].deliveries, Delivery(Handling, false, false, true), WasAccepted);
  }

  lemma OneMoreMail(maxDeliver: nat, steps: seq<Step>, m: nat) returns (more: seq<Step>)
    requires maxDeliver >= 1 && Legal(maxDeliver, steps) && CanBeMailed(Exec(maxDeliver, steps), m)
    ensures MailedIn(maxDeliver, steps, more, m) && |more| <= 2
  {
    RunKeepsInv(maxDeliver, steps);
    var s := Exec(maxDeliver, steps);
    if HandlerRuns(s.messages[m]) {
      var d :| 0 <= d < |s.messages[m].deliveries| && s.messages[m].deliveries[d].phase.Handling?;
      HandlerMails(s, m, d);
      more := [RunHandler(m, d, Done, true)];
      var all := LegalSnoc(maxDeliver, steps, RunHandler(m, d, Done, true));
    } else {
      var d := |s.messages[m].deliveries|;
      DeliverMails(s, m);
      var delivered := LegalSnoc(maxDeliver, steps, Deliver(m));
      RunKeepsInv(maxDeliver, delivered);
      HandlerMails(Exec(maxDeliver, delivered), m, d);
      var all := LegalSnoc(maxDeliver, delivered, RunHandler(m, d, Done, true));
      more := [Deliver(m), RunHandler(m, d, Done, true)];
      assert all == steps + more;
    }
  }

  /** Without the guard no step mails the message, and none brings the guard back. */
  lemma StepCannotMail(s: State, st: Step, m: nat)
    requires Inv(s) && Enabled(s, st) && m < |s.messages| && !CanBeMailed(s, m)
    ensures m < |Apply(s, st).messages| && !CanBeMailed(Apply(s, st), m)
    ensures MailsOf(Apply(s, st).messages[m]) == MailsOf(s.messages[m])
  {
    if st.Deliver? && st.m == m {
      DeliverMails(s, m);
    } else if !st.Arrive? && !st.Deliver? && st.m == m {
      SteppedDeliveryCannotMail(s, st);
    }
  }

  lemma SteppedDeliveryCannotMail(s: State, st: Step)
    requires Inv(s) && Enabled(s, st) && !st.Arrive? && !st.Deliver? && !CanBeMailed(s, st.m)
    ensures !CanBeMailed(Apply(s, st), st.m)
    ensures MailsOf(Apply(s, st).messages[st.m]) == MailsOf(s.messages[st.m])
  {
    var msg, msg' := s.messages[st.m], Apply(s, st).messages[st.m];
    OneDeliverySteps(s, st);
    CountUpdate(msg.deliveries, st.d, msg'.deliveries[st.d], WasAccepted);
    if HandlerRuns(msg') {
      var d :| 0 <= d < |msg'.deliveries| && msg'.deliveries[d].phase.Handling?;
      assert msg.deliveries[d].phase.Handling?;
    }
  }

  /** A step inside a message changes one delivery, which is not with the handler afterwards; unless
      the handler takes a command just then, the mailer's part in it stays as it was. */
  lemma OneDeliverySteps(s: State, st: Step)
    requires Inv(s) && Enabled(s, st) && !st.Arrive? && !st.Deliver?
    ensures var msg, msg' := s.messages[st.m], Apply(s, st).messages[st.m];
      && |msg'.deliveries| == |msg.deliveries| && msg'.deliveries == msg.deliveries[st.d := msg'.deliveries[st.d]]
      && !msg'.deliveries[st.d].phase.Handling? && msg'.payload == msg.payload
      && (msg.settledBy.Some? ==> msg'.settledBy.Some?) && Apply(s, st).maxDeliver == s.maxDeliver
      && (!(st.RunHandler? && msg.payload.Email?) ==> msg'.deliveries[st.d].accepted == msg.deliveries[st.d].accepted)
  {
    DeliveryIsOk(s, st.m, st.d);
  }

  lemma {:induction false} NeverMailedAgain(maxDeliver: nat, steps: seq<Step>, more: seq<Step>, m: nat)
    requires maxDeliver >= 1 && Legal(maxDeliver, steps) && Legal(maxDeliver, steps + more)
    requires m < |Exec(maxDeliver, steps).messages| && !CanBeMailed(Exec(maxDeliver, steps), m)
    ensures var s, s' := Exec(maxDeliver, steps), Exec(maxDeliver, steps + more);
      m < |s'.messages| && !CanBeMailed(s', m) && MailsOf(s'.messages[m]) == MailsOf(s.messages[m])
  {
    if more == [] {
      assert steps + more == steps;
    } else {
      var n := |more| - 1;
      var all := steps + more;
      assert all[..|all| - 1] == steps + more[..n];
      NeverMailedAgain(maxDeliver, steps, more[..n], m);
      RunKeepsInv(maxDeliver, steps + more[..n]);
      StepCannotMail(Exec(maxDeliver, steps + more[..n]), more[n], m);
    }
  }

  /** At any moment of any run, whatever was mailed before: the message can still be mailed exactly
      when it is a command that may be delivered once more or is with the handler. */
  lemma MailedAgainIff(maxDeliver: nat, steps: seq<Step>, m: nat)
    requires maxDeliver >= 1 && Legal(maxDeliver, steps) && m < |Exec(maxDeliver, steps).messages|
    ensures CanBeMailed(Exec(maxDeliver, steps), m) <==> exists more :: MailedIn(maxDeliver, steps, more, m)
  {
    if CanBeMailed(Exec(maxDeliver, steps), m) {
      var more := OneMoreMail(maxDeliver, steps, m);
    } else {
      forall more | Legal(maxDeliver, steps + more)
        ensures !MailedIn(maxDeliver, steps, more, m)
      {
        NeverMailedAgain(maxDeliver, steps, more, m);
      }
    }
  }
}

/** The consume callback and the handler over message, mailer and dead-letter objects. */
module Subscriber {
  import opened Common
  import opened Consumer

  datatype Disposition = Unsettled | WasAcked | WasNaked | WasTermed

  /** The delivery is the message's last: it is hopeless, or the mailer refused it at the cap. */
  predicate GivesUp(p: Payload, mail: Outcome, numDelivered: int, maxDeliver: int) {
    !p.Email? || (!mail.Done? && numDelivered >= maxDeliver)
  }

  function Seen(metadata: Option<nat>): int {
    if metadata.Some? then metadata.value else 1
  }

  /** The machine's steps of one delivery that nothing interrupts. */
  function Callback(s: State, m: nat, d: nat, mail: Outcome, readable: bool, park: Outcome, settle: Outcome): State
    requires Has(s, m, d) && At(s, m, d).Handling?
  {
    var s1 := Apply(s, Consumer.RunHandler(m, d, mail, readable));
    var phase := At(s1, m, d);
    if phase.Acking? then Apply(s1, SendAck(m, d, settle))
    else if phase.Naking? then Apply(s1, SendNak(m, d))
    else
      var s2 := Apply(s1, Consumer.Park(m, d, park));
      Apply(s2, if At(s2, m, d).Terming? then SendTerm(m, d, settle) else SendNak(m, d))
  }

  lemma HandlerStep(s: State, m: nat, d: nat, mail: Outcome, readable: bool)
    requires Has(s, m, d) && At(s, m, d).Handling?
    ensures var p, s1 := s.messages[m].payload, Apply(s, Consumer.RunHandler(m, d, mail, readable));
            var sent := p.Email? && mail.Done?;
            var last := GivesUp(p, mail, Seen(if readable then Some(d + 1) else None), s.maxDeliver);
      && Has(s1, m, d) && s1.dlq == s.dlq && s1.messages[m].payload == p
      && s1.messages[m].deliveries[d]
         == Delivery(if sent then Acking else if last then Parking else Naking(Retried), p.Email? && mail.Applied(),
                     false, readable)
  {
    assert Handle(s.messages[m].payload, mail.Done?) == NoError <==> s.messages[m].payload.Email? && mail.Done?;
  }

  lemma LastSteps(s: State, m: nat, d: nat, park: Outcome, settle: Outcome)
    requires Has(s, m, d) && At(s, m, d).Parking?
    ensures var s2 := Apply(s, Consumer.Park(m, d, park));
      && Has(s2, m, d) && (At(s2, m, d).Terming? <==> park.Done?) && (!park.Done? ==> At(s2, m, d).Naking?)
      && var s' := Apply(s2, if At(s2, m, d).Terming? then SendTerm(m, d, settle) else SendNak(m, d));
         && Has(s', m, d)
         && s'.dlq == (if park.Applied() then s.dlq + [Parked(m, s.messages[m].payload)] else s.dlq)
         && At(s', m, d) == Over(if !park.Done? then ParkFailed
                                  else if settle.Applied() then Settled else SettlementLost)
         && s'.messages[m].deliveries[d].accepted == s.messages[m].deliveries[d].accepted
  {
  }

  /** An uninterrupted delivery in the machine parks, settles and leaves open exactly what
      `OnMessage` acks, terms and naks. */
  lemma CallbackMatches(s: State, m: nat, d: nat, mail: Outcome, readable: bool, park: Outcome, settle: Outcome)
    requires Has(s, m, d) && At(s, m, d).Handling?
    ensures var p, s' := s.messages[m].payload, Callback(s, m, d, mail, readable, park, settle);
            var sent := p.Email? && mail.Done?;
            var last := GivesUp(p, mail, Seen(if readable then Some(d + 1) else None), s.maxDeliver);
      && s'.dlq == (if last && park.Applied() then s.dlq + [Parked(m, p)] else s.dlq)
      && Has(s', m, d)
      && (At(s', m, d) == Over(Settled) <==> (sent || (last && park.Done?)) && settle.Applied())
      && (At(s', m, d) == Over(Retried) <==> !sent && !last)
      && (At(s', m, d) == Over(ParkFailed) <==> last && !park.Done?)
      && s'.messages[m].deliveries[d].accepted == (p.Email? && mail.Applied())
  {
    HandlerStep(s, m, d, mail, readable);
    var s1 := Apply(s, Consumer.RunHandler(m, d, mail, readable));
    if At(s1, m, d).Parking? {
      LastSteps(s1, m, d, park, settle);
    }
  }

  class Msg {
    const payload: Payload
    const numDelivered: Option<nat>    // None when the metadata cannot be read
    var disposition: Disposition

    constructor (payload: Payload, numDelivered: Option<nat>)
      ensures this.payload == payload && this.numDelivered == numDelivered && disposition == Unsettled
    {
      this.payload, this.numDelivered, disposition := payload, numDelivered, Unsettled;
    }
  }

  class Mailer {
    var accepted: seq<string>

    constructor ()
      ensures accepted == []
    {
      accepted := [];
    }

    method Send(recipient: string, o: Outcome) returns (ok: bool)
      modifies this
      ensures accepted == if o.Applied() then old(accepted) + [recipient] else old(accepted)
      ensures ok == o.Done?
    {
      if o.Applied() {
        accepted := accepted + [recipient];
      }
      ok := o.Done?;
    }
  }

  class Notifier {
    const maxDeliver: nat
    const mailer: Mailer
    var dlq: seq<Payload>
    var acked: nat
    var naked: nat
    var termed: nat

    constructor (maxDeliver: nat, mailer: Mailer)
      ensures this.maxDeliver == maxDeliver && this.mailer == mailer && dlq == []
      ensures acked == naked == termed == 0
    {
      this.maxDeliver, this.mailer, dlq := maxDeliver, mailer, [];
      acked, naked, termed := 0, 0, 0;
    }

    /** Unreadable and recipient-less payloads never reach the mailer. */
    method RunHandler(payload: Payload, o: Outcome) returns (err: HandlerError)
      modifies mailer
      ensures err == Handle(payload, o.Done?)
      ensures mailer.accepted == if payload.Email? && o.Applied() then old(mailer.accepted) + [payload.recipient]
                                 else old(mailer.accepted)
    {
      if !payload.Email? {
        return Permanent;
      }
      var ok := mailer.Send(payload.recipient, o);
      err := if ok then NoError else Transient;
    }

    /** One delivery, start to end. The outcome metric counts the action chosen, even when a failed
        park turns the term into a nak. */
    method OnMessage(msg: Msg, mail: Outcome, park: Outcome)
      requires msg.disposition == Unsettled
      modifies this`dlq, this`acked, this`naked, this`termed, mailer, msg
      ensures mailer.accepted == if msg.payload.Email? && mail.Applied()
                                 then old(mailer.accepted) + [msg.payload.recipient]
                                 else old(mailer.accepted)
      ensures var sent := msg.payload.Email? && mail.Done?;
              var last := GivesUp(msg.payload, mail, Seen(msg.numDelivered), maxDeliver);
        && dlq == (if last && park.Applied() then old(dlq) + [msg.payload] else old(dlq))
        && msg.disposition == (if sent then WasAcked else if last && park.Done? then WasTermed else WasNaked)
        && acked == old(acked) + (if sent then 1 else 0)
        && termed == old(termed) + (if last then 1 else 0)
        && naked == old(naked) + (if !sent && !last then 1 else 0)
    {
      var herr := RunHandler(msg.payload, mail);
      var numDelivered := Seen(msg.numDelivered);
      match Classify(herr, numDelivered, maxDeliver) {
        case Ack =>
          acked := acked + 1;
          msg.disposition := WasAcked;
        case Nak =>
          naked := naked + 1;
          msg.disposition := WasNaked;
        case Term =>
          termed := termed + 1;
          if park.Applied() {
            dlq := dlq + [msg.payload];
          }
          msg.disposition := if park.Done? then WasTermed else WasNaked;
      }
    }
  }
}
