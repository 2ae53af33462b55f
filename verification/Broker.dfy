/** The event broker of internal/sse/broker.go as a machine whose steps are the blocks that
    run between two lock or channel operations. */
module Broker {
  import opened Options
  import opened Sequences

  const CAPACITY := 128

  datatype Kind = Shutdown | Other(name: string)

  datatype Event = Event(kind: Kind, topic: string, data: int)

  /** What Close sends. */
  const SHUTDOWN := Event(Shutdown, "", 0)

  datatype Sender = Publisher(name: nat) | Closer

  datatype Message = Message(from: Sender, event: Event)

  /** One try-send, with the number of messages that were pending. */
  datatype Attempt = Attempt(message: Message, pending: nat)

  /** How far the clean-up goroutine of a subscriber is. */
  datatype Stage = Waiting | Deleted | Finished

  datatype Sub = Sub(
    id: string, topics: set<string>, queue: seq<Message>, closes: nat, cancelled: bool, stage: Stage,
    received: seq<Message>, attempts: seq<Attempt>)

  /** A Publish call under the read lock, with the ids that its loop has not come to. */
  datatype Reader = Reader(event: Event, rest: set<string>)

  datatype Happening =
    | Subscribed(sub: nat, id: string)
    | Deregistered(sub: nat, id: string)
    | Published(from: nat, event: Event)
    | Closed

  /** All subscribers ever made, the broker's map of ids to them, and who holds its lock: any
      number of readers, or Close. */
  datatype State = State(
    subs: seq<Sub>, table: map<string, nat>, closed: bool, readers: map<nat, Reader>, closing: Option<set<string>>,
    panicked: bool, log: seq<Happening>)

  const INIT := State([], map[], false, map[], None, false, [])

  datatype Step =
    | Subscribe(id: string, topics: set<string>)
    | StartPublish(from: nat, topic: string, event: Event)
    | Visit(from: nat, id: string)
    | EndPublish(from: nat)
    | Receive(sub: nat)
    | Cancel(sub: nat)
    | Deregister(sub: nat)
    | CloseChannel(sub: nat)
    | StartClose
    | CloseVisit(id: string)
    | EndClose

  predicate Matches(topics: set<string>, topic: string) {
    topic in topics || "*" in topics
  }

  function NewSub(id: string, topics: set<string>): Sub {
    Sub(id, topics, [], 0, false, Waiting, [], [])
  }

  /** What a channel holds after a send in a select with a default. */
  function Offer<T>(queue: seq<T>, message: T): seq<T> {
    if |queue| < CAPACITY then queue + [message] else queue
  }

  function TrySend(sub: Sub, message: Message): Sub {
    sub.(queue := Offer(sub.queue, message),
    attempts := sub.attempts + [Attempt(message, |sub.queue|)])
  }

  /** Sending on a closed channel panics. */
  function Send(s: State, h: nat, message: Message): State
    requires h < |s.subs|
  {
    if s.subs[h].closes > 0 then s.(panicked := true)
    else s.(subs := s.subs[h := TrySend(s.subs[h], message)])
  }

  predicate WriteLockFree(s: State) {
    s.readers == map[] && s.closing.None?
  }

  predicate Known(s: State, id: string) {
    id in s.table && s.table[id] < |s.subs|
  }

  predicate Enabled(s: State, step: Step) {
    match step
    case Subscribe(_, _) => WriteLockFree(s)
    case StartPublish(p, _, _) => s.closing.None? && p !in s.readers
    case Visit(p, id) => p in s.readers && id in s.readers[p].rest && Known(s, id)
    case EndPublish(p) => p in s.readers && s.readers[p].rest == {}
    case Receive(h) => h < |s.subs| && s.subs[h].queue != []
    case Cancel(h) => h < |s.subs|
    case Deregister(h) => h < |s.subs| && s.subs[h].cancelled && s.subs[h].stage == Waiting && WriteLockFree(s)
    case CloseChannel(h) => h < |s.subs| && s.subs[h].stage == Deleted
    case StartClose => WriteLockFree(s)
    case CloseVisit(id) => s.closing.Some? && id in s.closing.value && Known(s, id)
    case EndClose => s.closing.Some? && s.closing.value == {}
  }

  function Do(s: State, step: Step): State
    requires Enabled(s, step)
  {
    match step
    case Subscribe(id, topics) =>
      s.(subs := s.subs + [NewSub(id, topics)], table := s.table[id := |s.subs|],
      log := s.log + [Subscribed(|s.subs|, id)])
    case StartPublish(p, topic, event) =>
      var stamped := event.(topic := topic);
      s.(readers := if s.closed then s.readers else s.readers[p := Reader(stamped, s.table.Keys)],
      log := s.log + [Published(p, stamped)])
    case Visit(p, id) => DoVisit(s, p, id)
    case EndPublish(p) => s.(readers := s.readers - {p})
    case Receive(h) =>
      var sub := s.subs[h];
      s.(subs := s.subs[h := sub.(queue := sub.queue[1..], received := sub.received + [sub.queue[0]])])
    case Cancel(h) => s.(subs := s.subs[h := s.subs[h].(cancelled := true)])
    case Deregister(h) =>
      s.(table := s.table - {s.subs[h].id}, subs := s.subs[h := s.subs[h].(stage := Deleted)],
      log := s.log + [Deregistered(h, s.subs[h].id)])
    case CloseChannel(h) =>
      s.(panicked := s.panicked || s.subs[h].closes > 0,
      subs := s.subs[h := s.subs[h].(stage := Finished, closes := s.subs[h].closes + 1)])
    case StartClose => s.(closed := true, closing := Some(s.table.Keys), log := s.log + [Closed])
    case CloseVisit(id) => DoCloseVisit(s, id)
    case EndClose => s.(closing := None)
  }

  /** One round of the loop in Publish. */
  function DoVisit(s: State, p: nat, id: string): State
    requires Enabled(s, Visit(p, id))
  {
    var event := s.readers[p].event;
    var h := s.table[id];
    var sent := if Matches(s.subs[h].topics, event.topic) then Send(s, h, Message(Publisher(p), event)) else s;
    sent.(readers := s.readers[p := Reader(event, s.readers[p].rest - {id})])
  }

  /** One round of the loop in Close. */
  function DoCloseVisit(s: State, id: string): State
    requires Enabled(s, CloseVisit(id))
  {
    var h := s.table[id];
    var sent := Send(s, h, Message(Closer, SHUTDOWN));
    sent.(closing := Some(s.closing.value - {id}), subs := sent.subs[h := sent.subs[h].(cancelled := true)])
  }

  /** A schedule of enabled steps. */
  predicate Legal(steps: seq<Step>)
    decreases |steps|, 0
  {
    steps == [] || (Legal(steps[..|steps| - 1]) && Enabled(After(steps[..|steps| - 1]), steps[|steps| - 1]))
  }

  /** The state after a schedule. */
  function After(steps: seq<Step>): State
    requires Legal(steps)
    decreases |steps|, 1
  {
    if steps == [] then INIT else Do(After(steps[..|steps| - 1]), steps[|steps| - 1])
  }

  // ----- what is promised -----

  function Accepted(attempts: seq<Attempt>): seq<Message> {
    if attempts == [] then []
    else
      var last := attempts[|attempts| - 1];
      Accepted(attempts[..|attempts| - 1]) + if last.pending < 128 then [last.message] else []
  }

  function EventsBy(attempts: seq<Attempt>, from: Sender): seq<Event> {
    if attempts == [] then []
    else
      var last := attempts[|attempts| - 1].message;
      EventsBy(attempts[..|attempts| - 1], from) + if last.from == from then [last.event] else []
  }

  /** Who the map has under an id, going by what happened. */
  function Holder(log: seq<Happening>, id: string): Option<nat> {
    if log == [] then None
    else
      var last := log[|log| - 1];
      if last.Subscribed? && last.id == id then Some(last.sub)
      else if last.Deregistered? && last.id == id then None
      else Holder(log[..|log| - 1], id)
  }

  /** What a happening makes a sender send to a subscriber of these topics. */
  function Sends(before: seq<Happening>, last: Happening, topics: set<string>, from: Sender): seq<Event> {
    match last
    case Published(p, event) =>
      if from == Publisher(p) && Closed !in before && (event.topic in topics || "*" in topics) then [event] else []
    case Closed => if from == Closer then [Event(Shutdown, "", 0)] else []
    case _ => []
  }

  /** What a sender sends to a subscriber while the map has it, in order. */
  function Addressed(log: seq<Happening>, h: nat, id: string, topics: set<string>, from: Sender): seq<Event> {
    if log == [] then []
    else
      var before := log[..|log| - 1];
      Addressed(before, h, id, topics, from) +
      if Holder(before, id) == Some(h) then Sends(before, log[|log| - 1], topics, from) else []
  }

  /** Whether a subscriber has subscribed and not been cleaned up. */
  predicate Registered(log: seq<Happening>, h: nat) {
    log != [] &&
    var last := log[|log| - 1];
    if last.Subscribed? && last.sub == h then true
    else if last.Deregistered? && last.sub == h then false
    else Registered(log[..|log| - 1], h)
  }

  /** What a sender sends to a subscriber while it is registered, in order. */
  function Due(log: seq<Happening>, h: nat, topics: set<string>, from: Sender): seq<Event> {
    if log == [] then []
    else
      var before := log[..|log| - 1];
      Due(before, h, topics, from) +
      if Registered(before, h) then Sends(before, log[|log| - 1], topics, from) else []
  }

  /** What a sender is about to send to a subscriber. */
  function InFlight(s: State, h: nat, from: Sender): seq<Event>
    requires h < |s.subs|
  {
    var id := s.subs[h].id;
    if id !in s.table || s.table[id] != h then []
    else
      match from
      case Publisher(p) =>
        if p in s.readers && id in s.readers[p].rest &&
           (s.readers[p].event.topic in s.subs[h].topics || "*" in s.subs[h].topics)
        then [s.readers[p].event] else []
      case Closer => if s.closing.Some? && id in s.closing.value then [Event(Shutdown, "", 0)] else []
  }

  // ----- the invariant -----

  predicate SubOk(sub: Sub) {
    && sub.closes == (if sub.stage == Finished then 1 else 0)
    && (sub.stage != Waiting ==> sub.cancelled)
    && |sub.queue| <= CAPACITY
    && sub.received + sub.queue == Accepted(sub.attempts)
  }

  ghost predicate SubsOk(subs: seq<Sub>) {
    forall h :: 0 <= h < |subs| ==> SubOk(subs[h])
  }

  ghost predicate TableOk(subs: seq<Sub>, table: map<string, nat>) {
    forall id :: id in table ==>
      table[id] < |subs| && subs[table[id]].id == id && subs[table[id]].stage == Waiting
  }

  ghost predicate LocksOk(
    table: map<string, nat>, closed: bool, readers: map<nat, Reader>, closing: Option<set<string>>)
  {
    && (forall p :: p in readers ==> readers[p].rest <= table.Keys)
    && (closing.Some? ==> closing.value <= table.Keys)
    && (closed ==> readers == map[])
    && (closing.Some? ==> closed)
  }

  ghost predicate LogOk(subs: seq<Sub>, table: map<string, nat>, closed: bool, log: seq<Happening>) {
    && (forall id: string :: Holder(log, id) == if id in table then Some(table[id]) else None)
    && (closed <==> Closed in log)
    && (forall e :: e in log && (e.Subscribed? || e.Deregistered?) ==> e.sub < |subs| && subs[e.sub].id == e.id)
  }

  ghost predicate Delivers(s: State, h: nat, from: Sender)
    requires h < |s.subs|
  {
    Addressed(s.log, h, s.subs[h].id, s.subs[h].topics, from) ==
    EventsBy(s.subs[h].attempts, from) + InFlight(s, h, from)
  }

  ghost predicate DeliveryOk(s: State) {
    forall h: nat, from: Sender :: h < |s.subs| ==> Delivers(s, h, from)
  }

  ghost predicate Inv(s: State) {
    && !s.panicked
    && SubsOk(s.subs)
    && TableOk(s.subs, s.table)
    && LocksOk(s.table, s.closed, s.readers, s.closing)
    && LogOk(s.subs, s.table, s.closed, s.log)
    && DeliveryOk(s)
  }

  lemma EventsByMore(attempts: seq<Attempt>, a: Attempt, from: Sender)
    ensures EventsBy(attempts + [a], from) ==
            EventsBy(attempts, from) + if a.message.from == from then [a.message.event] else []
  {
  }

  lemma HolderMore(log: seq<Happening>, e: Happening, id: string)
    ensures Holder(log + [e], id) == if e.Subscribed? && e.id == id then Some(e.sub)
                                     else if e.Deregistered? && e.id == id then None
                                     else Holder(log, id)
  {
  }

  lemma AddressedMore(log: seq<Happening>, e: Happening, h: nat, id: string, topics: set<string>, from: Sender)
    ensures Addressed(log + [e], h, id, topics, from) == Addressed(log, h, id, topics, from) +
            if Holder(log, id) == Some(h) then Sends(log, e, topics, from) else []
  {
  }

  lemma TrySendOk(sub: Sub, message: Message)
    requires SubOk(sub) && sub.stage == Waiting
    ensures SubOk(TrySend(sub, message))
  {
  }

  lemma ReceiveOk(sub: Sub)
    requires SubOk(sub) && sub.queue != []
    ensures SubOk(sub.(queue := sub.queue[1..], received := sub.received + [sub.queue[0]]))
  {
  }

  lemma SendKeepsSubs(s: State, h: nat, message: Message)
    requires SubsOk(s.subs) && h < |s.subs| && s.subs[h].stage == Waiting
    ensures SubsOk(Send(s, h, message).subs) && Send(s, h, message).panicked == s.panicked
  {
    TrySendOk(s.subs[h], message);
  }

  lemma VisitKeepsSubs(s: State, step: Step)
    requires SubsOk(s.subs) && TableOk(s.subs, s.table) && Enabled(s, step) && (step.Visit? || step.CloseVisit?)
    ensures SubsOk(Do(s, step).subs) && Do(s, step).panicked == s.panicked
  {
    SendKeepsSubs(s, s.table[step.id],
                  if step.Visit? then Message(Publisher(step.from), s.readers[step.from].event)
                  else Message(Closer, SHUTDOWN));
  }

  lemma StepKeepsSubs(s: State, step: Step)
    requires SubsOk(s.subs) && TableOk(s.subs, s.table) && Enabled(s, step)
    ensures SubsOk(Do(s, step).subs) && Do(s, step).panicked == s.panicked
  {
    if step.Visit? || step.CloseVisit? {
      VisitKeepsSubs(s, step);
    } else if step.Receive? {
      ReceiveOk(s.subs[step.sub]);
    }
  }

  /** A subscriber keeps its identity, and waits until its clean-up. */
  ghost predicate SameSubs(subs: seq<Sub>, subs': seq<Sub>, step: Step) {
    && |subs| <= |subs'|
    && forall h :: 0 <= h < |subs| ==>
         && subs'[h].id == subs[h].id && subs'[h].topics == subs[h].topics
         && (subs[h].stage == Waiting && step != Deregister(h) ==> subs'[h].stage == Waiting)
  }

  lemma VisitKeepsIdentity(s: State, step: Step)
    requires Enabled(s, step) && (step.Visit? || step.CloseVisit?)
    ensures SameSubs(s.subs, Do(s, step).subs, step) && |Do(s, step).subs| == |s.subs|
  {
  }

  lemma StepKeepsIdentity(s: State, step: Step)
    requires Enabled(s, step)
    ensures SameSubs(s.subs, Do(s, step).subs, step)
  {
    if step.Visit? || step.CloseVisit? {
      VisitKeepsIdentity(s, step);
    }
  }

  lemma StepKeepsTable(s: State, step: Step)
    requires TableOk(s.subs, s.table) && Enabled(s, step)
    ensures TableOk(Do(s, step).subs, Do(s, step).table)
  {
    StepKeepsIdentity(s, step);
    match step {
      case Subscribe(id, topics) =>
      case Deregister(h) =>
        forall id | id in s.table && id != s.subs[h].id ensures s.table[id] != h {
        }
      case _ =>
        assert Do(s, step).table == s.table;
    }
  }

  lemma StepKeepsLocks(s: State, step: Step)
    requires LocksOk(s.table, s.closed, s.readers, s.closing) && Enabled(s, step)
    ensures var t := Do(s, step); LocksOk(t.table, t.closed, t.readers, t.closing)
  {
  }

  /** The steps that are logged. */
  function Logged(s: State, step: Step): seq<Happening>
    requires Enabled(s, step)
  {
    match step
    case Subscribe(id, _) => [Subscribed(|s.subs|, id)]
    case StartPublish(p, topic, event) => [Published(p, event.(topic := topic))]
    case Deregister(h) => [Deregistered(h, s.subs[h].id)]
    case StartClose => [Closed]
    case _ => []
  }

  lemma VisitLogs(s: State, step: Step)
    requires Enabled(s, step) && (step.Visit? || step.CloseVisit?)
    ensures Do(s, step).log == s.log && Do(s, step).closed == s.closed && Do(s, step).table == s.table
  {
  }

  lemma StepLogs(s: State, step: Step)
    requires Enabled(s, step)
    ensures Do(s, step).log == s.log + Logged(s, step)
    ensures Do(s, step).closed == (s.closed || step == StartClose)
    ensures Do(s, step).table == match step
                                 case Subscribe(id, _) => s.table[id := |s.subs|]
                                 case Deregister(h) => s.table - {s.subs[h].id}
                                 case _ => s.table
  {
    if step.Visit? || step.CloseVisit? {
      VisitLogs(s, step);
    }
  }

  lemma StepKeepsLog(s: State, step: Step)
    requires LogOk(s.subs, s.table, s.closed, s.log) && Enabled(s, step)
    ensures var t := Do(s, step); LogOk(t.subs, t.table, t.closed, t.log)
  {
    var t := Do(s, step);
    StepLogs(s, step);
    StepKeepsIdentity(s, step);
    if Logged(s, step) == [] {
      assert t.log == s.log;
    } else {
      var e := Logged(s, step)[0];
      assert t.log == s.log + [e];
      forall id: string {
        HolderMore(s.log, e, id);
      }
    }
  }

  // ----- delivery -----

  lemma {:induction false} HolderSubscribed(log: seq<Happening>, id: string)
    requires Holder(log, id).Some?
    ensures Subscribed(Holder(log, id).value, id) in log
  {
    var last := log[|log| - 1];
    if !(last.Subscribed? && last.id == id) {
      HolderSubscribed(log[..|log| - 1], id);
    }
  }

  lemma {:induction false} NothingForStrangers(
    log: seq<Happening>, h: nat, id: string, topics: set<string>, from: Sender)
    requires Subscribed(h, id) !in log
    ensures Addressed(log, h, id, topics, from) == []
  {
    if log == [] {
    } else {
      var before := log[..|log| - 1];
      NothingForStrangers(before, h, id, topics, from);
      if Holder(before, id) == Some(h) {
        HolderSubscribed(before, id);
      }
    }
  }

  lemma SubscribeDelivers(s: State, step: Step, h: nat, from: Sender)
    requires step.Subscribe? && Enabled(s, step) && h < |Do(s, step).subs|
    requires h < |s.subs| ==> Delivers(s, h, from)
    requires LogOk(s.subs, s.table, s.closed, s.log)
    ensures Delivers(Do(s, step), h, from)
  {
    var t := Do(s, step);
    var e := Subscribed(|s.subs|, step.id);
    AddressedMore(s.log, e, h, t.subs[h].id, t.subs[h].topics, from);
    assert InFlight(t, h, from) == [];
    if h == |s.subs| {
      NothingForStrangers(s.log, h, step.id, step.topics, from);
    }
  }

  lemma DeregisterDelivers(s: State, step: Step, h: nat, from: Sender)
    requires step.Deregister? && Enabled(s, step) && h < |s.subs| && Delivers(s, h, from)
    ensures Delivers(Do(s, step), h, from)
  {
  }

  /** What the start of a loop makes a sender owe to a subscriber. */
  lemma StartDelivers(s: State, step: Step, e: Happening, h: nat, from: Sender)
    requires (step.StartPublish? || step.StartClose?) && Enabled(s, step) && Logged(s, step) == [e]
    requires h < |s.subs| && Delivers(s, h, from)
    requires InFlight(Do(s, step), h, from) == InFlight(s, h, from) +
             if Holder(s.log, s.subs[h].id) == Some(h) then Sends(s.log, e, s.subs[h].topics, from) else []
    ensures Delivers(Do(s, step), h, from)
  {
    StepLogs(s, step);
    AddressedMore(s.log, e, h, s.subs[h].id, s.subs[h].topics, from);
    ConcatAssociative(
      EventsBy(s.subs[h].attempts, from), InFlight(s, h, from),
      if Holder(s.log, s.subs[h].id) == Some(h) then Sends(s.log, e, s.subs[h].topics, from) else []);
  }

  lemma StartPublishDelivers(s: State, step: Step, h: nat, from: Sender)
    requires step.StartPublish? && Enabled(s, step) && h < |s.subs| && Delivers(s, h, from)
    requires LogOk(s.subs, s.table, s.closed, s.log)
    ensures Delivers(Do(s, step), h, from)
  {
    StartDelivers(s, step, Logged(s, step)[0], h, from);
  }

  lemma StartCloseDelivers(s: State, step: Step, h: nat, from: Sender)
    requires step.StartClose? && Enabled(s, step) && h < |s.subs| && Delivers(s, h, from)
    requires LogOk(s.subs, s.table, s.closed, s.log)
    ensures Delivers(Do(s, step), h, from)
  {
    StartDelivers(s, step, Closed, h, from);
  }

  /** What a round of the loop in Publish sends on behalf of a sender. */
  function VisitSent(s: State, step: Step, h: nat, from: Sender): seq<Event>
    requires step.Visit? && Enabled(s, step) && h < |s.subs|
  {
    var event := s.readers[step.from].event;
    if s.table[step.id] == h && from == Publisher(step.from) && Matches(s.subs[h].topics, event.topic)
    then [event] else []
  }

  lemma VisitAttempts(s: State, step: Step, h: nat, from: Sender)
    requires step.Visit? && Enabled(s, step) && h < |s.subs|
    requires s.subs[s.table[step.id]].closes == 0
    ensures EventsBy(Do(s, step).subs[h].attempts, from) ==
            EventsBy(s.subs[h].attempts, from) + VisitSent(s, step, h, from)
  {
    var event := s.readers[step.from].event;
    var attempt := Attempt(Message(Publisher(step.from), event), |s.subs[h].queue|);
    EventsByMore(s.subs[h].attempts, attempt, from);
    assert Do(s, step) == DoVisit(s, step.from, step.id);
    if s.table[step.id] == h && Matches(s.subs[h].topics, event.topic) {
      assert Do(s, step).subs[h].attempts == s.subs[h].attempts + [attempt];
    } else {
      assert Do(s, step).subs[h].attempts == s.subs[h].attempts;
    }
  }

  lemma VisitInFlight(s: State, step: Step, h: nat, from: Sender)
    requires step.Visit? && Enabled(s, step) && h < |s.subs|
    requires TableOk(s.subs, s.table)
    ensures var t := Do(s, step);
            && t.log == s.log && |t.subs| == |s.subs|
            && t.subs[h].id == s.subs[h].id && t.subs[h].topics == s.subs[h].topics
            && InFlight(s, h, from) == VisitSent(s, step, h, from) + InFlight(t, h, from)
  {
    VisitLogs(s, step);
    VisitKeepsIdentity(s, step);
  }

  lemma VisitDelivers(s: State, step: Step, h: nat, from: Sender)
    requires step.Visit? && Enabled(s, step) && h < |s.subs| && Delivers(s, h, from)
    requires SubsOk(s.subs) && TableOk(s.subs, s.table)
    ensures Delivers(Do(s, step), h, from)
  {
    assert SubOk(s.subs[s.table[step.id]]);
    VisitAttempts(s, step, h, from);
    VisitInFlight(s, step, h, from);
    ConcatAssociative(EventsBy(s.subs[h].attempts, from), VisitSent(s, step, h, from), InFlight(Do(s, step), h, from));
  }

  /** What a round of the loop in Close sends on behalf of a sender. */
  function CloseVisitSent(s: State, step: Step, h: nat, from: Sender): seq<Event>
    requires step.CloseVisit? && Enabled(s, step) && h < |s.subs|
  {
    if s.table[step.id] == h && from == Closer then [SHUTDOWN] else []
  }

  lemma CloseVisitAttempts(s: State, step: Step, h: nat, from: Sender)
    requires step.CloseVisit? && Enabled(s, step) && h < |s.subs|
    requires s.subs[s.table[step.id]].closes == 0
    ensures EventsBy(Do(s, step).subs[h].attempts, from) ==
            EventsBy(s.subs[h].attempts, from) + CloseVisitSent(s, step, h, from)
  {
    EventsByMore(s.subs[h].attempts, Attempt(Message(Closer, SHUTDOWN), |s.subs[h].queue|), from);
  }

  lemma CloseVisitInFlight(s: State, step: Step, h: nat, from: Sender)
    requires step.CloseVisit? && Enabled(s, step) && h < |s.subs|
    requires TableOk(s.subs, s.table)
    ensures var t := Do(s, step);
            && t.log == s.log && |t.subs| == |s.subs|
            && t.subs[h].id == s.subs[h].id && t.subs[h].topics == s.subs[h].topics
            && InFlight(s, h, from) == CloseVisitSent(s, step, h, from) + InFlight(t, h, from)
  {
    VisitLogs(s, step);
    VisitKeepsIdentity(s, step);
  }

  lemma CloseVisitDelivers(s: State, step: Step, h: nat, from: Sender)
    requires step.CloseVisit? && Enabled(s, step) && h < |s.subs| && Delivers(s, h, from)
    requires SubsOk(s.subs) && TableOk(s.subs, s.table)
    ensures Delivers(Do(s, step), h, from)
  {
    assert SubOk(s.subs[s.table[step.id]]);
    CloseVisitAttempts(s, step, h, from);
    CloseVisitInFlight(s, step, h, from);
    ConcatAssociative(
      EventsBy(s.subs[h].attempts, from), CloseVisitSent(s, step, h, from), InFlight(Do(s, step), h, from));
  }

  /** Steps that send nothing and log nothing. */
  lemma QuietDelivers(s: State, step: Step, h: nat, from: Sender)
    requires step.EndPublish? || step.Receive? || step.Cancel? || step.CloseChannel? || step.EndClose?
    requires Enabled(s, step) && h < |s.subs| && Delivers(s, h, from)
    ensures Delivers(Do(s, step), h, from)
  {
    var t := Do(s, step);
    assert t.log == s.log && t.subs[h].attempts == s.subs[h].attempts;
    assert InFlight(t, h, from) == InFlight(s, h, from);
  }

  lemma StepDelivers(s: State, step: Step, h: nat, from: Sender)
    requires Enabled(s, step) && h < |Do(s, step).subs|
    requires h < |s.subs| ==> Delivers(s, h, from)
    requires LogOk(s.subs, s.table, s.closed, s.log)
    requires SubsOk(s.subs) && TableOk(s.subs, s.table)
    ensures Delivers(Do(s, step), h, from)
  {
    if step.Subscribe? {
      SubscribeDelivers(s, step, h, from);
    } else {
      assert |Do(s, step).subs| == |s.subs|;
      match step {
        case Deregister(_) => DeregisterDelivers(s, step, h, from);
        case StartPublish(_, _, _) => StartPublishDelivers(s, step, h, from);
        case StartClose => StartCloseDelivers(s, step, h, from);
        case Visit(_, _) => VisitDelivers(s, step, h, from);
        case CloseVisit(_) => CloseVisitDelivers(s, step, h, from);
        case _ => QuietDelivers(s, step, h, from);
      }
    }
  }

  lemma StepKeepsInv(s: State, step: Step)
    requires Inv(s) && Enabled(s, step)
    ensures Inv(Do(s, step))
  {
    StepKeepsSubs(s, step);
    StepKeepsTable(s, step);
    StepKeepsLocks(s, step);
    StepKeepsLog(s, step);
    forall h: nat, from: Sender | h < |Do(s, step).subs|
      ensures Delivers(Do(s, step), h, from)
    {
      StepDelivers(s, step, h, from);
    }
  }

  lemma {:induction false} RunKeepsInv(steps: seq<Step>)
    requires Legal(steps)
    ensures Inv(After(steps))
  {
    if steps == [] {
    } else {
      RunKeepsInv(steps[..|steps| - 1]);
      StepKeepsInv(After(steps[..|steps| - 1]), steps[|steps| - 1]);
    }
  }

  // ----- which subscribers the map has -----

  /** Only registered subscribers are cleaned up, and none subscribes twice. */
  predicate WellLogged(subs: seq<Sub>, log: seq<Happening>) {
    log != [] ==>
      var before, last := log[..|log| - 1], log[|log| - 1];
      && WellLogged(subs, before)
      && (last.Subscribed? ==> last.sub < |subs| && subs[last.sub].id == last.id && !Registered(before, last.sub))
      && (last.Deregistered? ==> last.sub < |subs| && subs[last.sub].id == last.id && Registered(before, last.sub))
  }

  /** No one subscribes under the id of a registered subscriber. */
  ghost predicate FreshIds(subs: seq<Sub>, log: seq<Happening>) {
    log != [] ==>
      var before, last := log[..|log| - 1], log[|log| - 1];
      && FreshIds(subs, before)
      && (last.Subscribed? ==> forall h: nat :: h < |subs| && Registered(before, h) ==> subs[h].id != last.id)
  }

  /** Every registered subscriber is in the map. */
  ghost predicate AllHeld(subs: seq<Sub>, log: seq<Happening>) {
    forall h: nat :: h < |subs| && Registered(log, h) ==> Holder(log, subs[h].id) == Some(h)
  }

  lemma {:induction false} HolderRegistered(subs: seq<Sub>, log: seq<Happening>, h: nat)
    requires WellLogged(subs, log) && h < |subs| && Holder(log, subs[h].id) == Some(h)
    ensures Registered(log, h)
  {
    var last := log[|log| - 1];
    if !((last.Subscribed? || last.Deregistered?) && last.id == subs[h].id) {
      HolderRegistered(subs, log[..|log| - 1], h);
    }
  }

  /** One more happening keeps the map complete exactly when the id is fresh. */
  lemma HeldMore(subs: seq<Sub>, log: seq<Happening>)
    requires log != [] && WellLogged(subs, log) && AllHeld(subs, log[..|log| - 1])
    ensures AllHeld(subs, log) <==>
            (log[|log| - 1].Subscribed? ==>
               forall h: nat :: h < |subs| && Registered(log[..|log| - 1], h) ==> subs[h].id != log[|log| - 1].id)
  {
  }

  /** The map has every registered subscriber at all times exactly when no id is taken again
      while its subscriber is registered. */
  lemma {:induction false} AllHeldIff(subs: seq<Sub>, log: seq<Happening>)
    requires WellLogged(subs, log)
    ensures FreshIds(subs, log) <==> forall n :: 0 <= n <= |log| ==> AllHeld(subs, log[..n])
  {
    assert log[..|log|] == log;
    if log == [] {
    } else {
      var before := log[..|log| - 1];
      AllHeldIff(subs, before);
      assert forall n :: 0 <= n <= |before| ==> before[..n] == log[..n];
      if AllHeld(subs, before) {
        HeldMore(subs, log);
      }
      if forall n :: 0 <= n <= |log| ==> AllHeld(subs, log[..n]) {
        assert forall n :: 0 <= n <= |before| ==> AllHeld(subs, before[..n]);
      }
      if FreshIds(subs, log) {
        assert AllHeld(subs, before[..|before|]);
        assert before[..|before|] == before;
        forall n | 0 <= n <= |log| ensures AllHeld(subs, log[..n]) {
          if n < |log| {
            assert AllHeld(subs, before[..n]);
          }
        }
      }
    }
  }

  lemma {:induction false} AddressedIsDue(
    subs: seq<Sub>, log: seq<Happening>, h: nat, topics: set<string>, from: Sender)
    requires WellLogged(subs, log) && FreshIds(subs, log) && h < |subs|
    ensures Addressed(log, h, subs[h].id, topics, from) == Due(log, h, topics, from)
  {
    if log == [] {
    } else {
      var before := log[..|log| - 1];
      AddressedIsDue(subs, before, h, topics, from);
      AllHeldIff(subs, before);
      assert before[..|before|] == before;
      if Holder(before, subs[h].id) == Some(h) {
        HolderRegistered(subs, before, h);
      }
    }
  }

  ghost predicate RegisteredOk(subs: seq<Sub>, log: seq<Happening>) {
    forall h: nat :: Registered(log, h) <==> h < |subs| && subs[h].stage == Waiting
  }

  lemma RegisteredMore(log: seq<Happening>, e: Happening, h: nat)
    ensures Registered(log + [e], h) <==>
            (e.Subscribed? && e.sub == h) || (!(e.Deregistered? && e.sub == h) && Registered(log, h))
  {
  }

  lemma StepStages(s: State, step: Step)
    requires TableOk(s.subs, s.table) && Enabled(s, step)
    ensures forall h :: 0 <= h < |Do(s, step).subs| ==>
              (Do(s, step).subs[h].stage == Waiting <==>
               (h < |s.subs| ==> s.subs[h].stage == Waiting && step != Deregister(h)))
  {
  }

  lemma {:induction false} WellLoggedSame(subs: seq<Sub>, subs': seq<Sub>, log: seq<Happening>)
    requires WellLogged(subs, log) && |subs| <= |subs'|
    requires forall h :: 0 <= h < |subs| ==> subs'[h].id == subs[h].id
    ensures WellLogged(subs', log)
  {
    if log == [] {
    } else {
      WellLoggedSame(subs, subs', log[..|log| - 1]);
    }
  }

  lemma StepRegistered(s: State, step: Step)
    requires TableOk(s.subs, s.table) && Enabled(s, step) && RegisteredOk(s.subs, s.log)
    ensures RegisteredOk(Do(s, step).subs, Do(s, step).log)
  {
    StepLogs(s, step);
    StepStages(s, step);
    if Logged(s, step) == [] {
      assert s.log + [] == s.log;
    } else {
      forall h: nat {
        RegisteredMore(s.log, Logged(s, step)[0], h);
      }
    }
  }

  lemma StepWellLogged(s: State, step: Step)
    requires TableOk(s.subs, s.table) && Enabled(s, step)
    requires RegisteredOk(s.subs, s.log) && WellLogged(s.subs, s.log)
    ensures RegisteredOk(Do(s, step).subs, Do(s, step).log) && WellLogged(Do(s, step).subs, Do(s, step).log)
  {
    StepRegistered(s, step);
    StepLogs(s, step);
    StepKeepsIdentity(s, step);
    WellLoggedSame(s.subs, Do(s, step).subs, s.log);
    if Logged(s, step) == [] {
      assert s.log + [] == s.log;
    } else {
      assert (s.log + Logged(s, step))[..|s.log|] == s.log;
    }
  }

  lemma {:induction false} RunWellLogged(steps: seq<Step>)
    requires Legal(steps)
    ensures RegisteredOk(After(steps).subs, After(steps).log) && WellLogged(After(steps).subs, After(steps).log)
  {
    if steps == [] {
    } else {
      var before := steps[..|steps| - 1];
      RunWellLogged(before);
      RunKeepsInv(before);
      StepWellLogged(After(before), steps[|steps| - 1]);
    }
  }

  // ----- main results -----

  /** In every interleaving, and even when ids collide, no one sends on a closed channel or
      closes one twice; a channel is closed exactly by the end of its clean-up. */
  lemma NeverPanics(steps: seq<Step>)
    requires Legal(steps)
    ensures !After(steps).panicked
    ensures forall sub :: sub in After(steps).subs ==> sub.closes == if sub.stage == Finished then 1 else 0
  {
    RunKeepsInv(steps);
  }

  /** A subscriber's channel has carried, in order, exactly the messages that found fewer than
      128 pending; and the messages of each sender are, in order, those that the sender owes it
      while the map has it, up to one that is under way. */
  lemma DeliversExactly(steps: seq<Step>, h: nat, from: Sender)
    requires Legal(steps) && h < |After(steps).subs|
    ensures var s := After(steps); var sub := s.subs[h];
            && sub.received + sub.queue == Accepted(sub.attempts)
            && EventsBy(sub.attempts, from) + InFlight(s, h, from) == Addressed(s.log, h, sub.id, sub.topics, from)
  {
    RunKeepsInv(steps);
    assert Delivers(After(steps), h, from);
  }

  /** As long as no id is taken again while its subscriber is registered, that is everything
      a sender publishes on its topics while it is registered and the broker open. */
  lemma DeliversWhatIsDue(steps: seq<Step>, h: nat, from: Sender)
    requires Legal(steps) && h < |After(steps).subs|
    requires FreshIds(After(steps).subs, After(steps).log)
    ensures var s := After(steps); var sub := s.subs[h];
            && sub.received + sub.queue == Accepted(sub.attempts)
            && EventsBy(sub.attempts, from) + InFlight(s, h, from) == Due(s.log, h, sub.topics, from)
  {
    DeliversExactly(steps, h, from);
    RunWellLogged(steps);
    AddressedIsDue(After(steps).subs, After(steps).log, h, After(steps).subs[h].topics, from);
  }

  /** All registered subscribers can be reached at all times exactly under that condition. */
  lemma ReachesAllIff(steps: seq<Step>)
    requires Legal(steps)
    ensures FreshIds(After(steps).subs, After(steps).log) <==>
            forall n :: 0 <= n <= |After(steps).log| ==> AllHeld(After(steps).subs, After(steps).log[..n])
  {
    RunWellLogged(steps);
    AllHeldIff(After(steps).subs, After(steps).log);
  }

  /** The subscriptions of a schedule, in order. */
  function Subscriptions(steps: seq<Step>): seq<(string, set<string>)> {
    if steps == [] then []
    else
      var last := steps[|steps| - 1];
      Subscriptions(steps[..|steps| - 1]) + if last.Subscribe? then [(last.id, last.topics)] else []
  }

  /** What a schedule leaves to be told of it; subscribers are counted in the order they come. */
  function Recorded(steps: seq<Step>): seq<Happening> {
    if steps == [] then []
    else
      var before := steps[..|steps| - 1];
      Recorded(before) +
      match steps[|steps| - 1]
      case Subscribe(id, _) => [Subscribed(|Subscriptions(before)|, id)]
      case StartPublish(p, topic, event) => [Published(p, Event(event.kind, topic, event.data))]
      case Deregister(h) => if h < |Subscriptions(before)| then [Deregistered(h, Subscriptions(before)[h].0)] else []
      case StartClose => [Closed]
      case _ => []
  }

  ghost predicate SubscribedAs(subs: seq<Sub>, subscriptions: seq<(string, set<string>)>) {
    && |subs| == |subscriptions|
    && forall h :: 0 <= h < |subs| ==> (subs[h].id, subs[h].topics) == subscriptions[h]
  }

  lemma StepSubscribes(s: State, step: Step, subscriptions: seq<(string, set<string>)>)
    requires Enabled(s, step) && SubscribedAs(s.subs, subscriptions)
    ensures SubscribedAs(Do(s, step).subs,
                         subscriptions + if step.Subscribe? then [(step.id, step.topics)] else [])
  {
    StepKeepsIdentity(s, step);
    if step.Visit? || step.CloseVisit? {
      VisitKeepsIdentity(s, step);
    }
  }

  /** The log is the record of the schedule, and each subscriber has the id and the topics that it
      subscribed with. */
  lemma {:induction false} LogIsRecord(steps: seq<Step>)
    requires Legal(steps)
    ensures After(steps).log == Recorded(steps) && SubscribedAs(After(steps).subs, Subscriptions(steps))
  {
    if steps == [] {
    } else {
      var before, last := steps[..|steps| - 1], steps[|steps| - 1];
      LogIsRecord(before);
      StepLogs(After(before), last);
      StepSubscribes(After(before), last, Subscriptions(before));
    }
  }

  /** At most one more message is tried, and it is counted with what was pending then. */
  ghost predicate TriesOne(sub: Sub, sub': Sub) {
    || sub'.attempts == sub.attempts
    || exists m :: sub'.attempts == sub.attempts + [Attempt(m, |sub.queue|)]
  }

  lemma StepTriesOne(s: State, step: Step, h: nat)
    requires Enabled(s, step) && h < |s.subs|
    ensures h < |Do(s, step).subs| && TriesOne(s.subs[h], Do(s, step).subs[h])
  {
    StepKeepsIdentity(s, step);
    if step.Visit? {
      var m := Message(Publisher(step.from), s.readers[step.from].event);
      assert Do(s, step).subs[h].attempts in
          {s.subs[h].attempts, s.subs[h].attempts + [Attempt(m, |s.subs[h].queue|)]};
    } else if step.CloseVisit? {
      var m := Message(Closer, SHUTDOWN);
      assert Do(s, step).subs[h].attempts in
          {s.subs[h].attempts, s.subs[h].attempts + [Attempt(m, |s.subs[h].queue|)]};
    }
  }

  /** What an attempt is said to have found pending is what was pending before its step. */
  lemma AttemptsAreCounted(steps: seq<Step>, h: nat)
    requires steps != [] && Legal(steps) && h < |After(steps[..|steps| - 1]).subs|
    ensures h < |After(steps).subs| && TriesOne(After(steps[..|steps| - 1]).subs[h], After(steps).subs[h])
  {
    StepTriesOne(After(steps[..|steps| - 1]), steps[|steps| - 1], h);
  }

  /** The subscribers that the loop of Close has come to are cancelled. */
  ghost predicate CancelledBut(subs: seq<Sub>, table: map<string, nat>, rest: set<string>) {
    forall id :: id in table && id !in rest ==> table[id] < |subs| && subs[table[id]].cancelled
  }

  lemma CloseVisitCancels(s: State, id: string)
    requires Enabled(s, CloseVisit(id)) && TableOk(s.subs, s.table)
    requires CancelledBut(s.subs, s.table, s.closing.value)
    ensures var t := DoCloseVisit(s, id); t.closing.Some? && CancelledBut(t.subs, t.table, t.closing.value)
  {
  }

  lemma StepCancels(s: State, step: Step)
    requires Enabled(s, step) && TableOk(s.subs, s.table)
    requires s.closing.Some? ==> CancelledBut(s.subs, s.table, s.closing.value)
    requires Do(s, step).closing.Some?
    ensures CancelledBut(Do(s, step).subs, Do(s, step).table, Do(s, step).closing.value)
  {
    if step.CloseVisit? {
      CloseVisitCancels(s, step.id);
    } else if step.Visit? {
      assert s.readers != map[];
    }
  }

  /** When the loop of Close is through, every subscriber in the map is cancelled. */
  lemma {:induction false} CloseCancels(steps: seq<Step>)
    requires Legal(steps) && After(steps).closing.Some?
    ensures CancelledBut(After(steps).subs, After(steps).table, After(steps).closing.value)
  {
    var before := After(steps[..|steps| - 1]);
    RunKeepsInv(steps[..|steps| - 1]);
    if before.closing.Some? {
      CloseCancels(steps[..|steps| - 1]);
    }
    StepCancels(before, steps[|steps| - 1]);
  }

  /** After Close nothing is sent to subscribers by publishers any more. */
  lemma ClosedIsQuiet(steps: seq<Step>)
    requires Legal(steps) && After(steps).closed
    ensures After(steps).readers == map[]
  {
  }

  lemma AfterMore(steps: seq<Step>, step: Step)
    requires Legal(steps) && Enabled(After(steps), step)
    ensures Legal(steps + [step]) && After(steps + [step]) == Do(After(steps), step)
  {
    assert (steps + [step])[..|steps|] == steps;
  }

  const NEWS := Event(Other("operation"), "t", 1)

  /** Two subscriptions under one id, and then a publication on the topic of both. */
  const COLLISION := [
    Subscribe("a", {"t"}), Subscribe("a", {"t"}), StartPublish(0, "t", NEWS), Visit(0, "a"), EndPublish(0)]

  function Collided(): State {
    var first, second := NewSub("a", {"t"}), TrySend(NewSub("a", {"t"}), Message(Publisher(0), NEWS));
    State([first, second], map["a" := 1], false, map[], None, false,
          [Subscribed(0, "a"), Subscribed(1, "a"), Published(0, NEWS)])
  }

  lemma CollisionStarts()
    ensures Legal(COLLISION[..2])
    ensures After(COLLISION[..2]) ==
            State([NewSub("a", {"t"}), NewSub("a", {"t"})], map["a" := 1], false, map[], None, false,
                  [Subscribed(0, "a"), Subscribed(1, "a")])
  {
    AfterMore([], COLLISION[0]);
    AfterMore([COLLISION[0]], COLLISION[1]);
    assert [] + [COLLISION[0]] == [COLLISION[0]] && [COLLISION[0]] + [COLLISION[1]] == COLLISION[..2];
  }

  lemma CollisionIsLegal()
    ensures Legal(COLLISION) && After(COLLISION) == Collided()
  {
    CollisionStarts();
    AfterMore(COLLISION[..2], COLLISION[2]);
    var three := COLLISION[..2] + [COLLISION[2]];
    assert After(three).readers[0] == Reader(NEWS, {"a"});
    AfterMore(three, COLLISION[3]);
    var four := three + [COLLISION[3]];
    assert {"a"} - {"a"} == {};
    assert After(four).readers == map[0 := Reader(NEWS, {})];
    AfterMore(four, COLLISION[4]);
    assert four + [COLLISION[4]] == COLLISION;
    assert After(COLLISION) == Collided();
  }

  /** The failing case: the first of the two is still registered, and misses the event. */
  lemma CollisionLosesEvent()
    ensures Legal(COLLISION) && After(COLLISION) == Collided()
    ensures var s := Collided();
            && !FreshIds(s.subs, s.log) && Registered(s.log, 0)
            && Due(s.log, 0, s.subs[0].topics, Publisher(0)) == [NEWS]
            && s.subs[0].attempts == [] && InFlight(s, 0, Publisher(0)) == []
  {
    CollisionIsLegal();
    var s := Collided();
    var one, two := [Subscribed(0, "a")], [Subscribed(0, "a"), Subscribed(1, "a")];
    assert s.log[..2] == two && two[..1] == one && one[..0] == [];
    assert Registered(one, 0) && Registered(two, 0);
    assert s.subs[0].id == two[1].id;
    assert Due(two, 0, {"t"}, Publisher(0)) == [];
  }

  // ----- ids -----

  function Digit(n: nat): char
    requires n < 10
  {
    ['0', '1', '2', '3', '4', '5', '6', '7', '8', '9'][n]
  }

  /** generateID, of the time to the second and the 64-bit counter. */
  function GenerateId(stamp: string, counter: nat): string {
    stamp + "-" + [Digit(counter % 0x1_0000_0000_0000_0000 % 10)]
  }

  /** Two ids are the same exactly when they are made within a second and at counts that
      agree in their last digit. */
  lemma IdsCollideIff(stamp: string, counter: nat, stamp': string, counter': nat)
    requires |stamp| == |stamp'| == 14
    requires counter < 0x1_0000_0000_0000_0000 && counter' < 0x1_0000_0000_0000_0000
    ensures GenerateId(stamp, counter) == GenerateId(stamp', counter') <==>
            stamp == stamp' && counter % 10 == counter' % 10
  {
    var id, id' := GenerateId(stamp, counter), GenerateId(stamp', counter');
    assert id[..14] == stamp && id'[..14] == stamp';
    assert id[15] == Digit(counter % 10) && id'[15] == Digit(counter' % 10);
  }

  // ----- the methods, each as it runs under its lock -----

  class Subscriber {
    const id: string
    const topics: set<string>
    var pending: seq<Event>
    var open: bool
    var cancelled: bool

    constructor (id: string, topics: set<string>)
      ensures this.id == id && this.topics == topics && pending == [] && open && !cancelled
    {
      this.id, this.topics, pending, open, cancelled := id, topics, [], true, false;
    }
  }

  class EventBroker {
    var subscribers: map<string, Subscriber>
    var closed: bool

    ghost predicate Valid()
      reads this, subscribers.Values
    {
      forall id :: id in subscribers ==> subscribers[id].id == id && subscribers[id].open
    }

    constructor ()
      ensures Valid() && subscribers == map[] && !closed
    {
      subscribers, closed := map[], false;
    }

    method Subscribe(id: string, topics: seq<string>) returns (sub: Subscriber)
      requires Valid()
      modifies this
      ensures Valid() && fresh(sub)
      ensures sub.id == id && sub.topics == (set t | t in topics) && sub.pending == [] && !sub.cancelled
      ensures subscribers == old(subscribers)[id := sub] && closed == old(closed)
    {
      var topicSet := {};
      for i := 0 to |topics|
        invariant topicSet == set t | t in topics[..i]
      {
        topicSet := topicSet + {topics[i]};
      }
      assert topics[..|topics|] == topics;
      sub := new Subscriber(id, topicSet);
      subscribers := subscribers[id := sub];
    }

    method Publish(topic: string, event: Event)
      requires Valid()
      modifies subscribers.Values
      ensures Valid()
      ensures forall id :: id in subscribers ==>
                var sub := subscribers[id];
                && sub.cancelled == old(sub.cancelled)
                && sub.pending == if !closed && (topic in sub.topics || "*" in sub.topics) && |old(sub.pending)| < 128
                                  then old(sub.pending) + [Event(event.kind, topic, event.data)]
                                  else old(sub.pending)
    {
      if closed {
        return;
      }
      var stamped := event.(topic := topic);
      var rest := subscribers.Keys;
      while rest != {}
        invariant rest <= subscribers.Keys && Valid()
        invariant forall id :: id in subscribers ==>
                    var sub := subscribers[id];
                    && sub.cancelled == old(sub.cancelled)
                    && sub.pending == if id !in rest && Matches(sub.topics, topic)
                                      then Offer(old(sub.pending), event.(topic := topic))
                                      else old(sub.pending)
        decreases rest
      {
        var id :| id in rest;
        rest := rest - {id};
        var sub := subscribers[id];
        if topic !in sub.topics {
          if "*" !in sub.topics {
            continue;
          }
        }
        if |sub.pending| < CAPACITY {
          sub.pending := sub.pending + [stamped];
        }
      }
    }

    method Close()
      requires Valid()
      modifies this`closed, subscribers.Values
      ensures Valid() && closed && subscribers == old(subscribers)
      ensures forall id :: id in subscribers ==>
                var sub := subscribers[id];
                && sub.cancelled
                && sub.pending == if |old(sub.pending)| < 128 then old(sub.pending) + [Event(Shutdown, "", 0)]
                                  else old(sub.pending)
    {
      closed := true;
      var rest := subscribers.Keys;
      while rest != {}
        invariant rest <= subscribers.Keys && Valid() && closed
        invariant forall id :: id in subscribers ==>
                    var sub := subscribers[id];
                    if id in rest then sub.pending == old(sub.pending)
                    else sub.cancelled && sub.pending == Offer(old(sub.pending), SHUTDOWN)
        decreases rest
      {
        var id :| id in rest;
        rest := rest - {id};
        var sub := subscribers[id];
        if |sub.pending| < CAPACITY {
          sub.pending := sub.pending + [SHUTDOWN];
        }
        sub.cancelled := true;
      }
    }

    /** The clean-up goroutine, once its context is done. */
    method CleanUp(sub: Subscriber)
      requires Valid() && sub.cancelled && sub.open
      modifies this`subscribers, sub`open
      ensures Valid() && subscribers == old(subscribers) - {sub.id} && !sub.open
    {
      subscribers := subscribers - {sub.id};
      sub.open := false;
    }
  }
}
