/** The client that sends events to Riemann and queues them while there is no connection. */
module EventQueue {

  const MAX_QUEUE_SIZE := 100
  const MAX_SEND_RETRIES := 2

  datatype Status = Initializing | Connected | Disconnected

  /** Events are numbered as they are submitted. */
  datatype Request = Request(event: nat, attempt: nat)

  /** What happened to events: a call of the connection and whether it succeeded, the loss of the oldest one of
      a queue, or the end of its attempts. */
  datatype Entry = Handed(event: nat, ok: bool) | DroppedOldest(event: nat, queueThen: seq<Request>) | GivenUp(event: nat)

  datatype State = State(status: Status, queue: seq<Request>, submitted: nat, trace: seq<Entry>, tick: nat)

  /** Whether the next send, or the next attempt to set up a connection, throws; `tick` counts them. */
  type Faults = nat -> bool

  // ---- What the client does ----

  function Initialized(f: Faults, s: State): State {
    s.(status := if f(s.tick) then Disconnected else Initializing, tick := s.tick + 1)
  }

  /** A request is appended; a full queue loses its oldest one. */
  function Enqueued(s: State, r: Request): State {
    var room := if |s.queue| >= MAX_QUEUE_SIZE
                then s.(queue := s.queue[1..], trace := s.trace + [DroppedOldest(s.queue[0].event, s.queue)]) else s;
    room.(queue := room.queue + [r])
  }

  function HandedOver(s: State, event: nat, ok: bool): State {
    s.(trace := s.trace + [Handed(event, ok)], tick := s.tick + 1)
  }

  datatype Sending = Sending(state: State, goOn: bool)

  function Send(f: Faults, s: State, r: Request): Sending {
    if r.attempt > MAX_SEND_RETRIES then Sending(s.(trace := s.trace + [GivenUp(r.event)]), true)
    else if s.status == Disconnected then Sending(Initialized(f, Enqueued(s, r)), false)
    else if s.status == Initializing then Sending(Enqueued(s, r), false)
    else if !f(s.tick) then Sending(HandedOver(s, r.event, true), true)
    else
      var lost := HandedOver(s, r.event, false).(status := Disconnected);
      Sending(Initialized(f, Enqueued(lost, Request(r.event, r.attempt + 1))), false)
  }

  function Submit(f: Faults, s: State): State {
    Send(f, s.(submitted := s.submitted + 1), Request(s.submitted, 1)).state
  }

  /** The queue is worked off until it is empty or a send fails. */
  function Drain(f: Faults, s: State): State
    decreases |s.queue|
  {
    if s.queue == [] then s
    else
      var sending := Send(f, s.(queue := s.queue[1..]), s.queue[0]);
      if sending.goOn then Drain(f, sending.state) else sending.state
  }

  datatype Call = Submission | Connection | Loss

  function Step(f: Faults, s: State, call: Call): State {
    match call
    case Submission => Submit(f, s)
    case Connection => Drain(f, s.(status := Connected))
    case Loss => s.(status := Disconnected)
  }

  function Run(f: Faults, calls: seq<Call>): State {
    if calls == [] then Initialized(f, State(Disconnected, [], 0, [], 0))
    else Step(f, Run(f, calls[..|calls| - 1]), calls[|calls| - 1])
  }

  // ---- Where an event is ----

  function Sends(trace: seq<Entry>, event: nat): nat {
    if trace == [] then 0
    else
      var n := |trace| - 1;
      Sends(trace[..n], event) + One(trace[n].Handed? && trace[n].event == event)
  }

  function Successes(trace: seq<Entry>, event: nat): nat {
    if trace == [] then 0
    else
      var n := |trace| - 1;
      Successes(trace[..n], event) + One(trace[n] == Handed(event, true))
  }

  ghost predicate WasSent(s: State, e: nat) { Handed(e, true) in s.trace }

  ghost predicate WasDropped(s: State, e: nat) { exists q :: DroppedOldest(e, q) in s.trace }

  ghost predicate WasGivenUp(s: State, e: nat) { GivenUp(e) in s.trace }

  ghost function Events(queue: seq<Request>): set<nat> {
    set r | r in queue :: r.event
  }

  ghost predicate IsQueued(s: State, e: nat) { e in Events(s.queue) }

  ghost predicate Distinct(queue: seq<Request>) {
    forall i, j | 0 <= i < j < |queue| :: queue[i].event != queue[j].event
  }

  function One(b: bool): nat { if b then 1 else 0 }

  /** The event is in exactly one place: in hand, waiting, sent, dropped or given up. */
  ghost predicate InOnePlace(s: State, hand: set<nat>, e: nat) {
    One(e in hand) + One(IsQueued(s, e)) + One(WasSent(s, e)) + One(WasDropped(s, e)) + One(WasGivenUp(s, e)) == 1
  }

  ghost predicate EventOk(s: State, hand: set<nat>, e: nat) {
    && InOnePlace(s, hand, e)
    && Sends(s.trace, e) <= MAX_SEND_RETRIES
    && Successes(s.trace, e) == One(WasSent(s, e))
    && (WasGivenUp(s, e) ==> Sends(s.trace, e) == MAX_SEND_RETRIES)
  }

  ghost predicate RequestOk(s: State, r: Request) {
    r.event < s.submitted && r.attempt == Sends(s.trace, r.event) + 1
  }

  /** Only submitted events are traced, and only the oldest one of a full queue is dropped. */
  ghost predicate EntryOk(s: State, x: Entry) {
    && x.event < s.submitted
    && (x.DroppedOldest? ==> |x.queueThen| == MAX_QUEUE_SIZE && x.queueThen[0].event == x.event)
  }

  ghost predicate Inv(s: State, hand: set<nat>) {
    && |s.queue| <= MAX_QUEUE_SIZE && Distinct(s.queue)
    && (forall r | r in s.queue :: RequestOk(s, r))
    && (forall x | x in s.trace :: EntryOk(s, x))
    && (forall e: nat | e in hand :: e < s.submitted)
    && (forall e: nat | e < s.submitted :: EventOk(s, hand, e))
  }

  lemma TraceMore(s: State, x: Entry, e: nat)
    ensures var s' := s.(trace := s.trace + [x]);
      && Sends(s'.trace, e) == Sends(s.trace, e) + One(x.Handed? && x.event == e)
      && Successes(s'.trace, e) == Successes(s.trace, e) + One(x == Handed(e, true))
      && (WasSent(s', e) <==> WasSent(s, e) || x == Handed(e, true))
      && (WasDropped(s', e) <==> WasDropped(s, e) || (x.DroppedOldest? && x.event == e))
      && (WasGivenUp(s', e) <==> WasGivenUp(s, e) || x == GivenUp(e))
  {
    var more := s.trace + [x];
    assert more[..|more| - 1] == s.trace;
    assert forall y :: y in more <==> y in s.trace || y == x;
    if x.DroppedOldest? && x.event == e {
      assert DroppedOldest(e, x.queueThen) in more;
    }
  }

  // ---- What every step keeps ----

  /** The tail of the queue lacks its first event and no other. */
  lemma TailEvents(queue: seq<Request>)
    requires queue != [] && Distinct(queue)
    ensures Distinct(queue[1..]) && Events(queue[1..]) == Events(queue) - {queue[0].event}
  {
    var rest := queue[1..];
    assert queue == [queue[0]] + rest;
    forall r | r in rest ensures r.event != queue[0].event {
      var i :| 0 <= i < |rest| && rest[i] == r;
      assert queue[i + 1] == r;
    }
  }

  lemma TakenKeeps(s: State)
    requires Inv(s, {}) && s.queue != []
    ensures RequestOk(s, s.queue[0])
    ensures Inv(s.(queue := s.queue[1..]), {s.queue[0].event})
  {
    TailEvents(s.queue);
    assert s.queue[0] in s.queue;
    var s', hand := s.(queue := s.queue[1..]), {s.queue[0].event};
    forall e: nat | e < s.submitted ensures EventOk(s', hand, e) { assert EventOk(s, {}, e); }
    forall r | r in s'.queue ensures RequestOk(s', r) { assert RequestOk(s, r); }
    forall x | x in s'.trace ensures EntryOk(s', x) { assert EntryOk(s, x); }
  }

  /** An entry about one event leaves all others where they are. */
  lemma TracedKeeps(s: State, queue: seq<Request>, x: Entry, hand: set<nat>, hand': set<nat>)
    requires Inv(s, hand) && EntryOk(s, x)
    requires |queue| <= MAX_QUEUE_SIZE && Distinct(queue)
    requires forall r | r in queue :: r in s.queue && r.event != x.event
    requires Events(queue) == Events(s.queue) - {x.event}
    requires hand' <= hand + {x.event} && hand - {x.event} <= hand'
    requires var s' := s.(queue := queue, trace := s.trace + [x]);
      EventOk(s', hand', x.event)
    ensures Inv(s.(queue := queue, trace := s.trace + [x]), hand')
  {
    var s' := s.(queue := queue, trace := s.trace + [x]);
    forall e: nat | e < s.submitted ensures EventOk(s', hand', e) {
      TraceMore(s, x, e);
      assert EventOk(s, hand, e);
    }
    forall r | r in queue ensures RequestOk(s', r) {
      TraceMore(s, x, r.event);
      assert RequestOk(s, r);
    }
    forall y | y in s'.trace ensures EntryOk(s', y) {
      if y != x { assert y in s.trace && EntryOk(s, y); }
    }
  }

  lemma DropKeeps(s: State, hand: set<nat>)
    requires Inv(s, hand) && |s.queue| == MAX_QUEUE_SIZE
    ensures Inv(s.(queue := s.queue[1..], trace := s.trace + [DroppedOldest(s.queue[0].event, s.queue)]), hand)
  {
    var e := s.queue[0].event;
    var x := DroppedOldest(e, s.queue);
    assert s.queue[0] in s.queue && RequestOk(s, s.queue[0]);
    TailEvents(s.queue);
    TraceMore(s, x, e);
    assert EventOk(s, hand, e);
    assert forall r | r in s.queue[1..] :: r.event in Events(s.queue[1..]);
    TracedKeeps(s, s.queue[1..], x, hand, hand);
  }

  lemma AppendKeeps(s: State, r: Request)
    requires Inv(s, {r.event}) && RequestOk(s, r) && |s.queue| < MAX_QUEUE_SIZE
    ensures Inv(s.(queue := s.queue + [r]), {})
  {
    var s' := s.(queue := s.queue + [r]);
    assert EventOk(s, {r.event}, r.event);
    assert forall q | q in s.queue :: q.event in Events(s.queue);
    assert Events(s'.queue) == Events(s.queue) + {r.event};
    forall e: nat | e < s.submitted ensures EventOk(s', {}, e) { assert EventOk(s, {r.event}, e); }
    forall q | q in s'.queue ensures RequestOk(s', q) {
      if q != r { assert q in s.queue && RequestOk(s, q); }
    }
    forall x | x in s'.trace ensures EntryOk(s', x) { assert EntryOk(s, x); }
  }

  lemma EnqueuedKeeps(s: State, r: Request)
    requires Inv(s, {r.event}) && RequestOk(s, r)
    ensures Inv(Enqueued(s, r), {})
  {
    if |s.queue| >= MAX_QUEUE_SIZE {
      var x := DroppedOldest(s.queue[0].event, s.queue);
      DropKeeps(s, {r.event});
      TraceMore(s, x, r.event);
      AppendKeeps(s.(queue := s.queue[1..], trace := s.trace + [x]), r);
    } else {
      AppendKeeps(s, r);
    }
  }

  /** The event in hand is handed over, or given up. */
  lemma SettledKeeps(s: State, x: Entry)
    requires Inv(s, {x.event}) && !x.DroppedOldest?
    requires if x.Handed? then Sends(s.trace, x.event) < MAX_SEND_RETRIES else Sends(s.trace, x.event) == MAX_SEND_RETRIES
    ensures Inv(s.(trace := s.trace + [x]), StillInHand(x))
  {
    assert EventOk(s, {x.event}, x.event);
    SettledEvent(s, x);
    assert forall q | q in s.queue :: q.event in Events(s.queue);
    assert Events(s.queue) == Events(s.queue) - {x.event};
    TracedKeeps(s, s.queue, x, {x.event}, StillInHand(x));
  }

  function StillInHand(x: Entry): set<nat> {
    if x == Handed(x.event, false) then {x.event} else {}
  }

  lemma SettledEvent(s: State, x: Entry)
    requires EventOk(s, {x.event}, x.event) && !x.DroppedOldest?
    requires if x.Handed? then Sends(s.trace, x.event) < MAX_SEND_RETRIES else Sends(s.trace, x.event) == MAX_SEND_RETRIES
    ensures !IsQueued(s, x.event)
    ensures EventOk(s.(trace := s.trace + [x]), StillInHand(x), x.event)
  {
    TraceMore(s, x, x.event);
  }

  /** Status and tick do not matter to the invariant. */
  lemma SameElsewhere(s: State, s': State, hand: set<nat>)
    requires Inv(s, hand) && s'.queue == s.queue && s'.trace == s.trace && s'.submitted == s.submitted
    ensures Inv(s', hand)
  {
    forall e: nat | e < s.submitted ensures EventOk(s', hand, e) { assert EventOk(s, hand, e); }
    forall r | r in s.queue ensures RequestOk(s', r) { assert RequestOk(s, r); }
    forall x | x in s.trace ensures EntryOk(s', x) { assert EntryOk(s, x); }
  }

  lemma SentKeeps(s: State, e: nat)
    requires Inv(s, {e}) && Sends(s.trace, e) < MAX_SEND_RETRIES
    ensures Inv(HandedOver(s, e, true), {})
  {
    SettledKeeps(s, Handed(e, true));
    SameElsewhere(s.(trace := s.trace + [Handed(e, true)]), HandedOver(s, e, true), {});
  }

  lemma {:induction false} FailedSendKeeps(f: Faults, s: State, r: Request)
    requires Inv(s, {r.event}) && RequestOk(s, r) && r.attempt <= MAX_SEND_RETRIES
    ensures var lost := HandedOver(s, r.event, false).(status := Disconnected);
      Inv(Initialized(f, Enqueued(lost, Request(r.event, r.attempt + 1))), {})
  {
    var e := r.event;
    var x, again := Handed(e, false), Request(e, r.attempt + 1);
    var lost := HandedOver(s, e, false).(status := Disconnected);
    SettledKeeps(s, x);
    SameElsewhere(s.(trace := s.trace + [x]), lost, {e});
    TraceMore(s, x, e);
    EnqueuedKeeps(lost, again);
    SameElsewhere(Enqueued(lost, again), Initialized(f, Enqueued(lost, again)), {});
  }

  lemma {:induction false} QueuedKeeps(f: Faults, s: State, r: Request)
    requires Inv(s, {r.event}) && RequestOk(s, r)
    ensures Inv(Enqueued(s, r), {}) && Inv(Initialized(f, Enqueued(s, r)), {})
  {
    EnqueuedKeeps(s, r);
    SameElsewhere(Enqueued(s, r), Initialized(f, Enqueued(s, r)), {});
  }

  lemma GivenUpKeeps(s: State, r: Request)
    requires Inv(s, {r.event}) && RequestOk(s, r) && r.attempt > MAX_SEND_RETRIES
    ensures Inv(s.(trace := s.trace + [GivenUp(r.event)]), {})
  {
    assert EventOk(s, {r.event}, r.event);
    SettledKeeps(s, GivenUp(r.event));
  }

  lemma {:induction false} SendKeeps(f: Faults, s: State, r: Request)
    requires Inv(s, {r.event}) && RequestOk(s, r)
    ensures Inv(Send(f, s, r).state, {})
  {
    if r.attempt > MAX_SEND_RETRIES {
      GivenUpKeeps(s, r);
    } else if s.status != Connected {
      QueuedKeeps(f, s, r);
    } else if f(s.tick) {
      FailedSendKeeps(f, s, r);
    } else {
      SentKeeps(s, r.event);
    }
  }

  lemma {:induction false} NeverTraced(s: State, e: nat)
    requires forall x | x in s.trace :: x.event != e
    ensures Sends(s.trace, e) == 0 && Successes(s.trace, e) == 0 && !WasSent(s, e) && !WasDropped(s, e) && !WasGivenUp(s, e)
    decreases |s.trace|
  {
    if s.trace != [] {
      NeverTraced(s.(trace := s.trace[..|s.trace| - 1]), e);
    }
  }

  /** A new event is in hand. */
  lemma NewEventKeeps(s: State)
    requires Inv(s, {})
    ensures Inv(s.(submitted := s.submitted + 1), {s.submitted}) && Sends(s.trace, s.submitted) == 0
  {
    var e := s.submitted;
    var s' := s.(submitted := e + 1);
    forall x | x in s.trace ensures EntryOk(s', x) && x.event != e { assert EntryOk(s, x); }
    NeverTraced(s', e);
    forall r | r in s.queue ensures RequestOk(s', r) && r.event != e { assert RequestOk(s, r); }
    forall d: nat | d < s'.submitted ensures EventOk(s', {e}, d) {
      if d < e { assert EventOk(s, {}, d); }
    }
  }

  lemma {:induction false} SubmitKeeps(f: Faults, s: State)
    requires Inv(s, {})
    ensures Inv(Submit(f, s), {})
  {
    NewEventKeeps(s);
    SendKeeps(f, s.(submitted := s.submitted + 1), Request(s.submitted, 1));
  }

  lemma {:induction false} DrainKeeps(f: Faults, s: State)
    requires Inv(s, {})
    ensures Inv(Drain(f, s), {})
    decreases |s.queue|
  {
    if s.queue != [] {
      TakenKeeps(s);
      var taken := s.(queue := s.queue[1..]);
      SendKeeps(f, taken, s.queue[0]);
      var sending := Send(f, taken, s.queue[0]);
      if sending.goOn {
        DrainKeeps(f, sending.state);
      }
    }
  }

  lemma {:induction false} RunKeeps(f: Faults, calls: seq<Call>)
    ensures Inv(Run(f, calls), {})
  {
    if calls != [] {
      var before, last := Run(f, calls[..|calls| - 1]), calls[|calls| - 1];
      RunKeeps(f, calls[..|calls| - 1]);
      match last
      case Submission => SubmitKeeps(f, before);
      case Connection =>
        SameElsewhere(before, before.(status := Connected), {});
        DrainKeeps(f, before.(status := Connected));
      case Loss => SameElsewhere(before, before.(status := Disconnected), {});
    }
  }

  // ---- Conservation ----

  /** In every run, each submitted event is exactly one of sent on the connection, waiting, dropped as the oldest
      one of a full queue, and given up, which means that two sends of it failed and it is none of the others.
      None is handed over more than twice, nor again after a success. */
  lemma {:induction false} Conservation(f: Faults, calls: seq<Call>, e: nat)
    requires e < Run(f, calls).submitted
    ensures var s := Run(f, calls);
      && One(IsQueued(s, e)) + One(WasSent(s, e)) + One(WasDropped(s, e)) + One(WasGivenUp(s, e)) == 1
      && Sends(s.trace, e) <= 2 && Successes(s.trace, e) <= 1
      && (WasGivenUp(s, e) <==>
            Sends(s.trace, e) == 2 && !WasSent(s, e) && !IsQueued(s, e) && !WasDropped(s, e))
  {
    RunKeeps(f, calls);
    assert EventOk(Run(f, calls), {}, e);
  }

  /** The queue is never overfull and holds no event twice, and what was dropped was the oldest of a full one. */
  lemma {:induction false} QueueIsBounded(f: Faults, calls: seq<Call>)
    ensures var s := Run(f, calls);
      && |s.queue| <= 100 && Distinct(s.queue)
      && forall e: nat, q: seq<Request> | DroppedOldest(e, q) in s.trace :: |q| == 100 && q[0].event == e
  {
    RunKeeps(f, calls);
    var s := Run(f, calls);
    forall e: nat, q: seq<Request> | DroppedOldest(e, q) in s.trace ensures |q| == MAX_QUEUE_SIZE && q[0].event == e {
      assert EntryOk(s, DroppedOldest(e, q));
    }
  }

  lemma {:induction false} DrainSubmits(f: Faults, s: State)
    ensures Drain(f, s).submitted == s.submitted
    decreases |s.queue|
  {
    if s.queue != [] {
      var sending := Send(f, s.(queue := s.queue[1..]), s.queue[0]);
      if sending.goOn { DrainSubmits(f, sending.state); }
    }
  }

  function Submissions(calls: seq<Call>): nat {
    if calls == [] then 0 else Submissions(calls[..|calls| - 1]) + One(calls[|calls| - 1].Submission?)
  }

  lemma {:induction false} SubmittedAreCounted(f: Faults, calls: seq<Call>)
    ensures Run(f, calls).submitted == Submissions(calls)
  {
    if calls != [] {
      SubmittedAreCounted(f, calls[..|calls| - 1]);
      DrainSubmits(f, Run(f, calls[..|calls| - 1]).(status := Connected));
    }
  }

  ghost function Below(n: nat): (below: set<nat>)
    ensures |below| == n && forall e: nat :: e in below <==> e < n
  {
    if n == 0 then {} else Below(n - 1) + {n - 1}
  }

  lemma {:induction false} DistinctCount(queue: seq<Request>)
    requires Distinct(queue)
    ensures |Events(queue)| == |queue|
  {
    if queue != [] {
      DistinctCount(queue[1..]);
      TailEvents(queue);
      assert queue[0] in queue && queue[0].event in Events(queue);
    }
  }

  ghost function SentEvents(s: State): set<nat> { set e | e in Below(s.submitted) && WasSent(s, e) }

  ghost function DroppedEvents(s: State): set<nat> { set e | e in Below(s.submitted) && WasDropped(s, e) }

  ghost function GivenUpEvents(s: State): set<nat> { set e | e in Below(s.submitted) && WasGivenUp(s, e) }

  lemma SumOfParts(a: set<nat>, b: set<nat>, c: set<nat>, d: set<nat>)
    requires a !! b && a !! c && a !! d && b !! c && b !! d && c !! d
    ensures |a + b + c + d| == |a| + |b| + |c| + |d|
  {
    assert |a + b| == |a| + |b| && |a + b + c| == |a + b| + |c|;
  }

  /** A submitted event is in exactly one of the four sets. */
  lemma InOneSet(s: State, e: nat)
    requires Inv(s, {}) && e < s.submitted
    ensures One(e in SentEvents(s)) + One(e in DroppedEvents(s)) + One(e in GivenUpEvents(s)) + One(e in Events(s.queue)) == 1
  {
    assert EventOk(s, {}, e);
  }

  lemma WaitingAreSubmitted(s: State, e: nat)
    requires Inv(s, {}) && e in Events(s.queue)
    ensures e < s.submitted
  {
    var r :| r in s.queue && r.event == e;
    assert RequestOk(s, r);
  }

  lemma CountParts(n: nat, a: set<nat>, b: set<nat>, c: set<nat>, d: set<nat>)
    requires forall e: nat :: e in a || e in b || e in c || e in d ==> e < n
    requires forall e: nat | e < n :: One(e in a) + One(e in b) + One(e in c) + One(e in d) == 1
    ensures n == |a| + |b| + |c| + |d|
  {
    SumOfParts(a, b, c, d);
    assert Below(n) == a + b + c + d;
  }

  lemma PartsOfSubmitted(s: State)
    requires Inv(s, {})
    ensures s.submitted == |SentEvents(s)| + |DroppedEvents(s)| + |GivenUpEvents(s)| + |Events(s.queue)|
  {
    var sent, dropped, givenUp, waiting := SentEvents(s), DroppedEvents(s), GivenUpEvents(s), Events(s.queue);
    forall e: nat | e < s.submitted
      ensures One(e in sent) + One(e in dropped) + One(e in givenUp) + One(e in waiting) == 1
    {
      InOneSet(s, e);
    }
    forall e | e in waiting ensures e < s.submitted { WaitingAreSubmitted(s, e); }
    CountParts(s.submitted, sent, dropped, givenUp, waiting);
  }

  /** The books balance: what was submitted was sent, dropped or given up, or fills the queue. */
  lemma {:induction false} BooksBalance(f: Faults, calls: seq<Call>)
    ensures var s := Run(f, calls);
      Submissions(calls) == |SentEvents(s)| + |DroppedEvents(s)| + |GivenUpEvents(s)| + |s.queue|
  {
    var s := Run(f, calls);
    RunKeeps(f, calls);
    SubmittedAreCounted(f, calls);
    PartsOfSubmitted(s);
    DistinctCount(s.queue);
  }

  /** `k` events were taken off the queue in order, each with one entry in the trace, until the queue was empty,
      or until a send failed, which ended the connection and put its event at the end of the queue. */
  ghost predicate TakenInOrder(s: State, s': State, k: nat) {
    && k <= |s.queue| && |s'.trace| == |s.trace| + k && s.trace <= s'.trace
    && (forall i | 0 <= i < k :: s'.trace[|s.trace| + i].event == s.queue[i].event)
    && if s'.status == Connected then k == |s.queue| && s'.queue == []
       else
         && 0 < k && s'.trace[|s'.trace| - 1] == Handed(s.queue[k - 1].event, false)
         && s'.queue == s.queue[k..] + [Request(s.queue[k - 1].event, s.queue[k - 1].attempt + 1)]
  }

  lemma TakenAfterOne(s: State, mid: State, s': State, k: nat)
    requires s.queue != [] && mid.queue == s.queue[1..]
    requires |mid.trace| == |s.trace| + 1 && s.trace <= mid.trace && mid.trace[|s.trace|].event == s.queue[0].event
    requires TakenInOrder(mid, s', k)
    ensures TakenInOrder(s, s', k + 1)
  {
    forall i | 0 <= i < k + 1 ensures s'.trace[|s.trace| + i].event == s.queue[i].event {
      if i > 0 {
        assert s'.trace[|mid.trace| + (i - 1)].event == mid.queue[i - 1].event;
      }
    }
  }

  lemma {:induction false} DrainInOrder(f: Faults, s: State) returns (k: nat)
    requires s.status == Connected && |s.queue| <= MAX_QUEUE_SIZE
    ensures TakenInOrder(s, Drain(f, s), k)
    decreases |s.queue|
  {
    if s.queue == [] {
      return 0;
    }
    var sending := Send(f, s.(queue := s.queue[1..]), s.queue[0]);
    if sending.goOn {
      var rest := DrainInOrder(f, sending.state);
      TakenAfterOne(s, sending.state, Drain(f, s), rest);
      k := rest + 1;
    } else {
      k := 1;
    }
  }

  // ---- What a submission comes to ----

  /** The queue and the trace after a request was put last; only a queue of a hundred loses one, its first. */
  ghost predicate PutLast(s: State, trace: seq<Entry>, s': State, r: Request) {
    if |s.queue| >= 100
    then s'.queue == s.queue[1..] + [r] && s'.trace == trace + [DroppedOldest(s.queue[0].event, s.queue)]
    else s'.queue == s.queue + [r] && s'.trace == trace
  }

  /** On a connection a new event is sent; if that fails, or without a connection, it waits at the end of the queue,
      and a connection is set up unless that is already under way. */
  lemma {:induction false} SubmissionAnswers(f: Faults, s: State)
    ensures var s', e := Submit(f, s), s.submitted;
      && s'.submitted == e + 1
      && match s.status
         case Connected =>
           if !f(s.tick)
           then s'.status == Connected && s'.queue == s.queue && s'.trace == s.trace + [Handed(e, true)]
           else
             && s'.status == (if f(s.tick + 1) then Disconnected else Initializing)
             && PutLast(s, s.trace + [Handed(e, false)], s', Request(e, 2))
         case Initializing => s'.status == Initializing && PutLast(s, s.trace, s', Request(e, 1))
         case Disconnected =>
           s'.status == (if f(s.tick) then Disconnected else Initializing) && PutLast(s, s.trace, s', Request(e, 1))
  {
  }

  /** After an error of the connection nothing is sent until there is a connection again. */
  lemma {:induction false} LossStopsSending(f: Faults, before: seq<Call>, after: seq<Call>)
    requires Connection !in after
    ensures var s, s' := Run(f, before), Run(f, before + [Loss] + after);
      s'.status != Connected && forall e :: Sends(s'.trace, e) == Sends(s.trace, e)
    decreases |after|
  {
    var calls, n := before + [Loss] + after, |after| - 1;
    if after == [] {
      assert calls[..|calls| - 1] == before;
    } else {
      assert calls[..|calls| - 1] == before + [Loss] + after[..n] && after[n] in after;
      LossStopsSending(f, before, after[..n]);
      var s := Run(f, before + [Loss] + after[..n]);
      if after[n] == Submission {
        SubmissionAnswers(f, s);
        if |s.queue| >= 100 {
          forall e ensures Sends(Run(f, calls).trace, e) == Sends(s.trace, e) {
            TraceMore(s, DroppedOldest(s.queue[0].event, s.queue), e);
          }
        }
      }
    }
  }

  /** Nothing went wrong so far. */
  ghost predicate Unharmed(s: State) {
    && (forall r | r in s.queue :: r.attempt == 1)
    && (forall x | x in s.trace :: !x.GivenUp? && (x.Handed? ==> x.ok))
  }

  lemma {:induction false} SendUnharmed(f: Faults, s: State, r: Request)
    requires (forall t :: !f(t)) && Unharmed(s) && r.attempt == 1
    ensures var sending := Send(f, s, r);
      Unharmed(sending.state) && (s.status == Connected ==> sending.goOn && sending.state.status == Connected)
  {
  }

  lemma {:induction false} DrainUnharmed(f: Faults, s: State)
    requires (forall t :: !f(t)) && Unharmed(s)
    ensures Unharmed(Drain(f, s))
    ensures s.status == Connected ==> Drain(f, s).status == Connected && Drain(f, s).queue == []
    decreases |s.queue|
  {
    if s.queue != [] {
      var taken := s.(queue := s.queue[1..]);
      assert s.queue[0] in s.queue;
      SendUnharmed(f, taken, s.queue[0]);
      var sending := Send(f, taken, s.queue[0]);
      if sending.goOn { DrainUnharmed(f, sending.state); }
    }
  }

  lemma {:induction false} RunUnharmed(f: Faults, calls: seq<Call>)
    requires forall t :: !f(t)
    ensures Unharmed(Run(f, calls))
  {
    if calls != [] {
      var before := Run(f, calls[..|calls| - 1]);
      RunUnharmed(f, calls[..|calls| - 1]);
      match calls[|calls| - 1]
      case Submission => SendUnharmed(f, before.(submitted := before.submitted + 1), Request(before.submitted, 1));
      case Connection => DrainUnharmed(f, before.(status := Connected));
      case Loss =>
    }
  }

  /** Where nothing throws, every event is sent once a connection is there, but for those that an overfull queue
      dropped before. */
  lemma {:induction false} EventsAreSent(f: Faults, calls: seq<Call>, e: nat)
    requires (forall t :: !f(t)) && calls != [] && calls[|calls| - 1] == Connection
    requires e < Run(f, calls).submitted
    ensures Run(f, calls).queue == [] && (WasSent(Run(f, calls), e) || WasDropped(Run(f, calls), e))
  {
    var before := Run(f, calls[..|calls| - 1]);
    RunUnharmed(f, calls[..|calls| - 1]);
    DrainUnharmed(f, before.(status := Connected));
    Conservation(f, calls, e);
  }

  // ---- The code ----

  class RiemannClient {
    const faults: Faults
    var status: Status
    var queue: seq<Request>
    var submitted: nat
    var tick: nat
    ghost var trace: seq<Entry>

    ghost function Now(): State
      reads this
    {
      State(status, queue, submitted, trace, tick)
    }

    constructor (faults: Faults)
      ensures this.faults == faults && Now() == Run(faults, [])
    {
      this.faults := faults;
      status, queue, submitted, tick, trace := Disconnected, [], 0, 0, [];
      new;
      Initialize();
    }

    method Initialize()
      modifies this
      ensures Now() == Initialized(faults, old(Now()))
    {
      var failed := faults(tick);
      tick := tick + 1;
      status := Initializing;
      if failed {
        Disconnect();
      }
    }

    method Disconnect()
      modifies this`status
      ensures status == Disconnected
    {
      status := Disconnected;
    }

    method EnqueueRequest(event: nat, attempt: nat)
      modifies this
      ensures Now() == Enqueued(old(Now()), Request(event, attempt))
    {
      if |queue| >= MAX_QUEUE_SIZE {
        trace := trace + [DroppedOldest(queue[0].event, queue)];
        var _ := DequeueRequest();
      }
      queue := queue + [Request(event, attempt)];
    }

    method DequeueRequest() returns (request: Request)
      requires queue != []
      modifies this`queue
      ensures request == old(queue)[0] && queue == old(queue)[1..]
    {
      request := queue[0];
      queue := queue[1..];
    }

    /** A call of the connection. */
    method Hand(event: nat) returns (ok: bool)
      modifies this`tick, this`trace
      ensures ok == !faults(old(tick)) && Now() == HandedOver(old(Now()), event, ok)
    {
      ok := !faults(tick);
      tick := tick + 1;
      trace := trace + [Handed(event, ok)];
    }

    /** Sends an event, queues it, or gives it up; true if the queue can go on being drained. */
    method SendEvent(event: nat, attempt: nat) returns (goOn: bool)
      modifies this
      ensures Sending(Now(), goOn) == Send(faults, old(Now()), Request(event, attempt))
    {
      if attempt <= MAX_SEND_RETRIES {
        if status == Disconnected {
          EnqueueRequest(event, attempt);
          Initialize();
          return false;
        } else if status == Initializing {
          EnqueueRequest(event, attempt);
          return false;
        } else {
          var ok := Hand(event);
          if ok {
            return true;
          }
          Disconnect();
          EnqueueRequest(event, attempt + 1);
          Initialize();
          return false;
        }
      } else {
        trace := trace + [GivenUp(event)];
        return true;
      }
    }

    /** A new event is submitted. */
    method LogEvent()
      modifies this
      ensures Now() == Submit(faults, old(Now()))
    {
      submitted := submitted + 1;
      var _ := SendEvent(submitted - 1, 1);
    }

    method ProcessOutstandingRequest()
      modifies this
      ensures Now() == Drain(faults, old(Now()))
    {
      while |queue| > 0
        invariant Drain(faults, Now()) == Drain(faults, old(Now()))
        decreases |queue|
      {
        var request := DequeueRequest();
        var goOn := SendEvent(request.event, request.attempt);
        if !goOn {
          break;
        }
      }
    }

    method OnConnect()
      modifies this
      ensures Now() == Drain(faults, old(Now()).(status := Connected))
    {
      status := Connected;
      if |queue| > 0 {
        ProcessOutstandingRequest();
      }
    }

    method OnError()
      modifies this`status
      ensures Now() == old(Now()).(status := Disconnected)
    {
      Disconnect();
    }
  }

  /** A whole run of the client. */
  method RunClient(faults: Faults, calls: seq<Call>) returns (submitted: nat, queue: seq<Request>, ghost trace: seq<Entry>)
    ensures submitted == Run(faults, calls).submitted && queue == Run(faults, calls).queue
    ensures trace == Run(faults, calls).trace
  {
    var client := new RiemannClient(faults);
    for i := 0 to |calls|
      invariant fresh(client) && client.faults == faults && client.Now() == Run(faults, calls[..i])
    {
      assert calls[..i + 1][..i] == calls[..i];
      match calls[i]
      case Submission => client.LogEvent();
      case Connection => client.OnConnect();
      case Loss => client.OnError();
    }
    assert calls[..|calls|] == calls;
    submitted, queue, trace := client.submitted, client.queue, client.trace;
  }
}
