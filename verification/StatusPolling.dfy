/** The lock of the status pollers: an annotation with address and time that the poller of one process
    renews at every poll, so that the other processes leave the resource to it. */
module StatusPolling {
  import opened VersionedStore
  import opened Wrappers

  const POLLER_RELAXATION_TIME := 5000

  datatype Stamp = Stamp(ip: string, lockTime: int)

  /** A resource: its `lockedByTaskPoller` annotation and everything else. */
  datatype Item = Item(lockedBy: Option<Stamp>, rest: nat)

  type Items = Store<string, Item>

  // ---- One poll ----

  datatype Phase =
    | Reading
    | Read(seen: Versioned<Item>)
    | Patching(seen: Versioned<Item>, stamp: Stamp)
    | Acquired(stamp: Stamp)
    | Skipped
    | Broken

  datatype Poll = Poll(resourceId: string, ip: string, phase: Phase)

  /** Another process polls the resource and renewed its stamp not long ago. */
  predicate PolledByOther(item: Item, ip: string, now: int, pollInterval: nat) {
    && item.lockedBy.Some?
    && item.lockedBy.value.ip != ip
    && now - item.lockedBy.value.lockTime < pollInterval + POLLER_RELAXATION_TIME
  }

  function GetStep(poll: Poll, items: Items, fault: Fault): Poll {
    match Get(items, poll.resourceId, fault)
    case Ok(item) => poll.(phase := Read(item))
    case Err(_) => poll.(phase := Broken)
  }

  /** The clock is read twice: for the check, and for the stamp. */
  function CheckStep(poll: Poll, checkedAt: int, stampedAt: int, pollInterval: nat): Poll
    requires poll.phase.Read?
  {
    var seen := poll.phase.seen;
    if PolledByOther(seen.value, poll.ip, checkedAt, pollInterval) then poll.(phase := Skipped)
    else poll.(phase := Patching(seen, Stamp(poll.ip, stampedAt)))
  }

  function Locking(poll: Poll, items: Items, fault: Fault): Written<string, Item>
    requires poll.phase.Patching?
  {
    var stamp := poll.phase.stamp;
    Patch(items, poll.resourceId, Some(poll.phase.seen.version), (i: Item) => i.(lockedBy := Some(stamp)), fault)
  }

  function LockStep(poll: Poll, reply: Reply<Item>): Poll
    requires poll.phase.Patching?
  {
    match reply
    case Ok(_) => poll.(phase := Acquired(poll.phase.stamp))
    case Err(Conflict) => poll.(phase := Skipped)
    case Err(_) => poll.(phase := Broken)
  }

  // ---- The code ----

  class ApiServer {
    var items: Items

    method GetResource(resourceId: string, fault: Fault) returns (reply: Reply<Item>)
      ensures reply == Get(items, resourceId, fault)
    {
      reply := Get(items, resourceId, fault);
    }

    method UpdateAnnotation(resourceId: string, resourceVersion: nat, stamp: Stamp, fault: Fault) returns (reply: Reply<Item>)
      modifies this
      ensures Written(items, reply)
        == Patch(old(items), resourceId, Some(resourceVersion), (i: Item) => i.(lockedBy := Some(stamp)), fault)
    {
      var w := Patch(items, resourceId, Some(resourceVersion), (i: Item) => i.(lockedBy := Some(stamp)), fault);
      items, reply := w.store, w.reply;
    }
  }

  /** One poll; its methods are the continuations of its requests. */
  class PollStatus {
    const resourceId: string
    const ip: string
    const pollInterval: nat
    var phase: Phase

    constructor (resourceId: string, ip: string, pollInterval: nat)
      ensures State() == Poll(resourceId, ip, Reading) && this.pollInterval == pollInterval
    {
      this.resourceId, this.ip, this.pollInterval, phase := resourceId, ip, pollInterval, Reading;
    }

    ghost function State(): Poll
      reads this
    {
      Poll(resourceId, ip, phase)
    }

    method GetResource(api: ApiServer, fault: Fault)
      requires phase.Reading?
      modifies this
      ensures State() == GetStep(old(State()), api.items, fault)
    {
      var reply := api.GetResource(resourceId, fault);
      phase := if reply.Ok? then Read(reply.item) else Broken;
    }

    method AcquireLock(checkedAt: int, stampedAt: int)
      requires phase.Read?
      modifies this
      ensures State() == CheckStep(old(State()), checkedAt, stampedAt, pollInterval)
    {
      var annotation := phase.seen.value.lockedBy;
      if annotation.Some? {
        if annotation.value.ip != ip && checkedAt - annotation.value.lockTime < pollInterval + POLLER_RELAXATION_TIME {
          phase := Skipped;
          return;
        }
      }
      phase := Patching(phase.seen, Stamp(ip, stampedAt));
    }

    method UpdateResource(api: ApiServer, fault: Fault)
      requires phase.Patching?
      modifies this, api
      ensures api.items == Locking(old(State()), old(api.items), fault).store
      ensures State() == LockStep(old(State()), Locking(old(State()), old(api.items), fault).reply)
    {
      var reply := api.UpdateAnnotation(resourceId, phase.seen.version, phase.stamp, fault);
      phase := if reply.Ok? then Acquired(phase.stamp) else if reply.error == Conflict then Skipped else Broken;
    }
  }

  // ---- Runs ----

  /** `log` holds the accepted stamps of each resource. */
  datatype World = World(now: int, items: Items, polls: map<nat, Poll>, log: map<string, seq<Stamp>>)

  datatype Action =
    | Tick(duration: nat)
    | Submit(resourceId: string, rest: nat)
    | OtherWrite(resourceId: string, rest: nat)
    | Start(id: nat, resourceId: string, ip: string)
    | Request(id: nat, fault: Fault)
    | Check(id: nat, pause: nat)
    | RequestLock(id: nat, fault: Fault)

  const EMPTY := World(0, Store(0, map[]), map[], map[])

  function History(w: World, r: string): seq<Stamp> {
    if r in w.log then w.log[r] else []
  }

  function SetPoll(w: World, id: nat, poll: Poll): World {
    w.(polls := w.polls[id := poll])
  }

  /** Writes of anybody else change the version but keep the annotation. */
  function Step(pollInterval: nat, w: World, a: Action): World {
    match a
    case Tick(duration) => w.(now := w.now + duration)
    case Submit(r, rest) => w.(items := Create(w.items, r, Item(None, rest), NoFault).store)
    case OtherWrite(r, rest) => w.(items := Patch(w.items, r, None, (i: Item) => i.(rest := rest), NoFault).store)
    case Start(id, r, ip) => if id in w.polls then w else SetPoll(w, id, Poll(r, ip, Reading))
    case Request(id, fault) =>
      if id in w.polls && w.polls[id].phase.Reading? then SetPoll(w, id, GetStep(w.polls[id], w.items, fault)) else w
    case Check(id, pause) =>
      if id in w.polls && w.polls[id].phase.Read?
      then SetPoll(w, id, CheckStep(w.polls[id], w.now, w.now + pause, pollInterval)).(now := w.now + pause)
      else w
    case RequestLock(id, fault) =>
      if id in w.polls && w.polls[id].phase.Patching? then
        var poll := w.polls[id];
        var written := Locking(poll, w.items, fault);
        SetPoll(Stamped(w, poll, written.store), id, LockStep(poll, written.reply))
      else w
  }

  /** The world after the request for the lock; if it was accepted, the stamp is recorded. */
  function Stamped(w: World, poll: Poll, items: Items): World
    requires poll.phase.Patching?
  {
    if items.revision == w.items.revision then w
    else w.(items := items, log := w.log[poll.resourceId := History(w, poll.resourceId) + [poll.phase.stamp]])
  }

  function Run(pollInterval: nat, actions: seq<Action>): World {
    if actions == [] then EMPTY
    else Step(pollInterval, Run(pollInterval, actions[..|actions| - 1]), actions[|actions| - 1])
  }

  // ---- The invariant ----

  /** The second stamp may follow the first. */
  ghost predicate Follows(pollInterval: nat, first: Stamp, second: Stamp) {
    && first.lockTime <= second.lockTime
    && (first.ip != second.ip ==> second.lockTime - first.lockTime >= pollInterval + POLLER_RELAXATION_TIME)
  }

  ghost predicate Sound(pollInterval: nat, now: int, item: Option<Versioned<Item>>, log: seq<Stamp>) {
    && (forall i | 0 < i < |log| :: Follows(pollInterval, log[i - 1], log[i]))
    && (log != [] ==> log[|log| - 1].lockTime <= now)
    && (item.None? ==> log == [])
    && (item.Some? ==> item.value.value.lockedBy == if log == [] then None else Some(log[|log| - 1]))
  }

  ghost predicate SoundAt(pollInterval: nat, w: World, r: string) {
    Sound(pollInterval, w.now, Lookup(w.items, r), History(w, r))
  }

  /** What a poll has read is what is stored, if the version still is. */
  ghost predicate SeenOk(w: World, r: string, seen: Versioned<Item>) {
    && seen.version <= w.items.revision
    && (seen.value.lockedBy.Some? ==> seen.value.lockedBy.value.lockTime <= w.now)
    && (r in w.items.objects && w.items.objects[r].version == seen.version ==> w.items.objects[r] == seen)
  }

  ghost predicate PollOk(pollInterval: nat, w: World, poll: Poll) {
    && (poll.phase.Read? || poll.phase.Patching? ==> SeenOk(w, poll.resourceId, poll.phase.seen))
    && (poll.phase.Patching? ==>
          && poll.phase.stamp.lockTime <= w.now
          && (poll.phase.seen.value.lockedBy.Some? ==>
                Follows(pollInterval, poll.phase.seen.value.lockedBy.value, poll.phase.stamp)))
    && (poll.phase.Acquired? ==> poll.phase.stamp in History(w, poll.resourceId))
  }

  ghost predicate Inv(pollInterval: nat, w: World) {
    && WellVersioned(w.items)
    && (forall r :: SoundAt(pollInterval, w, r))
    && (forall id | id in w.polls :: PollOk(pollInterval, w, w.polls[id]))
  }

  /** Going from `w` to `w'` nothing was lost: time and revisions grow, histories are extended. */
  ghost predicate Extends(w: World, w': World) {
    && w.now <= w'.now && w.items.revision <= w'.items.revision
    && (forall r | r in w.items.objects :: r in w'.items.objects)
    && (forall r | r in w'.items.objects ::
          (r in w.items.objects && w'.items.objects[r] == w.items.objects[r]) || w'.items.objects[r].version > w.items.revision)
    && (forall r :: History(w, r) <= History(w', r))
  }

  lemma PollStaysOk(pollInterval: nat, w: World, w': World, poll: Poll)
    requires PollOk(pollInterval, w, poll) && Extends(w, w')
    ensures PollOk(pollInterval, w', poll)
  {
  }

  /** A world that extends a good one is good if its resources and its new polls are. */
  lemma ExtensionKeepsInv(pollInterval: nat, w: World, w': World)
    requires Inv(pollInterval, w) && Extends(w, w') && WellVersioned(w'.items)
    requires forall r :: SoundAt(pollInterval, w', r)
    requires forall id | id in w'.polls :: (id in w.polls && w'.polls[id] == w.polls[id]) || PollOk(pollInterval, w', w'.polls[id])
    ensures Inv(pollInterval, w')
  {
  }

  /** One resource was written, keeping or adding to its history. */
  lemma WriteKeepsInv(pollInterval: nat, w: World, r: string, value: Item, w': World)
    requires Inv(pollInterval, w)
    requires w'.items == Accept(w.items, r, value, NoFault).store && w'.now == w.now && w'.polls == w.polls
    requires forall r' :: History(w, r') <= History(w', r') && (r' != r ==> History(w', r') == History(w, r'))
    requires SoundAt(pollInterval, w', r)
    ensures Inv(pollInterval, w') && Extends(w, w')
  {
    forall r' ensures SoundAt(pollInterval, w', r') {
      assert SoundAt(pollInterval, w, r');
    }
    ExtensionKeepsInv(pollInterval, w, w');
  }

  lemma PollKeepsInv(pollInterval: nat, w: World, id: nat, poll: Poll)
    requires Inv(pollInterval, w) && PollOk(pollInterval, w, poll)
    ensures Inv(pollInterval, SetPoll(w, id, poll))
  {
    var w' := SetPoll(w, id, poll);
    assert Extends(w, w');
    forall r ensures SoundAt(pollInterval, w', r) { assert SoundAt(pollInterval, w, r); }
    PollStaysOk(pollInterval, w, w', poll);
    ExtensionKeepsInv(pollInterval, w, w');
  }

  lemma RequestKeepsInv(pollInterval: nat, w: World, id: nat, fault: Fault)
    requires Inv(pollInterval, w) && id in w.polls && w.polls[id].phase.Reading?
    ensures Inv(pollInterval, SetPoll(w, id, GetStep(w.polls[id], w.items, fault)))
  {
    var r := w.polls[id].resourceId;
    assert SoundAt(pollInterval, w, r);
    PollKeepsInv(pollInterval, w, id, GetStep(w.polls[id], w.items, fault));
  }

  lemma TickKeepsInv(pollInterval: nat, w: World, duration: nat)
    requires Inv(pollInterval, w)
    ensures Inv(pollInterval, w.(now := w.now + duration))
  {
    var w' := w.(now := w.now + duration);
    forall r ensures SoundAt(pollInterval, w', r) { assert SoundAt(pollInterval, w, r); }
    ExtensionKeepsInv(pollInterval, w, w');
  }

  lemma CheckKeepsInv(pollInterval: nat, w: World, id: nat, pause: nat)
    requires Inv(pollInterval, w) && id in w.polls && w.polls[id].phase.Read?
    ensures Inv(pollInterval, Step(pollInterval, w, Check(id, pause)))
  {
    assert PollOk(pollInterval, w, w.polls[id]);
    var later := w.(now := w.now + pause);
    TickKeepsInv(pollInterval, w, pause);
    PollKeepsInv(pollInterval, later, id, CheckStep(w.polls[id], w.now, w.now + pause, pollInterval));
  }

  /** The version still is the one that was read: so is the annotation, and the stamp may follow it. */
  lemma AcceptedStampFollows(pollInterval: nat, w: World, poll: Poll, fault: Fault)
    requires Inv(pollInterval, w) && poll.phase.Patching? && PollOk(pollInterval, w, poll)
    requires Locking(poll, w.items, fault).store.revision != w.items.revision
    ensures var w' := Stamped(w, poll, Locking(poll, w.items, fault).store);
      Inv(pollInterval, w') && PollOk(pollInterval, w', poll) && poll.phase.stamp in History(w', poll.resourceId)
  {
    var r, store := poll.resourceId, Locking(poll, w.items, fault).store;
    var w' := Stamped(w, poll, store);
    assert SoundAt(pollInterval, w, r);
    assert w.items.objects[r] == poll.phase.seen;
    var log := History(w, r);
    assert History(w', r) == log + [poll.phase.stamp] && History(w', r)[|log|] == poll.phase.stamp;
    WriteKeepsInv(pollInterval, w, r, w.items.objects[r].value.(lockedBy := Some(poll.phase.stamp)), w');
    PollStaysOk(pollInterval, w, w', poll);
  }

  lemma LockKeepsInv(pollInterval: nat, w: World, id: nat, fault: Fault)
    requires Inv(pollInterval, w) && id in w.polls && w.polls[id].phase.Patching?
    ensures Inv(pollInterval, Step(pollInterval, w, RequestLock(id, fault)))
  {
    var poll := w.polls[id];
    var written := Locking(poll, w.items, fault);
    assert PollOk(pollInterval, w, poll);
    if written.store.revision != w.items.revision {
      AcceptedStampFollows(pollInterval, w, poll, fault);
    }
    PollKeepsInv(pollInterval, Stamped(w, poll, written.store), id, LockStep(poll, written.reply));
  }

  lemma StepKeepsInv(pollInterval: nat, w: World, a: Action)
    requires Inv(pollInterval, w)
    ensures Inv(pollInterval, Step(pollInterval, w, a))
  {
    var w' := Step(pollInterval, w, a);
    match a
    case Tick(duration) => TickKeepsInv(pollInterval, w, duration);
    case Submit(r, rest) =>
      assert SoundAt(pollInterval, w, r);
      if r !in w.items.objects { WriteKeepsInv(pollInterval, w, r, Item(None, rest), w'); }
    case OtherWrite(r, rest) =>
      assert SoundAt(pollInterval, w, r);
      if r in w.items.objects { WriteKeepsInv(pollInterval, w, r, w.items.objects[r].value.(rest := rest), w'); }
    case Start(id, r, ip) => if id !in w.polls { PollKeepsInv(pollInterval, w, id, Poll(r, ip, Reading)); }
    case Request(id, fault) => if id in w.polls && w.polls[id].phase.Reading? { RequestKeepsInv(pollInterval, w, id, fault); }
    case Check(id, pause) => if id in w.polls && w.polls[id].phase.Read? { CheckKeepsInv(pollInterval, w, id, pause); }
    case RequestLock(id, fault) => if id in w.polls && w.polls[id].phase.Patching? { LockKeepsInv(pollInterval, w, id, fault); }
  }

  lemma {:induction false} RunKeepsInv(pollInterval: nat, actions: seq<Action>)
    ensures Inv(pollInterval, Run(pollInterval, actions))
  {
    if actions != [] {
      RunKeepsInv(pollInterval, actions[..|actions| - 1]);
      StepKeepsInv(pollInterval, Run(pollInterval, actions[..|actions| - 1]), actions[|actions| - 1]);
    }
  }

  // ---- What every run keeps ----

  /** Before a poller of another process got to renew the lock of a resource, the interval and the relaxation
      time had passed since every earlier stamp. */
  lemma PollersKeepApart(pollInterval: nat, actions: seq<Action>, r: string, i: nat, j: nat)
    requires i < j < |History(Run(pollInterval, actions), r)|
    ensures var log := History(Run(pollInterval, actions), r);
      && log[i].lockTime <= log[j].lockTime
      && (log[i].ip != log[j].ip ==> log[j].lockTime - log[i].lockTime >= pollInterval + POLLER_RELAXATION_TIME)
  {
    RunKeepsInv(pollInterval, actions);
    var w := Run(pollInterval, actions);
    assert SoundAt(pollInterval, w, r);
    StampsKeepApart(pollInterval, History(w, r), i, j);
  }

  lemma {:induction false} StampsKeepApart(pollInterval: nat, log: seq<Stamp>, i: nat, j: nat)
    requires forall k | 0 < k < |log| :: Follows(pollInterval, log[k - 1], log[k])
    requires i < j < |log|
    ensures log[i].lockTime <= log[j].lockTime
    ensures log[i].ip != log[j].ip ==> log[j].lockTime - log[i].lockTime >= pollInterval + POLLER_RELAXATION_TIME
  {
    assert Follows(pollInterval, log[j - 1], log[j]);
    if i < j - 1 {
      StampsKeepApart(pollInterval, log, i, j - 1);
    }
  }

  /** A process that polled may poll again, and the others may not, until its stamp times out. */
  lemma StampReserves(pollInterval: nat, actions: seq<Action>, id: nat, fault: Fault)
    requires var w := Run(pollInterval, actions);
      id in w.polls && w.polls[id].phase.Patching? && History(w, w.polls[id].resourceId) != []
    ensures var w := Run(pollInterval, actions);
      var poll := w.polls[id];
      var log := History(w, poll.resourceId);
      var last, stamp := log[|log| - 1], poll.phase.stamp;
      last.ip != stamp.ip && stamp.lockTime - last.lockTime < pollInterval + POLLER_RELAXATION_TIME ==>
        History(Step(pollInterval, w, RequestLock(id, fault)), poll.resourceId) == log
  {
    RunKeepsInv(pollInterval, actions);
    var w := Run(pollInterval, actions);
    var poll := w.polls[id];
    assert PollOk(pollInterval, w, poll) && SoundAt(pollInterval, w, poll.resourceId);
  }

  /** Only a poller whose stamp was accepted goes on to ask for the status. */
  lemma AcquiredMeansStamped(pollInterval: nat, actions: seq<Action>, id: nat)
    requires var w := Run(pollInterval, actions); id in w.polls && w.polls[id].phase.Acquired?
    ensures var w := Run(pollInterval, actions); w.polls[id].phase.stamp in History(w, w.polls[id].resourceId)
  {
    RunKeepsInv(pollInterval, actions);
    assert PollOk(pollInterval, Run(pollInterval, actions), Run(pollInterval, actions).polls[id]);
  }

  // ---- What a poll comes to ----

  /** A poll that nobody disturbs. */
  function Polled(pollInterval: nat, w: World, id: nat, r: string, ip: string, pause: nat): World {
    Step(pollInterval, Step(pollInterval, Step(pollInterval, Step(pollInterval, w,
      Start(id, r, ip)), Request(id, NoFault)), Check(id, pause)), RequestLock(id, NoFault))
  }

  lemma ReadAndChecked(pollInterval: nat, w: World, id: nat, r: string, ip: string, pause: nat)
    requires id !in w.polls && r in w.items.objects
    ensures var w' := Step(pollInterval, Step(pollInterval, Step(pollInterval, w, Start(id, r, ip)), Request(id, NoFault)), Check(id, pause));
      var item := w.items.objects[r];
      var held := item.value.lockedBy;
      && w'.items == w.items && w'.log == w.log && id in w'.polls
      && w'.polls[id] == Poll(r, ip,
           if held.Some? && held.value.ip != ip && w.now < held.value.lockTime + pollInterval + 5000 then Skipped
           else Patching(item, Stamp(ip, w.now + pause)))
  {
  }

  /** Left alone, a process polls the resource exactly if it is its own, or nobody's, or its poller did not renew the
      stamp for the interval and five seconds; it then leaves its own stamp, and the rest of the resource alone. */
  lemma PollAnswers(pollInterval: nat, w: World, id: nat, r: string, ip: string, pause: nat)
    requires id !in w.polls && r in w.items.objects
    ensures var w' := Polled(pollInterval, w, id, r, ip, pause);
      var item := w.items.objects[r].value;
      var stamp := Stamp(ip, w.now + pause);
      && id in w'.polls
      && if item.lockedBy.Some? && item.lockedBy.value.ip != ip && w.now < item.lockedBy.value.lockTime + pollInterval + 5000
         then w'.polls[id].phase == Skipped && w'.items == w.items
         else
           && w'.polls[id].phase == Acquired(stamp) && History(w', r) == History(w, r) + [stamp]
           && w'.items == Store(w.items.revision + 1,
                w.items.objects[r := Versioned(w.items.revision + 1, Item(Some(stamp), item.rest))])
  {
    ReadAndChecked(pollInterval, w, id, r, ip, pause);
  }

  /** A poll that lost a race, its resource written by another one since it was read, is skipped; without an answer, or
      the resource, it ends on an error. */
  lemma LostRaceSkips(pollInterval: nat, w: World, id: nat, fault: Fault)
    requires id in w.polls && w.polls[id].phase.Patching?
    ensures var r, seen, w' := w.polls[id].resourceId, w.polls[id].phase.seen, Step(pollInterval, w, RequestLock(id, fault));
      && (r in w.items.objects && w.items.objects[r].version != seen.version && fault == NoFault ==>
            w'.items == w.items && w'.polls[id].phase == Skipped)
      && (r !in w.items.objects || fault == Dropped ==> w'.items == w.items && w'.polls[id].phase == Broken)
      && (fault == ReplyLost ==> w'.polls[id].phase in {Skipped, Broken})
  {
  }

  /** Others create resources that nobody polls, write them as they like but for the annotation, and time passes. */
  lemma OthersAct(pollInterval: nat, w: World, r: string, rest: nat, duration: nat)
    ensures Step(pollInterval, w, Tick(duration)) == w.(now := w.now + duration)
    ensures var w' := Step(pollInterval, w, Submit(r, rest));
      r in w'.items.objects && (r !in w.items.objects ==> w'.items.objects[r].value == Item(None, rest))
    ensures var w' := Step(pollInterval, w, OtherWrite(r, rest));
      r in w.items.objects ==>
        && r in w'.items.objects && w'.items.objects[r].version == w.items.revision + 1
        && w'.items.objects[r].value == Item(w.items.objects[r].value.lockedBy, rest)
  {
  }
}
