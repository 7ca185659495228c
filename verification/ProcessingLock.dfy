/** The processing lock of the operators: an annotation that keeps two broker processes from handling the
    same resource at once. */
module ProcessingLock {
  import opened VersionedStore
  import opened Wrappers

  /** PROCESSING_REQUEST_BY_MANAGER_TIMEOUT, in milliseconds. */
  const TIMEOUT := 300000

  /** A resource: the two annotations of the lock (absent ones are empty) and everything else. */
  datatype Item = Item(lockedByManager: string, processingStartedAt: Option<int>, rest: nat)

  type Items = Store<string, Item>

  // ---- One invocation of `handleResource` ----

  datatype Phase =
    | Delivered
    | Acquiring(stamp: int)
    | Handling(stamp: int)
    | Releasing(stamp: int)
    | Ended

  /** `event` is the object as the watch event showed it; `ip` is the handling process. */
  datatype Invocation = Invocation(resourceId: string, ip: string, event: Versioned<Item>, phase: Phase)

  /** Somebody else is processing the resource as the event showed it. */
  predicate InConflict(item: Item, now: int) {
    item.lockedByManager != "" && item.processingStartedAt.Some? && now - item.processingStartedAt.value < TIMEOUT
  }

  /** The clock is read twice: for the check, and for the stamp. */
  function PreProcess(inv: Invocation, checkedAt: int, stampedAt: int): Invocation {
    if !inv.phase.Delivered? then inv
    else inv.(phase := if InConflict(inv.event.value, checkedAt) then Ended else Acquiring(stampedAt))
  }

  function Stamp(item: Item, ip: string, stamp: int): Item {
    item.(lockedByManager := ip, processingStartedAt := Some(stamp))
  }

  function Cleared(item: Item): Item {
    item.(lockedByManager := "", processingStartedAt := None)
  }

  datatype Outcome = Outcome(inv: Invocation, items: Items)

  function Acquire(inv: Invocation, items: Items, fault: Fault): Outcome {
    if !inv.phase.Acquiring? then Outcome(inv, items)
    else
      var stamp := inv.phase.stamp;
      var w := Patch(items, inv.resourceId, Some(inv.event.version), (i: Item) => Stamp(i, inv.ip, stamp), fault);
      Outcome(inv.(phase := if w.reply.Ok? then Handling(stamp) else Ended), w.store)
  }

  /** The handler returns, or throws; it may ask to hold on to the lock. */
  function Finish(inv: Invocation, hold: bool): Invocation {
    if !inv.phase.Handling? then inv
    else inv.(phase := if hold then Ended else Releasing(inv.phase.stamp))
  }

  function Release(inv: Invocation, items: Items, fault: Fault): Outcome {
    if !inv.phase.Releasing? then Outcome(inv, items)
    else
      var w := Patch(items, inv.resourceId, None, (i: Item) => Cleared(i), fault);
      Outcome(inv.(phase := Ended), w.store)
  }

  // ---- The code ----

  class ApiServer {
    var items: Items

    /** A merge patch of the two annotations, tied to a version if one is given. */
    method UpdateResource(resourceId: string, resourceVersion: Option<nat>, lockedByManager: string, startedAt: Option<int>, fault: Fault)
      returns (reply: Reply<Item>)
      modifies this
      ensures Written(items, reply) == Patch(old(items), resourceId, resourceVersion,
                (i: Item) => i.(lockedByManager := lockedByManager, processingStartedAt := startedAt), fault)
    {
      var w := Patch(items, resourceId, resourceVersion,
                     (i: Item) => i.(lockedByManager := lockedByManager, processingStartedAt := startedAt), fault);
      items, reply := w.store, w.reply;
    }
  }

  /** One invocation; its methods are the continuations of its requests and of the handler. */
  class HandleResource {
    const resourceId: string
    const ip: string
    const event: Versioned<Item>
    var processingConflict: bool
    var releaseProcessingLock: bool
    var phase: Phase

    constructor (resourceId: string, ip: string, event: Versioned<Item>)
      ensures State() == Invocation(resourceId, ip, event, Delivered) && Valid()
    {
      this.resourceId, this.ip, this.event := resourceId, ip, event;
      processingConflict, releaseProcessingLock, phase := false, true, Delivered;
    }

    ghost function State(): Invocation
      reads this
    {
      Invocation(resourceId, ip, event, phase)
    }

    ghost predicate Valid()
      reads this
    {
      && (phase.Delivered? || phase.Handling? || phase.Releasing? ==> !processingConflict)
      && (phase.Releasing? ==> releaseProcessingLock)
    }

    method PreProcessRequest(checkedAt: int, stampedAt: int)
      requires Valid() && phase.Delivered?
      modifies this
      ensures Valid() && State() == PreProcess(old(State()), checkedAt, stampedAt)
    {
      var item := event.value;
      if item.processingStartedAt.Some? && item.lockedByManager != "" {
        var elapsedTimeInMs := checkedAt - item.processingStartedAt.value;
        processingConflict := elapsedTimeInMs < TIMEOUT;
      }
      phase := if processingConflict then Ended else Acquiring(stampedAt);
    }

    method AcquireProcessingLock(api: ApiServer, fault: Fault)
      requires Valid() && phase.Acquiring?
      modifies this, api
      ensures Valid() && Outcome(State(), api.items) == Acquire(old(State()), old(api.items), fault)
    {
      var stamp := phase.stamp;
      var reply := api.UpdateResource(resourceId, Some(event.version), ip, Some(stamp), fault);
      processingConflict := !reply.Ok?;
      phase := if processingConflict then Ended else Handling(stamp);
    }

    method HandlerDone(holdProcessingLock: bool)
      requires Valid() && phase.Handling?
      modifies this
      ensures Valid() && State() == Finish(old(State()), holdProcessingLock)
    {
      releaseProcessingLock := !holdProcessingLock;
      phase := if !processingConflict && releaseProcessingLock then Releasing(phase.stamp) else Ended;
    }

    /** Clears the annotations whatever the version; a failure is only logged. */
    method PostProcessRequest(api: ApiServer, fault: Fault)
      requires Valid() && phase.Releasing?
      modifies this, api
      ensures Valid() && Outcome(State(), api.items) == Release(old(State()), old(api.items), fault)
    {
      var _ := api.UpdateResource(resourceId, None, "", None, fault);
      phase := Ended;
    }
  }

  // ---- Runs ----

  datatype World = World(now: int, items: Items, invocations: map<nat, Invocation>)

  datatype Action =
    | Tick(duration: nat)
    | Submit(resourceId: string, rest: nat)
    | OtherWrite(resourceId: string, rest: nat)
    | Deliver(id: nat, resourceId: string, ip: string)
    | Check(id: nat, pause: nat)
    | RequestLock(id: nat, fault: Fault)
    | HandlerReturns(id: nat, hold: bool)
    | RequestRelease(id: nat, fault: Fault)

  const EMPTY := World(0, Store(0, map[]), map[])

  function SetInvocation(w: World, id: nat, o: Outcome): World {
    w.(items := o.items, invocations := w.invocations[id := o.inv])
  }

  /** Writes of anybody else change the version but keep the annotations. */
  function Step(w: World, a: Action): World {
    match a
    case Tick(duration) => w.(now := w.now + duration)
    case Submit(r, rest) => w.(items := Create(w.items, r, Item("", None, rest), NoFault).store)
    case OtherWrite(r, rest) => w.(items := Patch(w.items, r, None, (i: Item) => i.(rest := rest), NoFault).store)
    case Deliver(id, r, ip) =>
      if id in w.invocations || r !in w.items.objects then w
      else w.(invocations := w.invocations[id := Invocation(r, ip, w.items.objects[r], Delivered)])
    case Check(id, pause) =>
      if id !in w.invocations then w
      else SetInvocation(w.(now := w.now + pause), id, Outcome(PreProcess(w.invocations[id], w.now, w.now + pause), w.items))
    case RequestLock(id, fault) =>
      if id !in w.invocations then w else SetInvocation(w, id, Acquire(w.invocations[id], w.items, fault))
    case HandlerReturns(id, hold) =>
      if id !in w.invocations then w
      else SetInvocation(w, id, Outcome(Finish(w.invocations[id], hold), w.items))
    case RequestRelease(id, fault) =>
      if id !in w.invocations then w else SetInvocation(w, id, Release(w.invocations[id], w.items, fault))
  }

  function Run(actions: seq<Action>): World {
    if actions == [] then EMPTY else Step(Run(actions[..|actions| - 1]), actions[|actions| - 1])
  }

  /** The handler runs, or has run and its release is still on the way. */
  predicate Active(w: World, id: nat) {
    id in w.invocations && (w.invocations[id].phase.Handling? || w.invocations[id].phase.Releasing?)
  }

  /** The assumption of the protocol: an active invocation releases before its stamp times out. */
  ghost predicate Timely(w: World) {
    forall id | Active(w, id) :: w.now - w.invocations[id].phase.stamp < TIMEOUT
  }

  /** Every process knows its address, and the assumption holds at every moment of the run. */
  ghost predicate ProperRun(actions: seq<Action>) {
    actions == [] ||
    (var last := actions[|actions| - 1];
     && ProperRun(actions[..|actions| - 1])
     && (last.Deliver? ==> last.ip != "")
     && Timely(Run(actions)))
  }

  ghost predicate Exclusive(w: World) {
    forall i, j | Active(w, i) && Active(w, j) && w.invocations[i].resourceId == w.invocations[j].resourceId :: i == j
  }

  /** The resource shows the stamp of this invocation. */
  ghost predicate Holds(w: World, inv: Invocation, stamp: int) {
    && inv.resourceId in w.items.objects
    && w.items.objects[inv.resourceId].value.lockedByManager == inv.ip
    && w.items.objects[inv.resourceId].value.processingStartedAt == Some(stamp)
  }

  ghost predicate InvocationOk(w: World, inv: Invocation) {
    && inv.ip != ""
    && inv.event.version <= w.items.revision
    && (inv.resourceId in w.items.objects && w.items.objects[inv.resourceId].version == inv.event.version ==>
          w.items.objects[inv.resourceId] == inv.event)
    && (inv.phase.Acquiring? ==> inv.phase.stamp <= w.now && !InConflict(inv.event.value, inv.phase.stamp))
    && (inv.phase.Handling? || inv.phase.Releasing? ==> Holds(w, inv, inv.phase.stamp))
  }

  ghost predicate Inv(w: World) {
    && WellVersioned(w.items)
    && (forall id | id in w.invocations :: InvocationOk(w, w.invocations[id]))
    && Exclusive(w)
  }

  /** While an invocation is active in time, nobody else's request for the lock is accepted. */
  lemma ActiveBlocksOthers(w: World, holder: nat, id: nat, fault: Fault)
    requires Inv(w) && Timely(w) && Active(w, holder) && id in w.invocations
    requires w.invocations[id].phase.Acquiring? && w.invocations[id].resourceId == w.invocations[holder].resourceId
    ensures Acquire(w.invocations[id], w.items, fault).items == w.items
    ensures Acquire(w.invocations[id], w.items, fault).inv.phase == Ended
  {
  }

  ghost predicate NobodyActive(w: World, r: string, except: nat) {
    forall other | Active(w, other) && w.invocations[other].resourceId == r :: other == except
  }

  /** An accepted write keeps the invariant if it keeps the annotations or nobody is active there. */
  lemma WriteKeepsInv(w: World, r: string, value: Item)
    requires Inv(w)
    requires
      || (forall other | Active(w, other) :: w.invocations[other].resourceId != r)
      || (r in w.items.objects && var old_ := w.items.objects[r].value;
          value.lockedByManager == old_.lockedByManager && value.processingStartedAt == old_.processingStartedAt)
    ensures Inv(w.(items := Accept(w.items, r, value, NoFault).store))
  {
  }

  /** An invocation may move on if it stays consistent and is alone when it becomes active. */
  lemma MoveKeepsInv(w: World, id: nat, inv: Invocation)
    requires Inv(w) && InvocationOk(w, inv)
    requires inv.phase.Handling? || inv.phase.Releasing? ==> NobodyActive(w, inv.resourceId, id)
    ensures Inv(w.(invocations := w.invocations[id := inv]))
  {
  }

  lemma RequestLockKeepsInv(w: World, id: nat, fault: Fault)
    requires Inv(w) && Timely(w) && id in w.invocations && w.invocations[id].phase.Acquiring?
    ensures Inv(Step(w, RequestLock(id, fault)))
  {
    var inv := w.invocations[id];
    var o := Acquire(inv, w.items, fault);
    assert InvocationOk(w, inv);
    var r := inv.resourceId;
    if o.items.revision == w.items.revision {
      MoveKeepsInv(w, id, o.inv);
    } else {
      forall other | Active(w, other) ensures w.invocations[other].resourceId != r {
        if w.invocations[other].resourceId == r { ActiveBlocksOthers(w, other, id, fault); }
      }
      WriteKeepsInv(w, r, Stamp(w.items.objects[r].value, inv.ip, inv.phase.stamp));
      var w' := w.(items := o.items);
      assert forall other | Active(w', other) :: Active(w, other);
      MoveKeepsInv(w', id, o.inv);
    }
  }

  lemma RequestReleaseKeepsInv(w: World, id: nat, fault: Fault)
    requires Inv(w) && id in w.invocations && w.invocations[id].phase.Releasing?
    ensures Inv(Step(w, RequestRelease(id, fault)))
  {
    var inv := w.invocations[id];
    var o := Release(inv, w.items, fault);
    assert InvocationOk(w, inv) && Active(w, id);
    MoveKeepsInv(w, id, o.inv);
    var w' := w.(invocations := w.invocations[id := o.inv]);
    var w'' := Step(w, RequestRelease(id, fault));
    if o.items.revision == w.items.revision {
      assert w'' == w';
    } else {
      assert forall other | Active(w', other) :: other != id && Active(w, other);
      var value := Cleared(w.items.objects[inv.resourceId].value);
      WriteKeepsInv(w', inv.resourceId, value);
      assert w'' == w'.(items := Accept(w'.items, inv.resourceId, value, NoFault).store);
    }
  }

  lemma TickKeepsInv(w: World, duration: nat)
    requires Inv(w)
    ensures Inv(w.(now := w.now + duration))
  {
  }

  lemma CheckKeepsInv(w: World, id: nat, pause: nat)
    requires Inv(w) && id in w.invocations
    ensures Inv(Step(w, Check(id, pause)))
  {
    var later := w.(now := w.now + pause);
    TickKeepsInv(w, pause);
    assert InvocationOk(w, w.invocations[id]) && InvocationOk(later, w.invocations[id]);
    assert Active(later, id) ==> NobodyActive(later, w.invocations[id].resourceId, id);
    MoveKeepsInv(later, id, PreProcess(w.invocations[id], w.now, w.now + pause));
  }

  lemma StepKeepsInv(w: World, a: Action)
    requires Inv(w) && Timely(w) && (a.Deliver? ==> a.ip != "")
    ensures Inv(Step(w, a))
  {
    match a
    case Tick(duration) => TickKeepsInv(w, duration);
    case Submit(r, rest) =>
      if r !in w.items.objects {
        forall other | Active(w, other) ensures w.invocations[other].resourceId != r {
          assert InvocationOk(w, w.invocations[other]);
        }
        WriteKeepsInv(w, r, Item("", None, rest));
      }
    case OtherWrite(r, rest) =>
      if r in w.items.objects { WriteKeepsInv(w, r, w.items.objects[r].value.(rest := rest)); }
    case Deliver(id, r, ip) =>
      if id !in w.invocations && r in w.items.objects {
        MoveKeepsInv(w, id, Invocation(r, ip, w.items.objects[r], Delivered));
      }
    case RequestLock(id, fault) =>
      if id in w.invocations {
        assert InvocationOk(w, w.invocations[id]);
        if w.invocations[id].phase.Acquiring? { RequestLockKeepsInv(w, id, fault); } else { SameInvocation(w, id); }
      }
    case RequestRelease(id, fault) =>
      if id in w.invocations {
        if w.invocations[id].phase.Releasing? { RequestReleaseKeepsInv(w, id, fault); } else { SameInvocation(w, id); }
      }
    case Check(id, pause) =>
      if id in w.invocations { CheckKeepsInv(w, id, pause); }
    case HandlerReturns(id, hold) =>
      if id in w.invocations {
        assert InvocationOk(w, w.invocations[id]);
        assert Active(w, id) ==> NobodyActive(w, w.invocations[id].resourceId, id);
        MoveKeepsInv(w, id, Finish(w.invocations[id], hold));
      }
  }

  lemma SameInvocation(w: World, id: nat)
    requires id in w.invocations
    ensures SetInvocation(w, id, Outcome(w.invocations[id], w.items)) == w
  {
  }

  lemma {:induction false} ProperRunKeepsInv(actions: seq<Action>)
    requires ProperRun(actions)
    ensures Inv(Run(actions)) && Timely(Run(actions))
  {
    if actions != [] {
      var before, last := Run(actions[..|actions| - 1]), actions[|actions| - 1];
      ProperRunKeepsInv(actions[..|actions| - 1]);
      StepKeepsInv(before, last);
    }
  }

  // ---- What every proper run keeps ----

  /** At most one invocation per resource is active, at every moment. */
  lemma ProcessingIsExclusive(actions: seq<Action>)
    requires ProperRun(actions)
    ensures Exclusive(Run(actions))
  {
    ProperRunKeepsInv(actions);
  }

  /** The release carries no version and yet clears the releaser's own stamp, nobody else's. */
  lemma ReleaseClearsOwnStamp(actions: seq<Action>, id: nat, fault: Fault)
    requires ProperRun(actions) && id in Run(actions).invocations && Run(actions).invocations[id].phase.Releasing?
    ensures var w := Run(actions);
      var inv := w.invocations[id];
      && Holds(w, inv, inv.phase.stamp)
      && (forall other | Active(w, other) && other != id :: w.invocations[other].resourceId != inv.resourceId)
      && var w' := Step(w, RequestRelease(id, fault));
         if fault.Dropped? then w'.items == w.items
         else inv.resourceId in w'.items.objects
              && w'.items.objects[inv.resourceId].value == Cleared(w.items.objects[inv.resourceId].value)
  {
    ProperRunKeepsInv(actions);
    var w := Run(actions);
    assert InvocationOk(w, w.invocations[id]);
    assert Active(w, id);
  }

  // ---- The assumption is needed ----

  function Join(w: World, second: nat, r: string, ip: string): World {
    Step(Step(Step(w, Deliver(second, r, ip)), Check(second, 0)), RequestLock(second, NoFault))
  }

  function Leave(w: World, id: nat): World {
    Step(Step(w, HandlerReturns(id, false)), RequestRelease(id, NoFault))
  }

  lemma ExpiredIsJoined(w: World, second: nat, r: string, ip: string)
    requires r in w.items.objects && second !in w.invocations && !InConflict(w.items.objects[r].value, w.now)
    ensures var item := Versioned(w.items.revision + 1, Stamp(w.items.objects[r].value, ip, w.now));
      Join(w, second, r, ip)
      == World(w.now, Store(w.items.revision + 1, w.items.objects[r := item]),
               w.invocations[second := Invocation(r, ip, w.items.objects[r], Handling(w.now))])
  {
  }

  lemma LeavingClears(w: World, id: nat)
    requires Active(w, id) && w.invocations[id].resourceId in w.items.objects
    ensures var r := w.invocations[id].resourceId;
      && r in Leave(w, id).items.objects
      && Leave(w, id).items.objects[r].value == Cleared(w.items.objects[r].value)
      && forall other | other != id && Active(w, other) :: Active(Leave(w, id), other)
  {
    var returned := Step(w, HandlerReturns(id, false));
    assert returned.invocations[id].phase.Releasing?;
  }

  /** Whenever an invocation is about to outlive its stamp, in its handler or with its release pending, a second
      one can join it, and then the release of the first clears the stamp of the second while that one is
      still active. */
  lemma OverrunBreaksExclusion(actions: seq<Action>, id: nat, duration: nat, second: nat, ip: string)
    requires ProperRun(actions) && Active(Run(actions), id) && second !in Run(actions).invocations
    requires Run(actions).now + duration - Run(actions).invocations[id].phase.stamp >= TIMEOUT
    ensures var r := Run(actions).invocations[id].resourceId;
      var late := Step(Run(actions), Tick(duration));
      var joined := Join(late, second, r, ip);
      && Active(joined, id) && Active(joined, second) && !Exclusive(joined)
      && Holds(joined, joined.invocations[second], late.now)
      && var left := Leave(joined, id);
         Active(left, second) && r in left.items.objects && left.items.objects[r].value.processingStartedAt == None
  {
    ProperRunKeepsInv(actions);
    var w := Run(actions);
    var first := w.invocations[id];
    assert InvocationOk(w, first);
    var late := Step(w, Tick(duration));
    ExpiredIsJoined(late, second, first.resourceId, ip);
    var joined := Join(late, second, first.resourceId, ip);
    assert joined.invocations[id].resourceId == joined.invocations[second].resourceId;
    LeavingClears(joined, id);
  }

  /** The timeout is the exact bound: after any proper run and any pause, a second invocation that sees the
      resource as it is can join an active one if and only if the stamp of that one has timed out. */
  lemma JoinedExactlyOnOverrun(actions: seq<Action>, id: nat, duration: nat, second: nat, ip: string)
    requires ProperRun(actions) && Active(Run(actions), id) && second !in Run(actions).invocations
    ensures var w := Run(actions);
      Active(Join(Step(w, Tick(duration)), second, w.invocations[id].resourceId, ip), second)
      <==> w.now + duration - w.invocations[id].phase.stamp >= TIMEOUT
  {
    var w := Run(actions);
    if w.now + duration - w.invocations[id].phase.stamp >= TIMEOUT {
      OverrunBreaksExclusion(actions, id, duration, second, ip);
    } else {
      ProperRunKeepsInv(actions);
      assert InvocationOk(w, w.invocations[id]);
      FreshStampKeepsOut(Step(w, Tick(duration)), w.invocations[id], second, ip);
    }
  }

  lemma FreshStampKeepsOut(w: World, holder: Invocation, second: nat, ip: string)
    requires holder.ip != "" && holder.resourceId in w.items.objects && second !in w.invocations
    requires holder.phase.Handling? || holder.phase.Releasing?
    requires Holds(w, holder, holder.phase.stamp) && w.now - holder.phase.stamp < TIMEOUT
    ensures !Active(Join(w, second, holder.resourceId, ip), second)
  {
    var delivered := Step(w, Deliver(second, holder.resourceId, ip));
    var checked := Step(delivered, Check(second, 0));
    assert checked.invocations[second].phase == Ended;
  }

  // ---- What an invocation comes to ----

  /** An invocation up to its handler, undisturbed: it works on the resource exactly if nobody's stamp is younger than
      five minutes, and then under its own. */
  lemma EntryAnswers(w: World, id: nat, r: string, ip: string, pause: nat)
    requires id !in w.invocations && r in w.items.objects
    ensures var w' := Step(Step(Step(w, Deliver(id, r, ip)), Check(id, pause)), RequestLock(id, NoFault));
      var item := w.items.objects[r].value;
      var busy := item.lockedByManager != "" && item.processingStartedAt.Some? && w.now < item.processingStartedAt.value + 300000;
      && id in w'.invocations && w'.now == w.now + pause
      && w'.invocations[id] == Invocation(r, ip, w.items.objects[r], if busy then Ended else Handling(w.now + pause))
      && w'.items == if busy then w.items else Store(w.items.revision + 1,
           w.items.objects[r := Versioned(w.items.revision + 1, Item(ip, Some(w.now + pause), item.rest))])
  {
    var w1 := Step(w, Deliver(id, r, ip));
    var w2 := Step(w1, Check(id, pause));
    assert w2.items == w.items && w2.invocations[id].event == w.items.objects[r];
  }

  /** From its handler on, undisturbed: the stamp is cleared, and the rest of the resource left alone, unless the
      handler asks to hold on to it. */
  lemma ExitAnswers(w: World, id: nat, hold: bool)
    requires id in w.invocations && w.invocations[id].phase.Handling? && w.invocations[id].resourceId in w.items.objects
    ensures var w' := Step(Step(w, HandlerReturns(id, hold)), RequestRelease(id, NoFault));
      var r := w.invocations[id].resourceId;
      && id in w'.invocations && w'.invocations[id].phase == Ended
      && w'.items == if hold then w.items else Store(w.items.revision + 1,
           w.items.objects[r := Versioned(w.items.revision + 1, Item("", None, w.items.objects[r].value.rest))])
  {
    var w1 := Step(w, HandlerReturns(id, hold));
    assert w1.items == w.items && w1.invocations[id].resourceId == w.invocations[id].resourceId;
  }

  /** An invocation ends if it lost a race, its resource gone or written since the event, or gets no answer. */
  lemma LostRaceEnds(w: World, id: nat, fault: Fault)
    requires id in w.invocations && w.invocations[id].phase.Acquiring?
    ensures var inv, w' := w.invocations[id], Step(w, RequestLock(id, fault));
      var r := inv.resourceId;
      && (r !in w.items.objects || w.items.objects[r].version != inv.event.version || fault == Dropped ==> w'.items == w.items)
      && (w'.items == w.items || fault != NoFault ==> w'.invocations[id].phase == Ended)
  {
  }

  /** Others create resources that nobody processes, write them as they like but for the annotations, and time
      passes. */
  lemma OthersAct(w: World, r: string, rest: nat, duration: nat)
    ensures Step(w, Tick(duration)) == w.(now := w.now + duration)
    ensures var w' := Step(w, Submit(r, rest));
      r in w'.items.objects && (r !in w.items.objects ==> w'.items.objects[r].value == Item("", None, rest))
    ensures var w' := Step(w, OtherWrite(r, rest));
      r in w.items.objects ==>
        && r in w'.items.objects && w'.items.objects[r].version == w.items.revision + 1
        && w'.items.objects[r].value == w.items.objects[r].value.(rest := rest)
  {
  }
}
