/** Replication of a service instance between the master cluster, where the broker puts its requests, and
    the sister cluster, where a provisioner carries them out. */
module InstanceReplicator {
  import opened VersionedStore
  import opened Wrappers

  /** `status.state`. The first three are requests. */
  datatype State = InQueue | Update | Delete | InProgress | Succeeded | Failed

  predicate IsRequest(s: State) { s.InQueue? || s.Update? || s.Delete? }
  predicate IsTerminal(s: State) { s.Succeeded? || s.Failed? }

  /** `answers` numbers the request that the rest of the status is about. */
  datatype Status = Status(state: State, answers: nat, resources: seq<string>)

  /** `spec` numbers the request whose parameters the instance carries; `deleting` is a set deletion
      timestamp. */
  datatype Instance = Instance(spec: nat, lastOperation: Option<State>, deleting: bool, status: Status)

  datatype Cluster = Master | Sister

  type Clusters = Store<Cluster, Instance>

  function Replicate(source: Instance, destination: Instance, preserveResources: bool): Instance {
    destination.(spec := source.spec,
                 lastOperation := source.lastOperation,
                 status := source.status.(resources :=
                   if preserveResources then destination.status.resources else source.status.resources))
  }

  const BLANK := Instance(0, None, false, Status(InQueue, 0, []))

  /** The last operation label; a missing one means creation. */
  function Operation(i: Instance): State {
    if i.lastOperation.Some? then i.lastOperation.value else InQueue
  }

  // ---- Everybody but the replicator ----

  /** `requests` counts the broker's requests; `recorded` is what the sister's provisioner last recorded as
      the resources of the replica. */
  datatype World = World(clusters: Clusters, requests: nat, recorded: seq<string>)

  datatype Action =
    // the broker: creates, asks for changes, and deletes in two writes, the timestamp first
    | CreateInstance
    | Request(kind: State)
    | MarkDeleting
    | RemoveInstance
    // the provisioner
    | Pick(resources: seq<string>)
    | Finish(success: bool, resources: seq<string>)
    | GiveUp(relabel: bool)
    | Touch

  function Put(w: World, c: Cluster, i: Instance): World {
    w.(clusters := Accept(w.clusters, c, i, NoFault).store)
  }

  function Drop(w: World, c: Cluster): World {
    w.(clusters := Store(w.clusters.revision + 1, w.clusters.objects - {c}))
  }

  function At(w: World, c: Cluster): Option<Versioned<Instance>> { Lookup(w.clusters, c) }

  /** A step of the broker or the provisioner; steps that are not possible do nothing. */
  function Step(w: World, a: Action): World {
    var master, sister := At(w, Master), At(w, Sister);
    match a
    case CreateInstance =>
      if master.Some? then w
      else Put(w, Master, Instance(w.requests + 1, None, false, Status(InQueue, 0, []))).(requests := w.requests + 1)
    case Request(kind) =>
      if master.None? || !IsTerminal(master.value.value.status.state) || !IsRequest(kind)
         || (kind == Delete && !master.value.value.deleting) then w
      else
        var m := master.value.value;
        Put(w, Master, m.(spec := w.requests + 1, status := m.status.(state := kind))).(requests := w.requests + 1)
    case MarkDeleting =>
      if master.None? || !IsTerminal(master.value.value.status.state) then w
      else Put(w, Master, master.value.value.(deleting := true))
    case RemoveInstance =>
      if master.None? || !IsTerminal(master.value.value.status.state) then w else Drop(w, Master)
    case Pick(resources) =>
      if sister.None? || !IsRequest(sister.value.value.status.state)
         || (sister.value.value.status.state == Delete && !sister.value.value.deleting) then w
      else
        var s := sister.value.value;
        Put(w, Sister, s.(lastOperation := Some(s.status.state), status := Status(InProgress, s.spec, resources)))
          .(recorded := resources)
    case Finish(success, resources) =>
      if sister.None? || !sister.value.value.status.state.InProgress? then w
      else
        var s := sister.value.value;
        if success && Operation(s) == Delete then Drop(w, Sister).(recorded := [])
        else Put(w, Sister, s.(status := Status(if success then Succeeded else Failed, s.status.answers, resources)))
               .(recorded := resources)
    case GiveUp(relabel) =>
      if sister.None? || IsTerminal(sister.value.value.status.state) then w
      else
        var s := sister.value.value;
        var op := if IsRequest(s.status.state) then s.status.state else Operation(s);
        Put(w, Sister, s.(lastOperation := if relabel then Some(op) else s.lastOperation,
                          status := s.status.(state := Failed, answers := s.spec)))
    case Touch => if sister.None? then w else Put(w, Sister, sister.value.value)
  }

  function Steps(w: World, actions: seq<Action>): World {
    if actions == [] then w else Step(Steps(w, actions[..|actions| - 1]), actions[|actions| - 1])
  }

  // ---- The invariant ----

  /** The replica is at work on request number `spec` of this kind, or done with it. */
  ghost predicate Carries(i: Instance, spec: nat, kind: State) {
    && i.spec == spec
    && (kind == Delete ==> i.deleting)
    && (IsRequest(i.status.state) ==> i.status.state == kind)
    && (!IsRequest(i.status.state) ==> i.status.answers == spec)
    && (i.status.state.InProgress? ==> i.lastOperation == Some(kind))
  }

  /** A replica that is gone has carried out a delete. */
  ghost predicate CarriedOut(sister: Option<Versioned<Instance>>, spec: nat, kind: State) {
    if sister.None? then kind == Delete else Carries(sister.value.value, spec, kind)
  }

  /** What the master shows as finished is the answer to the request it carries: the very status with which
      the provisioner finished that request, or the success of a delete that removed the replica. */
  ghost predicate Answered(w: World, m: Instance) {
    if At(w, Sister).None?
    then m.status.state.Succeeded? && Operation(m) == Delete && m.deleting
    else m.status == At(w, Sister).value.value.status && m.status.answers == m.spec
  }

  ghost predicate MasterOk(w: World, m: Instance) {
    && m.spec == w.requests
    && (m.status.state == Delete ==> m.deleting)
    && (m.status.state.InProgress? ==>
          && IsRequest(Operation(m)) && m.lastOperation.Some? && (Operation(m) == Delete ==> m.deleting)
          && CarriedOut(At(w, Sister), m.spec, Operation(m)))
    && (IsTerminal(m.status.state) ==> Answered(w, m))
  }

  ghost predicate Inv(w: World) {
    && WellVersioned(w.clusters)
    && (At(w, Master).Some? ==> MasterOk(w, At(w, Master).value.value))
    && (if At(w, Sister).None? then w.recorded == [] else At(w, Sister).value.value.status.resources == w.recorded)
  }

  /** What the others may have done between two calls of the replicator. */
  ghost predicate Rely(before: World, after: World) {
    var m, m', s, s' := At(before, Master), At(after, Master), At(before, Sister), At(after, Sister);
    && before.clusters.revision <= after.clusters.revision
    && (m' == m || (m'.Some? ==> m'.value.version > before.clusters.revision))
    && (s' == s || (s'.Some? ==> s'.value.version > before.clusters.revision))
    && (m.Some? && !IsTerminal(m.value.value.status.state) ==> m' == m)
    && (s.None? ==> s'.None?)
    && (s.Some? && s.value.value.deleting && s'.Some? ==> s'.value.value.deleting)
    && (s.Some? && IsTerminal(s.value.value.status.state) ==> s'.Some? && s'.value.value.status == s.value.value.status)
    && (forall spec, kind | CarriedOut(s, spec, kind) && IsRequest(kind) :: CarriedOut(s', spec, kind))
    && (Rank(before) > 0 ==> Rank(after) <= Rank(before) && after.requests == before.requests)
  }

  /** How far the outstanding request is from its answer: not handed over, handed over, taken up, finished
      in the sister cluster, answered. */
  function Rank(w: World): nat {
    var m, s := At(w, Master), At(w, Sister);
    if m.None? || IsTerminal(m.value.value.status.state) then 0
    else if IsRequest(m.value.value.status.state) then 4
    else if s.None? || IsTerminal(s.value.value.status.state) then 1
    else if IsRequest(s.value.value.status.state) then 3
    else 2
  }

  lemma BrokerStepKeeps(w: World, a: Action)
    requires Inv(w) && (a.CreateInstance? || a.Request? || a.MarkDeleting? || a.RemoveInstance?)
    ensures Inv(Step(w, a)) && Rely(w, Step(w, a)) && At(Step(w, a), Sister) == At(w, Sister)
  {
  }

  lemma ProvisionerWriteKeeps(w: World, i: Instance, resources: seq<string>)
    requires Inv(w) && At(w, Sister).Some? && i.status.resources == resources
    requires var s := At(w, Sister).value.value;
      && i.spec == s.spec && (s.deleting ==> i.deleting)
      && (forall spec, kind | Carries(s, spec, kind) && IsRequest(kind) :: Carries(i, spec, kind))
      && (IsRequest(i.status.state) ==> IsRequest(s.status.state))
      && (IsTerminal(s.status.state) ==> i.status == s.status)
    ensures var w' := Put(w, Sister, i).(recorded := resources);
      Inv(w') && Rely(w, w')
  {
  }

  lemma ProvisionerStepKeeps(w: World, a: Action)
    requires Inv(w) && (a.Pick? || a.Finish? || a.GiveUp? || a.Touch?)
    ensures Inv(Step(w, a)) && Rely(w, Step(w, a))
  {
    if At(w, Sister).Some? && At(Step(w, a), Sister).Some? && At(Step(w, a), Sister) != At(w, Sister) {
      var i := At(Step(w, a), Sister).value.value;
      ProvisionerWriteKeeps(w, i, i.status.resources);
    }
  }

  lemma StepKeeps(w: World, a: Action)
    requires Inv(w)
    ensures Inv(Step(w, a)) && Rely(w, Step(w, a))
  {
    if a.Pick? || a.Finish? || a.GiveUp? || a.Touch? {
      ProvisionerStepKeeps(w, a);
    } else {
      BrokerStepKeeps(w, a);
    }
  }

  lemma {:induction false} StepsKeep(w: World, actions: seq<Action>)
    requires Inv(w)
    ensures Inv(Steps(w, actions)) && Rely(w, Steps(w, actions))
  {
    if actions != [] {
      StepsKeep(w, actions[..|actions| - 1]);
      StepKeeps(Steps(w, actions[..|actions| - 1]), actions[|actions| - 1]);
    }
  }

  /** While the master waits for a request to be handed over, the replica may be written or removed, as long
      as its resources stay what its provisioner recorded. */
  lemma SisterWritesKeep(before: World, after: World)
    requires Inv(before) && At(before, Master).Some? && IsRequest(At(before, Master).value.value.status.state)
    requires
      || after == before
      || (exists i: Instance :: i.status.resources == before.recorded && after == Put(before, Sister, i))
      || after == Drop(before, Sister).(recorded := [])
    ensures Inv(after) && At(after, Master) == At(before, Master) && after.requests == before.requests
  {
  }

  /** Once the replica carries the request, the master may show it as in progress. */
  lemma HandingOverKeeps(w: World, state: State)
    requires Inv(w) && At(w, Master).Some? && IsRequest(state) && At(w, Master).value.value.status.state == state
    requires CarriedOut(At(w, Sister), At(w, Master).value.value.spec, state)
    ensures var i := At(w, Master).value.value;
      Inv(Put(w, Master, i.(lastOperation := Some(state), status := i.status.(state := InProgress))))
  {
  }

  /** What comes back from a replica that carries the request is progress on it or its answer. */
  lemma CollectingKeeps(w: World, updated: Instance)
    requires Inv(w) && At(w, Master).Some? && At(w, Master).value.value.status.state.InProgress?
    requires var i := At(w, Master).value.value;
      || (At(w, Sister).None? && Operation(i) == Delete && updated == i.(status := i.status.(state := Succeeded)))
      || (exists replica :: Carries(replica, i.spec, Operation(i)) && !IsRequest(replica.status.state)
            && (IsTerminal(replica.status.state) ==>
                  At(w, Sister).Some? && At(w, Sister).value.value.status == replica.status)
            && updated == Replicate(replica, i, false))
    ensures var w' := Put(w, Master, updated);
      && Inv(w')
      && Rank(w') == if IsTerminal(updated.status.state) then 0 else Rank(w)
  {
  }

  // ---- The replicator ----

  /** The provisioner does its work on a request that was handed over and is not finished. */
  function Provisioned(w: World, success: bool, resources: seq<string>): World {
    Step(Step(w, Pick(resources)), Finish(success, resources))
  }

  lemma ProvisionedIsFinished(w: World, success: bool, resources: seq<string>)
    requires Inv(w) && Rank(w) in {2, 3}
    ensures var w' := Provisioned(w, success, resources);
      && Inv(w') && Rank(w') == 1 && w'.requests == w.requests
      && (At(w', Sister).Some? ==>
            var status := At(w', Sister).value.value.status;
            status.state == (if success then Succeeded else Failed) && status.resources == resources)
  {
    StepKeeps(w, Pick(resources));
    StepKeeps(Step(w, Pick(resources)), Finish(success, resources));
  }

  lemma NothingToProvision(w: World, success: bool, resources: seq<string>)
    requires At(w, Sister).None? || IsTerminal(At(w, Sister).value.value.status.state)
    ensures Provisioned(w, success, resources) == w
  {
  }

  /** What one reconcile does, undisturbed or not. */
  ghost predicate Reconciled(before: World, after: World, undisturbed: bool) {
    // Whatever fails and whoever interferes, an outstanding request is not lost, set back or replaced;
    && (Rank(before) > 0 ==>
          Rank(after) <= Rank(before) && At(after, Master).Some? && after.requests == before.requests)
    // undisturbed, it is handed over, and its answer is brought back.
    && (undisturbed ==>
          && after.requests == before.requests
          && (Rank(before) == 0 ==> after == before)
          && (Rank(before) < 4 ==> At(after, Sister) == At(before, Sister))
          && if Rank(before) == 4 then Rank(after) == 3 || (Rank(after) == 0 && At(after, Sister).None?)
             else Rank(after) == if Rank(before) == 1 then 0 else Rank(before))
  }

  /** What happens at one call of the replicator: the steps of the others before it is served, its fault,
      and whether finalizers hold up a delete. */
  datatype Turn = Turn(others: seq<Action>, fault: Fault, finalizers: bool)

  const QUIET := Turn([], NoFault, true)

  /** The world after some calls, the turns that are left, and what came back. */
  datatype Served<R> = Served(world: World, turns: seq<Turn>, reply: R)

  /** The others take their turn; when none is left nobody interferes and nothing fails. */
  function Yielding(w: World, turns: seq<Turn>): Served<Turn> {
    if turns == [] then Served(w, [], QUIET) else Served(Steps(w, turns[0].others), turns[1..], turns[0])
  }

  function Fetching(w: World, turns: seq<Turn>, c: Cluster): Served<Reply<Instance>> {
    var y := Yielding(w, turns);
    Served(y.world, y.turns, Get(y.world.clusters, c, y.reply.fault))
  }

  /** Writes back an instance under the version it was read at. */
  function Updating(w: World, turns: seq<Turn>, c: Cluster, i: Versioned<Instance>): Served<Reply<Instance>> {
    var y := Yielding(w, turns);
    var written := Patch(y.world.clusters, c, Some(i.version), (_: Instance) => i.value, y.reply.fault);
    Served(y.world.(clusters := written.store), y.turns, written.reply)
  }

  function Creating(w: World, turns: seq<Turn>, i: Instance): Served<Reply<Instance>> {
    var y := Yielding(w, turns);
    var written := Create(y.world.clusters, Sister, i, y.reply.fault);
    Served(y.world.(clusters := written.store), y.turns, written.reply)
  }

  function Marked(w: World): World
    requires Sister in w.clusters.objects
  {
    Put(w, Sister, w.clusters.objects[Sister].value.(deleting := true))
  }

  /** Deletes the replica: it is marked while finalizers hold it up, and removed otherwise. */
  function Deleting(w: World, turns: seq<Turn>): Served<Option<Error>> {
    var y := Yielding(w, turns);
    var there, t := Sister in y.world.clusters.objects, y.reply;
    var after := if t.fault.Dropped? || !there then y.world
                 else if t.finalizers then Marked(y.world) else Drop(y.world, Sister).(recorded := []);
    Served(after, y.turns, if !t.fault.NoFault? then Some(Unavailable) else if there then None else Some(NotFound))
  }

  /** Hands the request over to the sister cluster. */
  function Pushing(w: World, turns: seq<Turn>, instance: Instance, state: State): Served<bool> {
    if instance.deleting && state == Delete then
      var d := Deleting(w, turns);
      if d.reply.None? || d.reply.value == NotFound then Copying(d.world, d.turns, instance, state)
      else Served(d.world, d.turns, false)
    else Copying(w, turns, instance, state)
  }

  function Copying(w: World, turns: seq<Turn>, instance: Instance, state: State): Served<bool> {
    var f := Fetching(w, turns, Sister);
    if f.reply.Ok? then
      var replica := Replicate(instance, f.reply.item.value, true);
      var u := Updating(f.world, f.turns, Sister, f.reply.item.(value := replica));
      Served(u.world, u.turns, u.reply.Ok?)
    else if f.reply.error != NotFound then Served(f.world, f.turns, false)
    else if state != Delete then
      var c := Creating(f.world, f.turns, Replicate(instance, BLANK, true));
      Served(c.world, c.turns, c.reply.Ok?)
    else Served(f.world, f.turns, true)
  }

  function InProgressFor(i: Instance, state: State): Instance {
    i.(lastOperation := Some(state), status := i.status.(state := InProgress))
  }

  /** Marks the request as handed over, retrying on conflicts; nothing comes back on an error. */
  function Settling(w: World, turns: seq<Turn>, state: State, attempts: nat): Served<Option<Versioned<Instance>>>
    decreases attempts
  {
    if attempts == 0 then Served(w, turns, None)
    else
      var f := Fetching(w, turns, Master);
      if f.reply.Err? then Served(f.world, f.turns, None)
      else if f.reply.item.value.status.state != state then Served(f.world, f.turns, Some(f.reply.item))
      else
        var u := Updating(f.world, f.turns, Master, f.reply.item.(value := InProgressFor(f.reply.item.value, state)));
        if u.reply.Ok? then Served(u.world, u.turns, Some(u.reply.item))
        else if u.reply.error == Conflict then Settling(u.world, u.turns, state, attempts - 1)
        else Served(u.world, u.turns, None)
  }

  /** What the master is to become once the sister was read; nothing if there is nothing to write. */
  function Collected(instance: Instance, reply: Reply<Instance>): Option<Instance> {
    match reply
    case Ok(replica) => if IsRequest(replica.value.status.state) then None else Some(Replicate(replica.value, instance, false))
    case Err(error) =>
      if error == NotFound && Operation(instance) == Delete
      then Some(instance.(status := instance.status.(state := Succeeded))) else None
  }

  /** Brings the result, or the progress, of the sister cluster back. */
  function Collecting(w: World, turns: seq<Turn>, instance: Versioned<Instance>): Served<bool> {
    if !instance.value.status.state.InProgress? then Served(w, turns, true)
    else
      var f := Fetching(w, turns, Sister);
      var updated := Collected(instance.value, f.reply);
      if updated.None? then Served(f.world, f.turns, f.reply.Ok?)
      else
        var u := Updating(f.world, f.turns, Master, instance.(value := updated.value));
        Served(u.world, u.turns, u.reply.Ok?)
  }

  /** `retry.DefaultRetry` makes this many attempts. */
  const RETRY_STEPS := 5

  function Reconciling(w: World, turns: seq<Turn>): Served<bool> {
    var f := Fetching(w, turns, Master);
    if f.reply.Err? then Served(f.world, f.turns, f.reply.error == NotFound)
    else
      var state := f.reply.item.value.status.state;
      if IsRequest(state) then Requesting(f.world, f.turns, f.reply.item.value, state)
      else Collecting(f.world, f.turns, f.reply.item)
  }

  function Requesting(w: World, turns: seq<Turn>, instance: Instance, state: State): Served<bool> {
    var p := Pushing(w, turns, instance, state);
    if !p.reply then p
    else
      var settled := Settling(p.world, p.turns, state, RETRY_STEPS);
      if settled.reply.None? then Served(settled.world, settled.turns, false)
      else Collecting(settled.world, settled.turns, settled.reply.value)
  }

  // ---- What its calls keep ----

  lemma YieldingKeeps(w: World, turns: seq<Turn>)
    requires Inv(w)
    ensures Inv(Yielding(w, turns).world) && Rely(w, Yielding(w, turns).world)
  {
    if turns != [] { StepsKeep(w, turns[0].others); }
  }

  /** What a call does in the world in which it is served. */
  lemma UpdatingWrites(w: World, turns: seq<Turn>, c: Cluster, i: Versioned<Instance>)
    ensures var u, mid := Updating(w, turns, c, i), Yielding(w, turns).world;
      && (u.world == mid || (At(mid, c).Some? && At(mid, c).value.version == i.version && u.world == Put(mid, c, i.value)))
      && (u.reply.Ok? ==> u.world == Put(mid, c, i.value) && At(u.world, c) == Some(u.reply.item))
      && (u.reply == Err(Conflict) ==> u.world == mid && At(mid, c).Some? && At(mid, c).value.version != i.version)
      && (turns == [] && At(mid, c).Some? && At(mid, c).value.version == i.version ==> u.reply.Ok?)
  {
  }

  lemma CopyingHandsOver(w: World, turns: seq<Turn>, instance: Versioned<Instance>, state: State)
    requires Inv(w) && IsRequest(state) && instance.value.status.state == state && At(w, Master) == Some(instance)
    requires instance.value.deleting && state == Delete && At(w, Sister).Some? ==> At(w, Sister).value.value.deleting
    ensures var o := Copying(w, turns, instance.value, state);
      && Inv(o.world) && At(o.world, Master) == Some(instance) && o.world.requests == w.requests
      && (o.reply ==> CarriedOut(At(o.world, Sister), instance.value.spec, state))
      && (turns == [] ==>
            && o.reply && o.turns == []
            && (At(o.world, Sister).Some? ==> At(o.world, Sister).value.value.status.state == state))
  {
    YieldingKeeps(w, turns);
    var f := Fetching(w, turns, Sister);
    if f.reply.Ok? {
      var replica := Replicate(instance.value, f.reply.item.value, true);
      YieldingKeeps(f.world, f.turns);
      UpdatingWrites(f.world, f.turns, Sister, f.reply.item.(value := replica));
      SisterWritesKeep(Yielding(f.world, f.turns).world, Updating(f.world, f.turns, Sister, f.reply.item.(value := replica)).world);
    } else if f.reply.error == NotFound && state != Delete {
      var replica := Replicate(instance.value, BLANK, true);
      YieldingKeeps(f.world, f.turns);
      SisterWritesKeep(Yielding(f.world, f.turns).world, Creating(f.world, f.turns, replica).world);
    }
  }

  /** If the request was handed over the replica carries it, or is gone for a delete, whatever happened in
      between. */
  lemma PushingHandsOver(w: World, turns: seq<Turn>, instance: Versioned<Instance>, state: State)
    requires Inv(w) && IsRequest(state) && instance.value.status.state == state && At(w, Master) == Some(instance)
    ensures var o := Pushing(w, turns, instance.value, state);
      && Inv(o.world) && At(o.world, Master) == Some(instance) && o.world.requests == w.requests
      && (o.reply ==> CarriedOut(At(o.world, Sister), instance.value.spec, state))
      && (turns == [] ==>
            && o.reply && o.turns == []
            && (At(o.world, Sister).Some? ==> At(o.world, Sister).value.value.status.state == state))
  {
    if instance.value.deleting && state == Delete {
      YieldingKeeps(w, turns);
      var d := Deleting(w, turns);
      SisterWritesKeep(Yielding(w, turns).world, d.world);
      if d.reply.None? || d.reply.value == NotFound {
        CopyingHandsOver(d.world, d.turns, instance, state);
      }
    } else {
      CopyingHandsOver(w, turns, instance, state);
    }
  }

  /** Only a request that the replica carries is shown as in progress. While a request is outstanding nobody else
      writes the master, so the first attempt meets no conflict. */
  lemma SettlingShows(w: World, turns: seq<Turn>, instance: Versioned<Instance>, state: State, attempts: nat)
    requires Inv(w) && IsRequest(state) && instance.value.status.state == state && At(w, Master) == Some(instance)
    requires CarriedOut(At(w, Sister), instance.value.spec, state)
    ensures var o := Settling(w, turns, state, attempts);
      && Inv(o.world) && o.world.requests == w.requests && At(o.world, Master).Some?
      && (o.reply.Some? ==> At(o.world, Master) == o.reply && o.reply.value.value.status.state.InProgress?)
      && (turns == [] && attempts > 0 ==>
            && o.reply.Some? && o.turns == [] && o.reply.value.value.status.state.InProgress?
            && Operation(o.reply.value.value) == state && At(o.world, Sister) == At(w, Sister))
  {
    if attempts > 0 {
      YieldingKeeps(w, turns);
      var f := Fetching(w, turns, Master);
      if f.reply.Ok? {
        var i := instance.(value := InProgressFor(instance.value, state));
        var u, mid := Updating(f.world, f.turns, Master, i), Yielding(f.world, f.turns).world;
        YieldingKeeps(f.world, f.turns);
        UpdatingWrites(f.world, f.turns, Master, i);
        HandingOverKeeps(mid, state);
        assert u.reply != Err(Conflict);
      }
    }
  }

  /** What is copied back keeps a finished master truthful, and a finished replica finishes the master. */
  lemma CollectingAnswers(w: World, turns: seq<Turn>, instance: Versioned<Instance>)
    requires Inv(w) && At(w, Master) == Some(instance)
    ensures var o := Collecting(w, turns, instance);
      && Inv(o.world) && o.world.requests == w.requests && Rank(o.world) <= Rank(w) && At(o.world, Master).Some?
      && (!instance.value.status.state.InProgress? ==> o.world == w)
      && (turns == [] ==>
            && o.turns == [] && At(o.world, Sister) == At(w, Sister)
            && (Rank(w) < 4 ==> Rank(o.world) == if Rank(w) == 1 then 0 else Rank(w)))
  {
    if instance.value.status.state.InProgress? {
      YieldingKeeps(w, turns);
      var f := Fetching(w, turns, Sister);
      var updated := Collected(instance.value, f.reply);
      if updated.Some? {
        var mid := Yielding(f.world, f.turns).world;
        YieldingKeeps(f.world, f.turns);
        UpdatingWrites(f.world, f.turns, Master, instance.(value := updated.value));
        CollectingKeeps(mid, updated.value);
      }
    }
  }

  lemma RequestingKeeps(w: World, turns: seq<Turn>, instance: Versioned<Instance>, state: State)
    requires Inv(w) && IsRequest(state) && instance.value.status.state == state && At(w, Master) == Some(instance)
    ensures var o := Requesting(w, turns, instance.value, state);
      && Inv(o.world) && o.world.requests == w.requests && At(o.world, Master).Some?
      && (turns == [] ==>
            && o.turns == []
            && (Rank(o.world) == 3 || (Rank(o.world) == 0 && At(o.world, Sister).None?)))
  {
    PushingHandsOver(w, turns, instance, state);
    var p := Pushing(w, turns, instance.value, state);
    if p.reply {
      SettlingShows(p.world, p.turns, instance, state, RETRY_STEPS);
      var settled := Settling(p.world, p.turns, state, RETRY_STEPS);
      if settled.reply.Some? {
        CollectingAnswers(settled.world, settled.turns, settled.reply.value);
      }
    }
  }

  lemma ReconcilingKeeps(w: World, turns: seq<Turn>)
    requires Inv(w)
    ensures var o := Reconciling(w, turns);
      Inv(o.world) && Reconciled(w, o.world, turns == []) && (turns == [] ==> o.turns == [])
  {
    YieldingKeeps(w, turns);
    var f := Fetching(w, turns, Master);
    if f.reply.Ok? {
      var state := f.reply.item.value.status.state;
      if IsRequest(state) {
        RequestingKeeps(f.world, f.turns, f.reply.item, state);
      } else {
        CollectingAnswers(f.world, f.turns, f.reply.item);
      }
    }
  }

  // ---- What a reconcile answers ----

  lemma CollectingReports(w: World, turns: seq<Turn>, instance: Versioned<Instance>)
    requires Inv(w) && At(w, Master) == Some(instance)
    ensures var o := Collecting(w, turns, instance);
      && (Rank(w) == 1 && o.reply ==> Rank(o.world) == 0)
      && (turns == [] ==> o.reply)
  {
    if instance.value.status.state.InProgress? {
      YieldingKeeps(w, turns);
      var f := Fetching(w, turns, Sister);
      var updated := Collected(instance.value, f.reply);
      if updated.Some? {
        var mid := Yielding(f.world, f.turns).world;
        YieldingKeeps(f.world, f.turns);
        UpdatingWrites(f.world, f.turns, Master, instance.(value := updated.value));
        CollectingKeeps(mid, updated.value);
      }
    }
  }

  lemma RequestingReports(w: World, turns: seq<Turn>, instance: Versioned<Instance>, state: State)
    requires Inv(w) && IsRequest(state) && instance.value.status.state == state && At(w, Master) == Some(instance)
    ensures var o := Requesting(w, turns, instance.value, state);
      && (o.reply ==> Rank(o.world) < 4)
      && (turns == [] ==> o.reply)
  {
    PushingHandsOver(w, turns, instance, state);
    var p := Pushing(w, turns, instance.value, state);
    if p.reply {
      SettlingShows(p.world, p.turns, instance, state, RETRY_STEPS);
      var settled := Settling(p.world, p.turns, state, RETRY_STEPS);
      if settled.reply.Some? {
        CollectingAnswers(settled.world, settled.turns, settled.reply.value);
        CollectingReports(settled.world, settled.turns, settled.reply.value);
      }
    }
  }

  /** A reconcile that reports success has done its job, whatever happened meanwhile: an outstanding request was handed
      over, and a finished one answered. Undisturbed, it does report success; otherwise it is called again. */
  lemma SuccessIsTrue(w: World, turns: seq<Turn>)
    requires Inv(w)
    ensures var o := Reconciling(w, turns);
      && (Rank(w) == 4 && o.reply ==> Rank(o.world) < 4)
      && (Rank(w) == 1 && o.reply ==> Rank(o.world) == 0)
      && (turns == [] ==> o.reply)
  {
    YieldingKeeps(w, turns);
    var f := Fetching(w, turns, Master);
    if f.reply.Ok? {
      var state := f.reply.item.value.status.state;
      if IsRequest(state) {
        RequestingReports(f.world, f.turns, f.reply.item, state);
      } else {
        CollectingReports(f.world, f.turns, f.reply.item);
        CollectingAnswers(f.world, f.turns, f.reply.item);
      }
    }
  }

  /** Some calls were served, and none of them failed. */
  ghost predicate ServedCleanly(turns: seq<Turn>, rest: seq<Turn>) {
    |rest| <= |turns| && IsRest(turns, rest, |turns| - |rest|)
  }

  ghost predicate IsRest(turns: seq<Turn>, rest: seq<Turn>, n: nat)
    requires n <= |turns|
  {
    rest == turns[n..] && forall i | 0 <= i < n :: turns[i].fault == NoFault
  }

  lemma CleanlyOnce(w: World, turns: seq<Turn>)
    requires Yielding(w, turns).reply.fault == NoFault
    ensures ServedCleanly(turns, Yielding(w, turns).turns)
  {
  }

  lemma CleanlyAfter(a: seq<Turn>, b: seq<Turn>, c: seq<Turn>)
    requires ServedCleanly(a, b) && ServedCleanly(b, c)
    ensures ServedCleanly(a, c)
  {
    var n, m := |a| - |b|, |b| - |c|;
    assert a[n..][m..] == a[n + m..];
    forall i | 0 <= i < n + m ensures a[i].fault == NoFault {
      if i >= n { assert a[i] == b[i - n]; }
    }
  }

  lemma CleanCopying(w: World, turns: seq<Turn>, instance: Instance, state: State)
    requires Copying(w, turns, instance, state).reply
    ensures ServedCleanly(turns, Copying(w, turns, instance, state).turns)
  {
    var f := Fetching(w, turns, Sister);
    CleanlyOnce(w, turns);
    if f.reply.Ok? || state != Delete {
      CleanlyOnce(f.world, f.turns);
      CleanlyAfter(turns, f.turns, Yielding(f.world, f.turns).turns);
    }
  }

  lemma CleanPushing(w: World, turns: seq<Turn>, instance: Instance, state: State)
    requires Pushing(w, turns, instance, state).reply
    ensures ServedCleanly(turns, Pushing(w, turns, instance, state).turns)
  {
    if instance.deleting && state == Delete {
      var d := Deleting(w, turns);
      CleanlyOnce(w, turns);
      CleanCopying(d.world, d.turns, instance, state);
      CleanlyAfter(turns, d.turns, Copying(d.world, d.turns, instance, state).turns);
    } else {
      CleanCopying(w, turns, instance, state);
    }
  }

  lemma CleanSettling(w: World, turns: seq<Turn>, instance: Versioned<Instance>, state: State, attempts: nat)
    requires Inv(w) && IsRequest(state) && instance.value.status.state == state && At(w, Master) == Some(instance)
    requires CarriedOut(At(w, Sister), instance.value.spec, state)
    requires Settling(w, turns, state, attempts).reply.Some?
    ensures ServedCleanly(turns, Settling(w, turns, state, attempts).turns)
  {
    var f := Fetching(w, turns, Master);
    YieldingKeeps(w, turns);
    YieldingKeeps(f.world, f.turns);
    var i := instance.(value := InProgressFor(instance.value, state));
    UpdatingWrites(f.world, f.turns, Master, i);
    assert Updating(f.world, f.turns, Master, i).reply != Err(Conflict);
    CleanlyOnce(w, turns);
    CleanlyOnce(f.world, f.turns);
    CleanlyAfter(turns, f.turns, Yielding(f.world, f.turns).turns);
  }

  lemma CleanCollecting(w: World, turns: seq<Turn>, instance: Versioned<Instance>)
    requires Collecting(w, turns, instance).reply
    ensures ServedCleanly(turns, Collecting(w, turns, instance).turns)
  {
    if !instance.value.status.state.InProgress? {
      assert turns == turns[0..];
    } else {
      var f := Fetching(w, turns, Sister);
      CleanlyOnce(w, turns);
      if Collected(instance.value, f.reply).Some? {
        CleanlyOnce(f.world, f.turns);
        CleanlyAfter(turns, f.turns, Yielding(f.world, f.turns).turns);
      }
    }
  }

  lemma CleanRequesting(w: World, turns: seq<Turn>, instance: Versioned<Instance>, state: State)
    requires Inv(w) && IsRequest(state) && instance.value.status.state == state && At(w, Master) == Some(instance)
    requires Requesting(w, turns, instance.value, state).reply
    ensures ServedCleanly(turns, Requesting(w, turns, instance.value, state).turns)
  {
    var p := Pushing(w, turns, instance.value, state);
    PushingHandsOver(w, turns, instance, state);
    CleanPushing(w, turns, instance.value, state);
    var settled := Settling(p.world, p.turns, state, RETRY_STEPS);
    CleanSettling(p.world, p.turns, instance, state, RETRY_STEPS);
    CleanCollecting(settled.world, settled.turns, settled.reply.value);
    CleanlyAfter(turns, p.turns, settled.turns);
    CleanlyAfter(turns, settled.turns, Requesting(w, turns, instance.value, state).turns);
  }

  /** A failure of any call is reported, so that the reconcile is repeated. */
  lemma FailureIsReported(w: World, turns: seq<Turn>)
    requires Inv(w) && Reconciling(w, turns).reply
    ensures ServedCleanly(turns, Reconciling(w, turns).turns)
  {
    var f := Fetching(w, turns, Master);
    CleanlyOnce(w, turns);
    YieldingKeeps(w, turns);
    if f.reply.Ok? {
      var state := f.reply.item.value.status.state;
      if IsRequest(state) {
        CleanRequesting(f.world, f.turns, f.reply.item, state);
      } else {
        CleanCollecting(f.world, f.turns, f.reply.item);
      }
      CleanlyAfter(turns, f.turns, Reconciling(w, turns).turns);
    }
  }

  /** What an undisturbed reconcile writes once the request was handed over: nothing while the provisioner has not
      taken it up, and then the master becomes a copy of the replica, but for its deletion; a replica that is gone
      makes it a success. */
  lemma CopyComesBack(w: World)
    requires Inv(w) && At(w, Master).Some? && At(w, Master).value.value.status.state == InProgress
    ensures var o := Reconciling(w, []).world;
      var master, sister := At(w, Master).value.value, At(w, Sister);
      && At(o, Master).Some? && At(o, Sister) == sister && o.recorded == w.recorded
      && var after := At(o, Master).value.value;
      && after.deleting == master.deleting
      && if sister.None? then
           && after.status == Status(Succeeded, master.status.answers, master.status.resources)
           && after.spec == master.spec && after.lastOperation == master.lastOperation
         else if sister.value.value.status.state in {InQueue, State.Update, Delete} then o == w
         else
           && after.status == sister.value.value.status && after.spec == sister.value.value.spec
           && after.lastOperation == sister.value.value.lastOperation
  {
    assert Yielding(w, []) == Served(w, [], QUIET);
  }

  /** What an undisturbed reconcile hands over: the replica gets the spec, the label and the status of the master, but
      keeps its resources, and for a delete is marked; the master shows the request as in progress under its
      label. */
  lemma RequestIsHandedOver(w: World)
    requires Inv(w) && At(w, Master).Some? && IsRequest(At(w, Master).value.value.status.state)
    ensures var o := Reconciling(w, []).world;
      var m, sister := At(w, Master).value.value, At(w, Sister);
      var delete := m.status.state == Delete && m.deleting;
      && At(o, Master).Some?
      && var after := At(o, Master).value.value;
      && after.spec == m.spec && after.lastOperation == Some(m.status.state) && after.deleting == m.deleting
      && if sister.None? && m.status.state == Delete then At(o, Sister).None? && after.status == m.status.(state := Succeeded)
         else
           && after.status == m.status.(state := InProgress) && At(o, Sister).Some?
           && At(o, Sister).value.value == (
                if sister.None? then Instance(m.spec, m.lastOperation, false, m.status.(resources := []))
                else Instance(m.spec, m.lastOperation, sister.value.value.deleting || delete,
                              m.status.(resources := sister.value.value.status.resources)))
  {
    var instance := At(w, Master).value;
    var state := instance.value.status.state;
    PushingWrites(w, instance.value, state);
    PushingHandsOver(w, [], instance, state);
    var p := Pushing(w, [], instance.value, state);
    SettlingWrites(p.world, instance, state);
    SettlingShows(p.world, [], instance, state, RETRY_STEPS);
    var settled := Settling(p.world, [], state, RETRY_STEPS);
    CollectingWrites(settled.world, settled.reply.value);
  }

  lemma PushingWrites(w: World, m: Instance, state: State)
    requires m.status.state == state && IsRequest(state) && WellVersioned(w.clusters)
    ensures var o, sister := Pushing(w, [], m, state), At(w, Sister);
      && o.turns == []
      && if sister.None? && state == Delete then At(o.world, Sister).None?
         else
           && At(o.world, Sister).Some?
           && At(o.world, Sister).value.value == (
                if sister.None? then Instance(m.spec, m.lastOperation, false, m.status.(resources := []))
                else Instance(m.spec, m.lastOperation, sister.value.value.deleting || (state == Delete && m.deleting),
                              m.status.(resources := sister.value.value.status.resources)))
  {
  }

  lemma SettlingWrites(w: World, instance: Versioned<Instance>, state: State)
    requires At(w, Master) == Some(instance) && instance.value.status.state == state
    ensures var o := Settling(w, [], state, RETRY_STEPS);
      && o.reply.Some? && o.turns == [] && At(o.world, Sister) == At(w, Sister) && At(o.world, Master) == o.reply
      && o.reply.value.value == instance.value.(lastOperation := Some(state), status := instance.value.status.(state := InProgress))
  {
  }

  /** Should somebody write the master meanwhile, the mark is put on what he wrote, if that still asks for the same. */
  lemma ConflictIsRetried(w: World, others: seq<Action>, finalizers: bool, state: State, attempts: nat)
    requires attempts >= 2 && At(w, Master).Some? && At(w, Master).value.value.status.state == state
    requires var m := At(Steps(w, others), Master); m.Some? && m.value.version != At(w, Master).value.version
    ensures var o := Settling(w, [QUIET, Turn(others, NoFault, finalizers)], state, attempts);
      var m := At(Steps(w, others), Master).value;
      && o.reply.Some? && At(o.world, Master) == o.reply
      && if m.value.status.state == state
         then o.reply.value.value == m.value.(lastOperation := Some(state), status := m.value.status.(state := InProgress))
         else o.reply == Some(m) && o.world == Steps(w, others)
  {
    var turns := [QUIET, Turn(others, NoFault, finalizers)];
    var f := Fetching(w, turns, Master);
    assert f == Served(w, turns[1..], Ok(At(w, Master).value));
    assert turns[1..][1..] == [];
    var mid := Steps(w, others);
    var again := Fetching(mid, [], Master);
    assert again == Served(mid, [], Ok(At(mid, Master).value));
    assert Settling(w, turns, state, attempts) == Settling(mid, [], state, attempts - 1);
  }

  lemma CollectingWrites(w: World, instance: Versioned<Instance>)
    requires At(w, Master) == Some(instance) && instance.value.status.state == InProgress
    requires At(w, Sister).Some? ==> IsRequest(At(w, Sister).value.value.status.state)
    requires At(w, Sister).None? ==> instance.value.lastOperation == Some(Delete)
    ensures var o := Collecting(w, [], instance).world;
      && At(o, Sister) == At(w, Sister) && At(o, Master).Some?
      && At(o, Master).value.value == if At(w, Sister).Some? then instance.value
           else instance.value.(status := instance.value.status.(state := Succeeded))
  {
  }

  /** The broker makes requests: it creates, and asks a finished instance for changes or, once marked, deletion. */
  lemma BrokerRequests(w: World, kind: State)
    ensures At(w, Master).None? ==>
      var w' := Step(w, CreateInstance);
      && At(w', Master).Some? && At(w', Master).value.value == Instance(w.requests + 1, None, false, Status(InQueue, 0, []))
      && w'.requests == w.requests + 1 && At(w', Sister) == At(w, Sister)
    ensures At(w, Master).Some? && At(w, Master).value.value.status.state in {Succeeded, Failed}
            && (kind == State.Update || (kind == Delete && At(w, Master).value.value.deleting)) ==>
      var m, w' := At(w, Master).value.value, Step(w, Request(kind));
      && At(w', Master).Some? && At(w', Master).value.value == m.(spec := w.requests + 1, status := m.status.(state := kind))
      && w'.requests == w.requests + 1 && At(w', Sister) == At(w, Sister)
    ensures At(w, Master).Some? && At(w, Master).value.value.status.state in {Succeeded, Failed} ==>
      && At(Step(w, MarkDeleting), Master).Some? && At(Step(w, MarkDeleting), Master).value.value == At(w, Master).value.value.(deleting := true)
      && At(Step(w, RemoveInstance), Master).None?
  {
  }

  /** An undisturbed reconcile, the provisioner doing its work, and another reconcile. */
  function Completed(w: World, success: bool, resources: seq<string>): World {
    Reconciling(Provisioned(Reconciling(w, []).world, success, resources), []).world
  }

  /** Progress: from any state a run can be in that answers the outstanding request: with the provisioner's result,
      if it was not finished before, or as the success of a delete that left no replica. */
  lemma CompletionAnswers(w: World, success: bool, resources: seq<string>)
    requires Inv(w) && Rank(w) > 0
    ensures var w' := Completed(w, success, resources);
      && Inv(w') && w'.requests == w.requests
      && At(w', Master).Some? && IsTerminal(At(w', Master).value.value.status.state)
      && (Rank(w) > 1 ==>
            var m := At(w', Master).value.value;
            if At(w', Sister).None? then m.status.state == Succeeded && Operation(m) == Delete
            else m.status.state == (if success then Succeeded else Failed) && m.status.resources == resources)
  {
    ReconcilingKeeps(w, []);
    var handed := Reconciling(w, []).world;
    if Rank(handed) > 1 {
      ProvisionedIsFinished(handed, success, resources);
    } else {
      NothingToProvision(handed, success, resources);
    }
    ReconcilingKeeps(Provisioned(handed, success, resources), []);
  }

  // ---- Runs ----

  /** Steps of the others, and reconciles that they interrupt and that fail as they will. */
  datatype Event = Other(action: Action) | Reconcile(turns: seq<Turn>)

  const START := World(Store(0, map[]), 0, [])

  function Run(events: seq<Event>): World {
    if events == [] then START
    else
      var before := Run(events[..|events| - 1]);
      match events[|events| - 1]
      case Other(action) => Step(before, action)
      case Reconcile(turns) => Reconciling(before, turns).world
  }

  /** In every run, what the master shows as finished is how the provisioner finished the latest request, whose
      parameters the master still carries, and only the provisioner ever changed the resources of the replica. */
  lemma {:induction false} NoStaleResult(events: seq<Event>)
    ensures var w := Run(events);
      && Inv(w)
      && (At(w, Master).Some? ==>
            var m := At(w, Master).value.value;
            && m.spec == w.requests
            && (IsTerminal(m.status.state) ==>
                  if At(w, Sister).None? then m.status.state == Succeeded && Operation(m) == Delete
                  else m.status == At(w, Sister).value.value.status && m.status.answers == w.requests))
      && (At(w, Sister).Some? ==> At(w, Sister).value.value.status.resources == w.recorded)
  {
    if events != [] {
      var before := Run(events[..|events| - 1]);
      NoStaleResult(events[..|events| - 1]);
      match events[|events| - 1]
      case Other(action) => StepKeeps(before, action);
      case Reconcile(turns) => ReconcilingKeeps(before, turns);
    }
  }

  function Others(actions: seq<Action>): (events: seq<Event>)
    ensures |events| == |actions| && forall i | 0 <= i < |actions| :: events[i] == Other(actions[i])
  {
    seq(|actions|, i requires 0 <= i < |actions| => Other(actions[i]))
  }

  /** What the others do while a call is under way comes before it takes effect. */
  lemma OthersComeFirst(events: seq<Event>, actions: seq<Action>, fault: Fault, finalizers: bool, turns: seq<Turn>)
    ensures Run(events + [Reconcile([Turn(actions, fault, finalizers)] + turns)])
         == Run(events + Others(actions) + [Reconcile([Turn([], fault, finalizers)] + turns)])
  {
    var before := events + Others(actions);
    assert (events + [Reconcile([Turn(actions, fault, finalizers)] + turns)])[..|events|] == events;
    assert (before + [Reconcile([Turn([], fault, finalizers)] + turns)])[..|before|] == before;
    OthersInOrder(events, actions);
    assert ([Turn(actions, fault, finalizers)] + turns)[1..] == turns == ([Turn([], fault, finalizers)] + turns)[1..];
  }

  lemma {:induction false} OthersInOrder(events: seq<Event>, actions: seq<Action>)
    ensures Run(events + Others(actions)) == Steps(Run(events), actions)
    decreases |actions|
  {
    var n := |actions| - 1;
    if actions == [] {
      assert events + Others([]) == events;
    } else {
      var all := events + Others(actions);
      assert all[..|all| - 1] == events + Others(actions[..n]);
      OthersInOrder(events, actions[..n]);
    }
  }

  // ---- The code ----

  class Replicator {
    var world: World
    var turns: seq<Turn>

    constructor (world: World)
      ensures this.world == world && turns == []
    {
      this.world, turns := world, [];
    }

    method Yield() returns (t: Turn)
      modifies this
      ensures Served(world, turns, t) == Yielding(old(world), old(turns))
    {
      t := QUIET;
      if turns != [] {
        t := turns[0];
        world, turns := Steps(world, t.others), turns[1..];
      }
    }

    method Get(c: Cluster) returns (r: Reply<Instance>)
      modifies this
      ensures Served(world, turns, r) == Fetching(old(world), old(turns), c)
    {
      var t := Yield();
      r := VersionedStore.Get(world.clusters, c, t.fault);
    }

    method Update(c: Cluster, i: Versioned<Instance>) returns (r: Reply<Instance>)
      modifies this
      ensures Served(world, turns, r) == Updating(old(world), old(turns), c, i)
    {
      var t := Yield();
      var w := Patch(world.clusters, c, Some(i.version), (_: Instance) => i.value, t.fault);
      world, r := world.(clusters := w.store), w.reply;
    }

    method CreateSister(i: Instance) returns (r: Reply<Instance>)
      modifies this
      ensures Served(world, turns, r) == Creating(old(world), old(turns), i)
    {
      var t := Yield();
      var w := Create(world.clusters, Sister, i, t.fault);
      world, r := world.(clusters := w.store), w.reply;
    }

    method DeleteSister() returns (error: Option<Error>)
      modifies this
      ensures Served(world, turns, error) == Deleting(old(world), old(turns))
    {
      var t := Yield();
      if t.fault.Dropped? { return Some(Unavailable); }
      if Sister !in world.clusters.objects { return if t.fault.NoFault? then Some(NotFound) else Some(Unavailable); }
      world := if t.finalizers then Marked(world) else Drop(world, Sister).(recorded := []);
      error := if t.fault.NoFault? then None else Some(Unavailable);
    }

    /** Hands the request over to the sister cluster. */
    method Push(instance: Instance, state: State) returns (ok: bool)
      modifies this
      ensures Served(world, turns, ok) == Pushing(old(world), old(turns), instance, state)
    {
      if instance.deleting && state == Delete {
        var error := DeleteSister();
        if error.Some? && error != Some(NotFound) { return false; }
      }
      var fetched := Get(Sister);
      if fetched.Err? {
        if fetched.error == NotFound && state != Delete {
          var reply := CreateSister(Replicate(instance, BLANK, true));
          return reply.Ok?;
        } else if fetched.error != NotFound {
          return false;
        }
      } else {
        var replica := Replicate(instance, fetched.item.value, true);
        var reply := Update(Sister, fetched.item.(value := replica));
        return reply.Ok?;
      }
      return true;
    }

    /** Marks the request as handed over; retried on conflicts. */
    method SetInProgress(state: State) returns (instance: Option<Versioned<Instance>>)
      modifies this
      ensures Served(world, turns, instance) == Settling(old(world), old(turns), state, RETRY_STEPS)
    {
      for attempt := 0 to RETRY_STEPS
        invariant Settling(world, turns, state, RETRY_STEPS - attempt) == Settling(old(world), old(turns), state, RETRY_STEPS)
      {
        var fetched := Get(Master);
        if fetched.Err? { return None; }
        var current := fetched.item;
        if current.value.status.state != state { return Some(current); }
        var reply := Update(Master, current.(value := InProgressFor(current.value, state)));
        if reply.Ok? { return Some(reply.item); }
        if reply.error != Conflict { return None; }
      }
      return None;
    }

    /** Brings the result, or the progress, of the sister cluster back. */
    method Collect(instance: Versioned<Instance>) returns (ok: bool)
      modifies this
      ensures Served(world, turns, ok) == Collecting(old(world), old(turns), instance)
    {
      if !instance.value.status.state.InProgress? { return true; }
      var updated := instance.value;
      var fetched := Get(Sister);
      if fetched.Err? {
        if fetched.error == NotFound && Operation(instance.value) == Delete {
          updated := updated.(status := updated.status.(state := Succeeded));
        } else {
          return false;
        }
      } else {
        if IsRequest(fetched.item.value.status.state) { return true; }
        updated := Replicate(fetched.item.value, updated, false);
      }
      var reply := Update(Master, instance.(value := updated));
      return reply.Ok?;
    }

    method Reconcile() returns (ok: bool)
      modifies this
      ensures Served(world, turns, ok) == Reconciling(old(world), old(turns))
    {
      var fetched := Get(Master);
      if fetched.Err? { return fetched.error == NotFound; }
      var instance := fetched.item;
      var state := instance.value.status.state;
      if IsRequest(state) {
        ok := Push(instance.value, state);
        if !ok { return; }
        var updated := SetInProgress(state);
        if updated.None? { return false; }
        instance := updated.value;
      }
      ok := Collect(instance);
    }
  }
}
