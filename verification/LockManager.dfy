/** The deployment lock: a lease with a time to live, taken by compare-and-swap on one API object per
    resource, and released under the version at which it was taken. */
module LockManager {
  import opened VersionedStore
  import opened Wrappers

  /** `spec.options` of a lock object, as far as locking reads it. */
  datatype LockOptions = LockOptions(operation: string, lockTime: int)

  datatype LockState = Locked | Unlocked

  datatype Lock = Lock(options: LockOptions, state: LockState)

  type Locks = Store<string, Lock>

  /** Configured times to live, in seconds. */
  type Config = map<string, int>

  const LIFECYCLE := ["create", "update", "delete"]
  const DEFAULT_LOCK_TTL := 86400
  const MS_IN_SEC := 1000

  function LockTTL(config: Config, operation: string): int {
    var key := if operation in LIFECYCLE then "lifecycle" else operation;
    (if key in config then config[key] else DEFAULT_LOCK_TTL) * MS_IN_SEC
  }

  predicate Expired(config: Config, options: LockOptions, time: int) {
    time - options.lockTime >= LockTTL(config, options.operation)
  }

  /** A lock that is present may be taken over. */
  predicate MayTake(config: Config, lock: Lock, currentTime: int) {
    lock.state == Unlocked || Expired(config, lock.options, currentTime)
  }

  // ---- One call of `lock`, between two requests to the API server ----

  datatype Phase =
    | Reading
    | Updating(seen: Versioned<Lock>)
    | Creating
    | Reporting
    | Granted(lockId: nat)
    | AlreadyLocked(holder: LockOptions)
    | Broken

  datatype Call = Call(resourceId: string, opts: LockOptions, currentTime: int, phase: Phase)

  function Begin(resourceId: string, operation: string, lockTime: Option<int>, now: int): Call {
    Call(resourceId, LockOptions(operation, if lockTime.Some? then lockTime.value else now), now, Reading)
  }

  /** An accepted write, as the history of a resource records it. */
  datatype Entry =
    | Grant(version: nat, sampled: int, options: LockOptions)
    | Release(version: nat, lockId: Option<nat>)

  datatype Outcome = Outcome(call: Call, locks: Locks)

  function AfterRead(config: Config, call: Call, reply: Reply<Lock>): Phase {
    match reply
    case Ok(resource) =>
      if MayTake(config, resource.value, call.currentTime) then Updating(resource) else AlreadyLocked(resource.value.options)
    case Err(NotFound) => Creating
    case Err(Conflict) => Reporting
    case Err(Unavailable) => Broken
  }

  function AfterUpdate(reply: Reply<Lock>): Phase {
    match reply
    case Ok(resource) => Granted(resource.version)
    case Err(NotFound) => Creating
    case Err(Conflict) => Reporting
    case Err(Unavailable) => Broken
  }

  function AfterCreate(reply: Reply<Lock>): Phase {
    match reply
    case Ok(resource) => Granted(resource.version)
    case Err(Conflict) => Reporting
    case Err(_) => Broken
  }

  function AfterReport(reply: Reply<Lock>): Phase {
    match reply
    case Ok(resource) => AlreadyLocked(resource.value.options)
    case Err(_) => Broken
  }

  /** The next request of a call and what the call makes of the answer. */
  function CallStep(config: Config, call: Call, locks: Locks, fault: Fault): Outcome {
    var r := call.resourceId;
    match call.phase
    case Reading => Outcome(call.(phase := AfterRead(config, call, Get(locks, r, fault))), locks)
    case Updating(seen) =>
      var w := Patch(locks, r, Some(seen.version), (l: Lock) => Lock(call.opts, Locked), fault);
      Outcome(call.(phase := AfterUpdate(w.reply)), w.store)
    case Creating =>
      var w := Create(locks, r, Lock(call.opts, Locked), fault);
      Outcome(call.(phase := AfterCreate(w.reply)), w.store)
    case Reporting => Outcome(call.(phase := AfterReport(Get(locks, r, fault))), locks)
    case _ => Outcome(call, locks)
  }

  function UnlockAttempt(locks: Locks, resourceId: string, lockId: Option<nat>, fault: Fault): Written<string, Lock> {
    Patch(locks, resourceId, lockId, (l: Lock) => l.(state := Unlocked), fault)
  }

  // ---- What a call comes to ----

  /** The call makes this many requests; they are served, and nobody else writes in between. */
  function Carried(config: Config, o: Outcome, requests: nat): Outcome
    decreases requests
  {
    if requests == 0 then o else Carried(config, CallStep(config, o.call, o.locks, NoFault), requests - 1)
  }

  lemma CarriedOnce(config: Config, o: Outcome, requests: nat)
    requires requests > 0
    ensures Carried(config, o, requests) == Carried(config, CallStep(config, o.call, o.locks, NoFault), requests - 1)
  {
  }

  lemma {:induction false} CarriedToEnd(config: Config, o: Outcome, requests: nat)
    requires o.call.phase.Granted? || o.call.phase.AlreadyLocked? || o.call.phase.Broken?
    ensures Carried(config, o, requests) == o
    decreases requests
  {
    if requests > 0 { CarriedToEnd(config, o, requests - 1); }
  }

  /** Left alone, a call is granted the lock exactly if there is none, if it was unlocked, or if its time to live is
      over: the configured seconds of its operation, where create, update and delete share one entry, or else a
      day. The grant is the next revision of the store. Otherwise the call reports who holds the lock. */
  lemma LockAnswers(config: Config, locks: Locks, r: string, operation: string, lockTime: Option<int>, now: int, requests: nat)
    requires requests >= 3
    ensures var opts := LockOptions(operation, if lockTime.None? then now else lockTime.value);
      var o := Carried(config, Outcome(Begin(r, operation, lockTime, now), locks), requests);
      var held := if r in locks.objects then Some(locks.objects[r].value) else None;
      var of := if held.None? then "" else held.value.options.operation;
      var key := if of == "create" || of == "update" || of == "delete" then "lifecycle" else of;
      var ttl := 1000 * if key in config then config[key] else 24 * 60 * 60;
      if held.None? || held.value.state == Unlocked || now >= held.value.options.lockTime + ttl
      then
        && o.call.phase == Granted(locks.revision + 1)
        && o.locks == Store(locks.revision + 1, locks.objects[r := Versioned(locks.revision + 1, Lock(opts, Locked))])
      else o.call.phase == AlreadyLocked(held.value.options) && o.locks == locks
  {
    var first := Outcome(Begin(r, operation, lockTime, now), locks);
    var second := CallStep(config, first.call, first.locks, NoFault);
    var third := CallStep(config, second.call, second.locks, NoFault);
    CarriedOnce(config, first, requests);
    if second.call.phase.AlreadyLocked? {
      CarriedToEnd(config, second, requests - 1);
    } else {
      CarriedOnce(config, second, requests - 1);
      CarriedToEnd(config, third, requests - 2);
    }
  }

  /** A call that lost a race, its lock taken or created by another one since it read, reports the holder. */
  lemma LostRaceReports(config: Config, call: Call, locks: Locks, requests: nat)
    requires requests >= 2 && call.resourceId in locks.objects
    requires call.phase.Creating? || (call.phase.Updating? && call.phase.seen.version != locks.objects[call.resourceId].version)
    ensures var o := Carried(config, Outcome(call, locks), requests);
      o.call.phase == AlreadyLocked(locks.objects[call.resourceId].value.options) && o.locks == locks
  {
    var first := Outcome(call, locks);
    var second := CallStep(config, first.call, first.locks, NoFault);
    CarriedOnce(config, first, requests);
    CarriedOnce(config, second, requests - 1);
    CarriedToEnd(config, CallStep(config, second.call, second.locks, NoFault), requests - 2);
  }

  /** Left alone, an unlock releases the lock if there is one, and if it is still that of the given lock id; it never
      changes whose lock it was. */
  lemma UnlockAnswers(locks: Locks, r: string, lockId: Option<nat>)
    ensures var after := UnlockAttempt(locks, r, lockId, NoFault).store;
      if r in locks.objects && (lockId.None? || lockId.value == locks.objects[r].version)
      then after == Store(locks.revision + 1, locks.objects[r :=
                      Versioned(locks.revision + 1, Lock(locks.objects[r].value.options, Unlocked))])
      else after == locks
  {
  }

  // ---- The code ----

  class ApiServer {
    var locks: Locks

    method GetResource(resourceId: string, fault: Fault) returns (reply: Reply<Lock>)
      ensures reply == Get(locks, resourceId, fault)
    {
      reply := Get(locks, resourceId, fault);
    }

    method CreateResource(resourceId: string, options: LockOptions, state: LockState, fault: Fault) returns (reply: Reply<Lock>)
      modifies this
      ensures Written(locks, reply) == Create(old(locks), resourceId, Lock(options, state), fault)
    {
      var w := Create(locks, resourceId, Lock(options, state), fault);
      locks, reply := w.store, w.reply;
    }

    method UpdateResource(resourceId: string, metadata: Option<nat>, options: Option<LockOptions>, state: LockState, fault: Fault)
      returns (reply: Reply<Lock>)
      modifies this
      ensures Written(locks, reply) == Patch(old(locks), resourceId, metadata,
                (l: Lock) => Lock(if options.Some? then options.value else l.options, state), fault)
    {
      var w := Patch(locks, resourceId, metadata,
                     (l: Lock) => Lock(if options.Some? then options.value else l.options, state), fault);
      locks, reply := w.store, w.reply;
    }
  }

  /** One call of `lock`. Its methods are the continuations of its requests; requests of other calls are
      served between them. */
  class LockRequest {
    const config: Config
    const resourceId: string
    const opts: LockOptions
    const currentTime: int
    var phase: Phase

    constructor (config: Config, resourceId: string, operation: string, lockTime: Option<int>, now: int)
      ensures this.config == config && State() == Begin(resourceId, operation, lockTime, now)
    {
      this.config, this.resourceId, currentTime := config, resourceId, now;
      opts := LockOptions(operation, if lockTime.Some? then lockTime.value else now);
      phase := Reading;
    }

    ghost function State(): Call
      reads this
    {
      Call(resourceId, opts, currentTime, phase)
    }

    method Proceed(api: ApiServer, fault: Fault)
      modifies this, api
      ensures Outcome(State(), api.locks) == CallStep(config, old(State()), old(api.locks), fault)
    {
      match phase
      case Reading =>
        var reply := api.GetResource(resourceId, fault);
        if reply.Ok? {
          var current := reply.item.value;
          if current.state != Unlocked && currentTime - current.options.lockTime < LockTTL(config, current.options.operation) {
            phase := AlreadyLocked(current.options);
          } else {
            phase := Updating(reply.item);
          }
        } else {
          phase := if reply.error == NotFound then Creating else if reply.error == Conflict then Reporting else Broken;
        }
      case Updating(resource) =>
        var reply := api.UpdateResource(resourceId, Some(resource.version), Some(opts), Locked, fault);
        phase := if reply.Ok? then Granted(reply.item.version)
                 else if reply.error == NotFound then Creating
                 else if reply.error == Conflict then Reporting
                 else Broken;
      case Creating =>
        var reply := api.CreateResource(resourceId, opts, Locked, fault);
        phase := if reply.Ok? then Granted(reply.item.version)
                 else if reply.error == Conflict then Reporting
                 else Broken;
      case Reporting =>
        var reply := api.GetResource(resourceId, fault);
        phase := if reply.Ok? then AlreadyLocked(reply.item.value.options) else Broken;
      case _ =>
    }
  }

  /** One attempt to unlock: a lock that was since taken by somebody else is not an error. */
  method TryUnlock(api: ApiServer, resourceId: string, lockId: Option<nat>, fault: Fault) returns (ok: bool)
    modifies api
    ensures api.locks == UnlockAttempt(old(api.locks), resourceId, lockId, fault).store
    ensures ok <==> UnlockAttempt(old(api.locks), resourceId, lockId, fault).reply != Err(Unavailable)
  {
    var reply := api.UpdateResource(resourceId, lockId, None, Unlocked, fault);
    ok := reply.Ok? || reply.error == Conflict || reply.error == NotFound;
  }
  datatype Unlocking = Unlocking(locks: Locks, ok: bool)

  /** These attempts to unlock, each made only if the ones before got no answer. */
  function UnlockAttempts(locks: Locks, resourceId: string, lockId: Option<nat>, faults: seq<Fault>): Unlocking
    decreases |faults|
  {
    if faults == [] then Unlocking(locks, false)
    else
      var attempt := UnlockAttempt(locks, resourceId, lockId, faults[0]);
      if attempt.reply != Err(Unavailable) then Unlocking(attempt.store, true)
      else UnlockAttempts(attempt.store, resourceId, lockId, faults[1..])
  }

  /** Retrying a fenced unlock is safe: however the attempts fail, together they do what one attempt does, or
      nothing; and they do not report success unless that is done. */
  lemma {:induction false} RetriedUnlockIsOne(locks: Locks, resourceId: string, lockId: nat, faults: seq<Fault>)
    requires WellVersioned(locks)
    ensures var once := UnlockAttempt(locks, resourceId, Some(lockId), NoFault).store;
      var after := UnlockAttempts(locks, resourceId, Some(lockId), faults);
      if after.ok then after.locks == once else after.locks in {locks, once}
    decreases |faults|
  {
    if faults != [] {
      var attempt := UnlockAttempt(locks, resourceId, Some(lockId), faults[0]);
      if attempt.store == locks {
        RetriedUnlockIsOne(locks, resourceId, lockId, faults[1..]);
      } else {
        StaleUnlocksDoNothing(attempt.store, resourceId, lockId, faults[1..]);
      }
    }
  }

  lemma {:induction false} StaleUnlocksDoNothing(locks: Locks, resourceId: string, lockId: nat, faults: seq<Fault>)
    requires resourceId in locks.objects && locks.objects[resourceId].version != lockId
    ensures UnlockAttempts(locks, resourceId, Some(lockId), faults).locks == locks
    decreases |faults|
  {
    if faults != [] {
      StaleUnlocksDoNothing(locks, resourceId, lockId, faults[1..]);
    }
  }

  /** Unlocks a resource; attempts are repeated as long as they get no answer. */
  method Unlock(api: ApiServer, resourceId: string, lockId: Option<nat>, faults: seq<Fault>) returns (ok: bool)
    modifies api
    ensures Unlocking(api.locks, ok) == UnlockAttempts(old(api.locks), resourceId, lockId, faults)
    decreases |faults|
  {
    if faults == [] {
      return false;
    }
    ok := TryUnlock(api, resourceId, lockId, faults[0]);
    if !ok {
      ok := Unlock(api, resourceId, lockId, faults[1..]);
    }
  }
}
