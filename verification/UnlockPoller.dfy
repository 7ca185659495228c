/** The process that releases a lock when the operation it was taken for has ended: one timer per lock,
    started by the watch events of the lock objects. */
module UnlockPoller {
  import opened VersionedStore
  import opened Wrappers
  import opened LockManager

  /** The lock object as a watch event showed it. */
  datatype Watched = Watched(name: string, version: nat)

  /** The running timers, what each of them watches, and the timer kept for each lock. */
  datatype Timers = Timers(intervals: map<nat, Watched>, pollers: map<string, nat>)

  datatype EventType = Added | Modified | Deleted

  /** What the API server says of the resource that was locked. */
  datatype ResourceState = Ended | Ongoing | Gone | Unknown

  /** Every kept timer runs and watches the lock it is kept for. */
  ghost predicate Consistent(t: Timers) {
    forall n | n in t.pollers :: t.pollers[n] in t.intervals && t.intervals[t.pollers[n]].name == n
  }

  /** Every running timer is kept, so that the next event of its lock can stop it. */
  ghost predicate AllKept(t: Timers) {
    forall id | id in t.intervals ::
      t.intervals[id].name in t.pollers && t.pollers[t.intervals[id].name] == id
  }

  function Cleared(t: Timers, name: string, id: Option<nat>): Timers {
    Timers(if id.Some? then t.intervals - {id.value} else t.intervals, t.pollers - {name})
  }

  /** A new timer for the lock; the one kept for it so far is stopped. */
  function Restarted(t: Timers, id: nat, watched: Watched): Timers {
    var stopped := Cleared(t, watched.name, if watched.name in t.pollers then Some(t.pollers[watched.name]) else None);
    Timers(stopped.intervals[id := watched], stopped.pollers[watched.name := id])
  }

  lemma RestartKeeps(t: Timers, id: nat, watched: Watched)
    requires Consistent(t) && id !in t.intervals
    ensures Consistent(Restarted(t, id, watched))
    ensures AllKept(t) ==> AllKept(Restarted(t, id, watched))
    // the new timer watches the lock as the event showed it, and is the one kept for it; the one kept before is stopped
    ensures var t' := Restarted(t, id, watched);
      && id in t'.intervals && t'.intervals[id] == watched && watched.name in t'.pollers && t'.pollers[watched.name] == id
      && (forall other | other != id :: other in t'.intervals <==>
            other in t.intervals && !(watched.name in t.pollers && t.pollers[watched.name] == other))
      && (forall other | other != id && other in t'.intervals :: t'.intervals[other] == t.intervals[other])
      && (forall n | n != watched.name :: n in t'.pollers <==> n in t.pollers)
      && (forall n | n != watched.name && n in t.pollers :: t'.pollers[n] == t.pollers[n])
  {
  }

  /** A timer that is cleared no longer runs, and none is kept for its lock; nothing else changes. */
  lemma ClearedExactly(t: Timers, name: string, id: Option<nat>)
    ensures var t' := Cleared(t, name, id);
      && (forall other :: other in t'.intervals <==> other in t.intervals && id != Some(other))
      && (forall other | other in t'.intervals :: t'.intervals[other] == t.intervals[other])
      && (forall n :: n in t'.pollers <==> n in t.pollers && n != name)
      && (forall n | n in t'.pollers :: t'.pollers[n] == t.pollers[n])
  {
  }

  /** The timer belongs to another lock, and is the one kept for it. */
  ghost predicate KeptElsewhere(t: Timers, id: nat, name: string) {
    && id in t.intervals && t.intervals[id].name != name
    && t.intervals[id].name in t.pollers && t.pollers[t.intervals[id].name] == id
  }

  /** A timer whose work is done is stopped. Whatever was tracked before, all running timers are tracked afterwards
      exactly if every other one belongs to another lock and is the one kept for it. */
  lemma ClearingLeavesAllKept(t: Timers, name: string, id: nat)
    requires Consistent(t) && (id in t.intervals ==> t.intervals[id].name == name)
    ensures Consistent(Cleared(t, name, Some(id)))
    ensures AllKept(Cleared(t, name, Some(id))) <==> forall other | other in t.intervals && other != id :: KeptElsewhere(t, other, name)
  {
    var t' := Cleared(t, name, Some(id));
    forall other | other in t.intervals && other != id
      ensures other in t'.intervals
      ensures KeptElsewhere(t, other, name) <==> t'.intervals[other].name in t'.pollers && t'.pollers[t'.intervals[other].name] == other
    {
    }
  }

  /** Where all were tracked, that loses track of another timer exactly if one is kept for the same lock: the
      answer came after an event had replaced the timer. */
  lemma ClearingKeepsTrack(t: Timers, name: string, id: nat)
    requires Consistent(t) && AllKept(t) && (id in t.intervals ==> t.intervals[id].name == name)
    ensures Consistent(Cleared(t, name, Some(id)))
    ensures AllKept(Cleared(t, name, Some(id))) <==> (name in t.pollers ==> t.pollers[name] == id)
  {
    ClearingLeavesAllKept(t, name, id);
    if name in t.pollers && t.pollers[name] != id {
      assert t.pollers[name] in t.intervals && !KeptElsewhere(t, t.pollers[name], name);
    }
  }

  /** Two events and a late answer to the first timer: the second runs on and no event will stop it. */
  lemma LateAnswerLosesTimer(first: nat, second: nat, name: string, v: nat, w: nat)
    requires first != second
    ensures var t := Restarted(Restarted(Timers(map[], map[]), first, Watched(name, v)), second, Watched(name, w));
      var t' := Cleared(t, name, Some(first));
      AllKept(t) && second in t'.intervals && name !in t'.pollers && !AllKept(t')
  {
  }

  class UnlockResourcePoller {
    const config: Config
    var intervals: map<nat, Watched>
    var pollers: map<string, nat>

    ghost function State(): Timers
      reads this
    {
      Timers(intervals, pollers)
    }

    constructor (config: Config)
      ensures this.config == config && Consistent(State()) && AllKept(State()) && intervals == map[]
    {
      this.config, intervals, pollers := config, map[], map[];
    }

    method ClearPoller(name: string, id: Option<nat>)
      modifies this
      ensures State() == Cleared(old(State()), name, id)
    {
      if id.Some? {
        intervals := intervals - {id.value};
      }
      pollers := pollers - {name};
    }

    /** A watch event of a lock object; `id` is the handle that a new timer would get. */
    method StartPoller(event: EventType, watched: Watched, options: LockOptions, now: int, id: nat)
      requires Consistent(State()) && id !in intervals
      modifies this
      ensures Consistent(State()) && (old(AllKept(State())) ==> AllKept(State()))
      ensures event == Deleted ==> State() == old(State())
      // a timer is started only while the lock has time to live
      ensures event != Deleted && !Expired(config, options, now) ==> State() == Restarted(old(State()), id, watched)
      ensures event != Deleted && Expired(config, options, now) ==>
        && watched.name !in pollers && pollers == old(pollers) - {watched.name}
        && intervals == old(intervals) - (if watched.name in old(pollers) then {old(pollers)[watched.name]} else {})
    {
      RestartKeeps(State(), id, watched);
      if event == Added || event == Modified {
        ClearPoller(watched.name, if watched.name in pollers then Some(pollers[watched.name]) else None);
        if now - options.lockTime < LockTTL(config, options.operation) {
          intervals := intervals[id := watched];
          pollers := pollers[watched.name := id];
        }
      }
    }

    /** One tick of a timer, up to its answer: the lock is released, under the version of the event, once the
        resource is in a final state or gone, and then the timer is stopped. */
    method Poll(id: nat, watched: Watched, state: ResourceState, api: ApiServer, faults: seq<Fault>)
      requires Consistent(State()) && (id in intervals ==> intervals[id] == watched)
      modifies this, api
      ensures Consistent(State())
      ensures old(AllKept(State())) && (watched.name in old(pollers) ==> old(pollers)[watched.name] == id) ==> AllKept(State())
      ensures var unlocking := UnlockAttempts(old(api.locks), watched.name, Some(watched.version), faults);
        if state == Ongoing || state == Unknown then api.locks == old(api.locks) && State() == old(State())
        else
          && api.locks == unlocking.locks
          && State() == if unlocking.ok then Cleared(old(State()), watched.name, Some(id)) else old(State())
    {
      if state == Ended || state == Gone {
        var ok := Unlock(api, watched.name, Some(watched.version), faults);
        if ok {
          ghost var t := State();
          if AllKept(t) {
            ClearingKeepsTrack(t, watched.name, id);
          }
          ClearPoller(watched.name, Some(id));
        }
      }
    }
  }
}
