/** Whole runs of the deployment lock: any number of `lock` calls, unlocks and unlock pollers, interleaved
    at every request. */
module LockRuns {
  import opened VersionedStore
  import opened Wrappers
  import opened LockManager

  /** `seen` holds what the unlock pollers were told by watch events: a resource and the version at which
      it was seen locked. */
  datatype World = World(
    now: int,
    locks: Locks,
    calls: map<nat, Call>,
    seen: set<(string, nat)>,
    log: map<string, seq<Entry>>)

  datatype Action =
    | Tick(duration: nat)
    | Start(call: nat, resourceId: string, operation: string, lockTime: Option<int>)
    | Proceed(call: nat, fault: Fault)
    | Unlock(resourceId: string, lockId: Option<nat>, fault: Fault)
    | Observe(resourceId: string)
    | PollerUnlock(resourceId: string, version: nat, fault: Fault)

  const EMPTY := World(0, Store(0, map[]), map[], {}, map[])

  function History(w: World, r: string): seq<Entry> {
    if r in w.log then w.log[r] else []
  }

  /** The world after a request on `r`; an accepted write is recorded. */
  function Wrote(w: World, r: string, locks: Locks, entry: Entry): World {
    if locks.revision == w.locks.revision then w else w.(locks := locks, log := w.log[r := History(w, r) + [entry]])
  }

  function AfterUnlock(w: World, r: string, lockId: Option<nat>, fault: Fault): World {
    Wrote(w, r, UnlockAttempt(w.locks, r, lockId, fault).store, Release(w.locks.revision + 1, lockId))
  }

  function Step(config: Config, w: World, a: Action): World {
    match a
    case Tick(duration) => w.(now := w.now + duration)
    case Start(c, r, operation, lockTime) =>
      if c in w.calls then w else w.(calls := w.calls[c := Begin(r, operation, lockTime, w.now)])
    case Proceed(c, fault) =>
      if c !in w.calls then w
      else
        var call := w.calls[c];
        var o := CallStep(config, call, w.locks, fault);
        Wrote(w, call.resourceId, o.locks, Grant(w.locks.revision + 1, call.currentTime, call.opts))
          .(calls := w.calls[c := o.call])
    case Unlock(r, lockId, fault) => AfterUnlock(w, r, lockId, fault)
    case Observe(r) =>
      if r in w.locks.objects && w.locks.objects[r].value.state != LockManager.Unlocked
      then w.(seen := w.seen + {(r, w.locks.objects[r].version)}) else w
    case PollerUnlock(r, version, fault) =>
      if (r, version) in w.seen then AfterUnlock(w, r, Some(version), fault) else w
  }

  function Run(config: Config, w: World, actions: seq<Action>): World {
    if actions == [] then w
    else Step(config, Run(config, w, actions[..|actions| - 1]), actions[|actions| - 1])
  }

  // ---- The invariant ----

  /** The history of one resource: versions grow, the object shows the last entry, a grant right after a
      grant found it expired, and a fenced release follows the entry it names. */
  ghost predicate Sound(config: Config, now: int, revision: nat, item: Option<Versioned<Lock>>, log: seq<Entry>) {
    && (forall i, j | 0 <= i < j < |log| :: log[i].version < log[j].version)
    && (forall i | 0 <= i < |log| :: log[i].version <= revision && (log[i].Grant? ==> log[i].sampled <= now))
    && (item.None? <==> log == [])
    && (item.Some? ==> Shows(item.value, log[|log| - 1]))
    && (forall i | 0 <= i < |log| - 1 :: FollowsWell(config, log[i], log[i + 1]))
    && (log != [] ==> log[0].Grant?)
  }

  ghost predicate Shows(item: Versioned<Lock>, entry: Entry) {
    && item.version == entry.version
    && (item.value.state == LockManager.Unlocked <==> entry.Release?)
    && (entry.Grant? ==> item.value.options == entry.options)
  }

  ghost predicate FollowsWell(config: Config, first: Entry, second: Entry) {
    && (first.Grant? && second.Grant? ==> Expired(config, first.options, second.sampled))
    && (second.Release? && second.lockId.Some? ==> second.lockId.value == first.version)
  }

  /** A call that is about to write holds what it read; if the version is still current, so is the rest. */
  ghost predicate CallOk(config: Config, w: World, call: Call) {
    && call.currentTime <= w.now
    && (call.phase.Updating? ==>
          && call.phase.seen.version <= w.locks.revision
          && MayTake(config, call.phase.seen.value, call.currentTime)
          && Current(w, call.resourceId, call.phase.seen))
  }

  ghost predicate Current(w: World, r: string, seen: Versioned<Lock>) {
    r in w.locks.objects && w.locks.objects[r].version == seen.version ==> w.locks.objects[r] == seen
  }

  ghost predicate SeenOk(w: World, r: string, version: nat) {
    && version <= w.locks.revision
    && (r in w.locks.objects && w.locks.objects[r].version == version ==>
          w.locks.objects[r].value.state != LockManager.Unlocked)
  }

  ghost predicate Inv(config: Config, w: World) {
    && WellVersioned(w.locks)
    && (forall r :: SoundAt(config, w, r))
    && (forall c | c in w.calls :: CallOk(config, w, w.calls[c]))
    && (forall r, v | (r, v) in w.seen :: SeenOk(w, r, v))
  }

  ghost predicate SoundAt(config: Config, w: World, r: string) {
    Sound(config, w.now, w.locks.revision, Lookup(w.locks, r), History(w, r))
  }

  lemma AppendSound(config: Config, now: int, revision: nat, item: Option<Versioned<Lock>>, log: seq<Entry>,
                    lock: Lock, entry: Entry)
    requires Sound(config, now, revision, item, log) && entry.version == revision + 1
    requires entry.Grant? ==> entry.sampled <= now
    requires Shows(Versioned(revision + 1, lock), entry)
    requires log == [] ==> entry.Grant?
    requires log != [] ==> FollowsWell(config, log[|log| - 1], entry)
    ensures Sound(config, now, revision + 1, Some(Versioned(revision + 1, lock)), log + [entry])
  {
  }

  /** Whoever is about to write, or saw a lock, can tell that the resource was written. */
  lemma WriteKeepsCall(config: Config, w: World, r: string, lock: Lock, entry: Entry, call: Call)
    requires CallOk(config, w, call) && entry.version == w.locks.revision + 1
    ensures CallOk(config, Wrote(w, r, Accept(w.locks, r, lock, NoFault).store, entry), call)
  {
  }

  lemma WriteKeepsSeen(w: World, r: string, lock: Lock, entry: Entry, seen: string, version: nat)
    requires SeenOk(w, seen, version) && entry.version == w.locks.revision + 1
    ensures SeenOk(Wrote(w, r, Accept(w.locks, r, lock, NoFault).store, entry), seen, version)
  {
  }

  lemma WriteKeepsSound(config: Config, w: World, r: string, lock: Lock, entry: Entry, other: string)
    requires SoundAt(config, w, other) && entry.version == w.locks.revision + 1
    requires entry.Grant? ==> entry.sampled <= w.now
    requires Shows(Versioned(w.locks.revision + 1, lock), entry)
    requires History(w, r) == [] ==> entry.Grant?
    requires History(w, r) != [] ==> FollowsWell(config, History(w, r)[|History(w, r)| - 1], entry)
    ensures SoundAt(config, Wrote(w, r, Accept(w.locks, r, lock, NoFault).store, entry), other)
  {
    var w' := Wrote(w, r, Accept(w.locks, r, lock, NoFault).store, entry);
    if other == r {
      AppendSound(config, w.now, w.locks.revision, Lookup(w.locks, r), History(w, r), lock, entry);
    } else {
      assert Lookup(w'.locks, other) == Lookup(w.locks, other) && History(w', other) == History(w, other);
    }
  }

  /** An accepted write that follows well keeps the invariant, whoever else is waiting. */
  lemma WriteKeepsInv(config: Config, w: World, r: string, lock: Lock, entry: Entry)
    requires Inv(config, w) && entry.version == w.locks.revision + 1
    requires entry.Grant? ==> entry.sampled <= w.now
    requires Shows(Versioned(w.locks.revision + 1, lock), entry)
    requires History(w, r) == [] ==> entry.Grant?
    requires History(w, r) != [] ==> FollowsWell(config, History(w, r)[|History(w, r)| - 1], entry)
    ensures Inv(config, Wrote(w, r, Accept(w.locks, r, lock, NoFault).store, entry))
  {
    var w' := Wrote(w, r, Accept(w.locks, r, lock, NoFault).store, entry);
    forall other ensures SoundAt(config, w', other) {
      assert SoundAt(config, w, other);
      WriteKeepsSound(config, w, r, lock, entry, other);
    }
    forall c | c in w'.calls ensures CallOk(config, w', w'.calls[c]) {
      WriteKeepsCall(config, w, r, lock, entry, w.calls[c]);
    }
    forall r', v | (r', v) in w'.seen ensures SeenOk(w', r', v) {
      WriteKeepsSeen(w, r, lock, entry, r', v);
    }
  }

  lemma CallKeepsInv(config: Config, w: World, c: nat, call: Call)
    requires Inv(config, w) && CallOk(config, w, call)
    ensures Inv(config, w.(calls := w.calls[c := call]))
  {
    var w' := w.(calls := w.calls[c := call]);
    forall r ensures SoundAt(config, w', r) { assert SoundAt(config, w, r); }
    forall d | d in w'.calls ensures CallOk(config, w', w'.calls[d]) {
      if d != c { assert CallOk(config, w, w.calls[d]); }
    }
    forall r, v | (r, v) in w'.seen ensures SeenOk(w', r, v) { assert SeenOk(w, r, v); }
  }

  lemma UnlockKeepsInv(config: Config, w: World, r: string, lockId: Option<nat>, fault: Fault)
    requires Inv(config, w)
    ensures Inv(config, AfterUnlock(w, r, lockId, fault))
  {
    if UnlockAttempt(w.locks, r, lockId, fault).store.revision != w.locks.revision {
      assert SoundAt(config, w, r);
      WriteKeepsInv(config, w, r, w.locks.objects[r].value.(state := LockManager.Unlocked), Release(w.locks.revision + 1, lockId));
    }
  }

  /** The write of a call, if it makes one, is accepted only where the call may take the lock. */
  lemma CallWrites(config: Config, w: World, call: Call, fault: Fault) returns (w': World)
    requires Inv(config, w) && CallOk(config, w, call)
    ensures var o := CallStep(config, call, w.locks, fault);
      && w' == Wrote(w, call.resourceId, o.locks, Grant(w.locks.revision + 1, call.currentTime, call.opts))
      && w'.locks == o.locks && w'.now == w.now && w'.calls == w.calls
    ensures Inv(config, w')
  {
    var r := call.resourceId;
    var o := CallStep(config, call, w.locks, fault);
    var entry := Grant(w.locks.revision + 1, call.currentTime, call.opts);
    w' := Wrote(w, r, o.locks, entry);
    if o.locks.revision != w.locks.revision {
      assert SoundAt(config, w, r);
      WriteKeepsInv(config, w, r, Lock(call.opts, Locked), entry);
    }
  }

  /** Having made its step, a call waits to write only if it has just read what it would overwrite. */
  lemma CallStaysOk(config: Config, w: World, call: Call, fault: Fault)
    requires WellVersioned(w.locks) && CallOk(config, w, call)
    ensures var o := CallStep(config, call, w.locks, fault);
      && (o.call.phase.Updating? ==> o.locks == w.locks)
      && CallOk(config, w.(locks := o.locks), o.call)
  {
  }

  lemma ProceedKeepsInv(config: Config, w: World, c: nat, fault: Fault)
    requires Inv(config, w) && c in w.calls
    ensures Inv(config, Step(config, w, Proceed(c, fault)))
  {
    var call := w.calls[c];
    var w' := CallWrites(config, w, call, fault);
    var o := CallStep(config, call, w.locks, fault);
    assert CallOk(config, w', o.call) by { CallStaysOk(config, w, call, fault); }
    CallKeepsInv(config, w', c, o.call);
    assert Step(config, w, Proceed(c, fault)) == w'.(calls := w'.calls[c := o.call]);
  }

  lemma TickKeepsInv(config: Config, w: World, duration: nat)
    requires Inv(config, w)
    ensures Inv(config, w.(now := w.now + duration))
  {
    var w' := w.(now := w.now + duration);
    forall r ensures SoundAt(config, w', r) { assert SoundAt(config, w, r); }
    forall c | c in w'.calls ensures CallOk(config, w', w'.calls[c]) { assert CallOk(config, w, w.calls[c]); }
    forall r, v | (r, v) in w'.seen ensures SeenOk(w', r, v) { assert SeenOk(w, r, v); }
  }

  lemma ObserveKeepsInv(config: Config, w: World, r: string)
    requires Inv(config, w)
    ensures Inv(config, Step(config, w, Observe(r)))
  {
    var w' := Step(config, w, Observe(r));
    forall r' ensures SoundAt(config, w', r') { assert SoundAt(config, w, r'); }
    forall c | c in w'.calls ensures CallOk(config, w', w'.calls[c]) { assert CallOk(config, w, w.calls[c]); }
    forall r', v | (r', v) in w'.seen ensures SeenOk(w', r', v) {
      if (r', v) in w.seen { assert SeenOk(w, r', v); }
    }
  }

  lemma StepKeepsInv(config: Config, w: World, a: Action)
    requires Inv(config, w)
    ensures Inv(config, Step(config, w, a))
  {
    match a
    case Tick(duration) => TickKeepsInv(config, w, duration);
    case Start(c, r, operation, lockTime) => CallKeepsInv(config, w, c, Begin(r, operation, lockTime, w.now));
    case Proceed(c, fault) => if c in w.calls { ProceedKeepsInv(config, w, c, fault); }
    case Unlock(r, lockId, fault) => UnlockKeepsInv(config, w, r, lockId, fault);
    case Observe(r) => ObserveKeepsInv(config, w, r);
    case PollerUnlock(r, version, fault) => UnlockKeepsInv(config, w, r, Some(version), fault);
  }

  lemma {:induction false} RunKeepsInv(config: Config, actions: seq<Action>)
    ensures Inv(config, Run(config, EMPTY, actions))
  {
    if actions != [] {
      RunKeepsInv(config, actions[..|actions| - 1]);
      StepKeepsInv(config, Run(config, EMPTY, actions[..|actions| - 1]), actions[|actions| - 1]);
    }
  }

  // ---- What every run keeps ----

  /** Exclusion: of two grants on one resource with no other grant between them, either an accepted unlock
      lies between, or the later requester's sampled time was past the earlier lock's time to live. */
  lemma LockExclusion(config: Config, actions: seq<Action>, r: string, i: nat, j: nat)
    requires var log := History(Run(config, EMPTY, actions), r);
      i < j < |log| && log[i].Grant? && log[j].Grant? && forall k | i < k < j :: log[k].Release?
    ensures var log := History(Run(config, EMPTY, actions), r);
      (exists k :: i < k < j && log[k].Release?) || Expired(config, log[i].options, log[j].sampled)
  {
    RunKeepsInv(config, actions);
    var w := Run(config, EMPTY, actions);
    var log := History(w, r);
    assert SoundAt(config, w, r);
    if j > i + 1 {
      assert log[i + 1].Release?;
    } else {
      assert FollowsWell(config, log[i], log[i + 1]);
    }
  }

  /** A grant is live until it is released or its time to live is over. */
  ghost predicate Live(config: Config, log: seq<Entry>, i: nat, time: int) {
    && i < |log| && log[i].Grant?
    && !Expired(config, log[i].options, time)
    && forall k | i < k < |log| :: log[k].Grant?
  }

  /** At no moment of any run are two grants on one resource live. */
  lemma AtMostOneLive(config: Config, actions: seq<Action>, r: string, i: nat, j: nat)
    requires var w := Run(config, EMPTY, actions);
      Live(config, History(w, r), i, w.now) && Live(config, History(w, r), j, w.now)
    ensures i == j
  {
    RunKeepsInv(config, actions);
    var w := Run(config, EMPTY, actions);
    var log := History(w, r);
    assert SoundAt(config, w, r);
    var first := if i < j then i else j;
    assert first + 1 < |log| ==> FollowsWell(config, log[first], log[first + 1]);
  }

  /** Lock ids fence: those of successive grants grow. */
  lemma LockIdsIncrease(config: Config, actions: seq<Action>, r: string, i: nat, j: nat)
    requires i < j < |History(Run(config, EMPTY, actions), r)|
    ensures History(Run(config, EMPTY, actions), r)[i].version < History(Run(config, EMPTY, actions), r)[j].version
  {
    RunKeepsInv(config, actions);
    var w := Run(config, EMPTY, actions);
    assert SoundAt(config, w, r);
  }

  /** An unlock under the version of a history entry releases what that entry wrote if it is still the
      latest one, and otherwise changes nothing. */
  ghost predicate Fences(w: World, r: string, i: nat, fault: Fault, w': World)
    requires i < |History(w, r)| && r in w.locks.objects
  {
    if i == |History(w, r)| - 1 && !fault.Dropped?
    then
      && History(w', r) == History(w, r) + [Release(w.locks.revision + 1, Some(History(w, r)[i].version))]
      && r in w'.locks.objects
      && w'.locks.objects[r].value == w.locks.objects[r].value.(state := LockManager.Unlocked)
    else w' == w
  }

  lemma UnlockFences(config: Config, w: World, r: string, i: nat, fault: Fault)
    requires SoundAt(config, w, r) && i < |History(w, r)|
    ensures r in w.locks.objects
    ensures Fences(w, r, i, fault, AfterUnlock(w, r, Some(History(w, r)[i].version), fault))
  {
  }

  /** In every run, an unlock under the id of a grant releases that very grant or changes nothing. */
  lemma FencedUnlock(config: Config, actions: seq<Action>, r: string, i: nat, fault: Fault)
    requires i < |History(Run(config, EMPTY, actions), r)| && History(Run(config, EMPTY, actions), r)[i].Grant?
    ensures var w := Run(config, EMPTY, actions);
      && r in w.locks.objects
      && Fences(w, r, i, fault, Step(config, w, Unlock(r, Some(History(w, r)[i].version), fault)))
  {
    RunKeepsInv(config, actions);
    var w := Run(config, EMPTY, actions);
    assert SoundAt(config, w, r);
    UnlockFences(config, w, r, i, fault);
  }

  /** A poller's unlock, under the version its event showed, is the release of the grant that wrote that
      version, or changes nothing: in every run, whatever happened since the event. */
  lemma PollerReleasesWhatItSaw(config: Config, actions: seq<Action>, r: string, version: nat, fault: Fault)
    ensures var w := Run(config, EMPTY, actions);
      var w' := Step(config, w, PollerUnlock(r, version, fault));
      || w' == w
      || (var log := History(w, r);
          && |log| > 0 && log[|log| - 1].Grant? && log[|log| - 1].version == version
          && History(w', r) == log + [Release(w.locks.revision + 1, Some(version))])
  {
    RunKeepsInv(config, actions);
    PollerUnlockAt(config, Run(config, EMPTY, actions), r, version, fault);
  }

  lemma PollerUnlockAt(config: Config, w: World, r: string, version: nat, fault: Fault)
    requires Inv(config, w)
    ensures var w' := Step(config, w, PollerUnlock(r, version, fault));
      || w' == w
      || (var log := History(w, r);
          && |log| > 0 && log[|log| - 1].Grant? && log[|log| - 1].version == version
          && History(w', r) == log + [Release(w.locks.revision + 1, Some(version))])
  {
    var log := History(w, r);
    assert SoundAt(config, w, r);
    if (r, version) in w.seen {
      assert SeenOk(w, r, version);
      if log != [] && log[|log| - 1].version == version {
        UnlockFences(config, w, r, |log| - 1, fault);
      } else {
        assert UnlockAttempt(w.locks, r, Some(version), fault).store == w.locks;
      }
    }
  }

  /** A call that reports success was granted: its own grant is in the history, under the id it reports. */
  ghost predicate ReportsTruly(w: World, call: Call) {
    call.phase.Granted? ==> Grant(call.phase.lockId, call.currentTime, call.opts) in History(w, call.resourceId)
  }

  ghost predicate AllReportTruly(w: World) {
    forall c | c in w.calls :: ReportsTruly(w, w.calls[c])
  }

  lemma LogsGrow(config: Config, w: World, a: Action, r: string)
    ensures forall e | e in History(w, r) :: e in History(Step(config, w, a), r)
  {
  }

  lemma StepReportsTruly(config: Config, w: World, a: Action)
    requires AllReportTruly(w)
    ensures AllReportTruly(Step(config, w, a))
  {
    var w' := Step(config, w, a);
    forall c | c in w'.calls ensures ReportsTruly(w', w'.calls[c]) {
      var r := w'.calls[c].resourceId;
      LogsGrow(config, w, a, r);
      if c in w.calls && w'.calls[c] != w.calls[c] && w'.calls[c].phase.Granted? {
        assert History(w', r)[|History(w, r)|] == Grant(w.locks.revision + 1, w.calls[c].currentTime, w.calls[c].opts);
      }
    }
  }

  lemma {:induction false} GrantedMeansGranted(config: Config, actions: seq<Action>)
    ensures AllReportTruly(Run(config, EMPTY, actions))
  {
    if actions != [] {
      GrantedMeansGranted(config, actions[..|actions| - 1]);
      StepReportsTruly(config, Run(config, EMPTY, actions[..|actions| - 1]), actions[|actions| - 1]);
    }
  }

  /** A request of a call in a run is the step of the call; the grant it may bring is recorded. */
  lemma ProceedStep(config: Config, w: World, c: nat)
    requires c in w.calls
    ensures var w' := Step(config, w, Proceed(c, NoFault));
      var call := w.calls[c];
      var o := CallStep(config, call, w.locks, NoFault);
      && c in w'.calls && Outcome(w'.calls[c], w'.locks) == o && o.call.resourceId == call.resourceId
      && History(w', call.resourceId) == History(w, call.resourceId) + NewGrant(call, o, w.locks.revision + 1)
  {
  }

  function NewGrant(call: Call, o: Outcome, version: nat): seq<Entry> {
    if o.call.phase.Granted? && !call.phase.Granted? then [Grant(version, call.currentTime, call.opts)] else []
  }

  function Proceeded(config: Config, w: World, c: nat, requests: nat): World
    decreases requests
  {
    if requests == 0 then w else Proceeded(config, Step(config, w, Proceed(c, NoFault)), c, requests - 1)
  }

  /** So are several in a row, with nobody else in between. */
  lemma {:induction false} ProceedSteps(config: Config, w: World, c: nat, requests: nat)
    requires c in w.calls && !w.calls[c].phase.Granted?
    ensures var w' := Proceeded(config, w, c, requests);
      var call := w.calls[c];
      var o := Carried(config, Outcome(call, w.locks), requests);
      && c in w'.calls && Outcome(w'.calls[c], w'.locks) == o
      && History(w', call.resourceId) == History(w, call.resourceId) + NewGrant(call, o, w.locks.revision + 1)
    decreases requests
  {
    if requests > 0 {
      ProceedStep(config, w, c);
      var w1 := Step(config, w, Proceed(c, NoFault));
      if w1.calls[c].phase.Granted? {
        GrantedStays(config, w1, c, requests - 1);
        CarriedToEnd(config, Outcome(w1.calls[c], w1.locks), requests - 1);
      } else {
        UngrantedWritesNothing(config, w.calls[c], w.locks);
        ProceedSteps(config, w1, c, requests - 1);
      }
    }
  }

  lemma UngrantedWritesNothing(config: Config, call: Call, locks: Locks)
    requires !CallStep(config, call, locks, NoFault).call.phase.Granted?
    ensures var o := CallStep(config, call, locks, NoFault);
      o.locks == locks && o.call.currentTime == call.currentTime && o.call.opts == call.opts
  {
  }

  lemma {:induction false} GrantedStays(config: Config, w: World, c: nat, requests: nat)
    requires c in w.calls && w.calls[c].phase.Granted?
    ensures Proceeded(config, w, c, requests) == w
    decreases requests
  {
    if requests > 0 {
      assert w.calls[c := w.calls[c]] == w.calls;
      assert Step(config, w, Proceed(c, NoFault)) == w;
      GrantedStays(config, w, c, requests - 1);
    }
  }

  /** Locks are granted in runs: a new call that is not disturbed ends as it would alone, and its grant, if it gets
      one, is then at the end of the history. */
  lemma UndisturbedCall(config: Config, w: World, c: nat, r: string, operation: string, lockTime: Option<int>, requests: nat)
    requires c !in w.calls
    ensures var w' := Proceeded(config, Step(config, w, Start(c, r, operation, lockTime)), c, requests);
      var call := Begin(r, operation, lockTime, w.now);
      var o := Carried(config, Outcome(call, w.locks), requests);
      && c in w'.calls && Outcome(w'.calls[c], w'.locks) == o
      && History(w', r) == History(w, r) + if o.call.phase.Granted? then [Grant(w.locks.revision + 1, w.now, call.opts)] else []
  {
    ProceedSteps(config, Step(config, w, Start(c, r, operation, lockTime)), c, requests);
  }

  /** Waiting frees a lock: once its time to live is over, anybody is granted it. */
  lemma WaitedOut(config: Config, w: World, c: nat, r: string, operation: string, pause: nat, requests: nat)
    requires requests >= 3 && c !in w.calls && r in w.locks.objects
    requires var held := w.locks.objects[r].value.options;
      var key := if held.operation == "create" || held.operation == "update" || held.operation == "delete"
                 then "lifecycle" else held.operation;
      w.now + pause >= held.lockTime + 1000 * if key in config then config[key] else 24 * 60 * 60
    ensures var w' := Proceeded(config, Step(config, Step(config, w, Tick(pause)), Start(c, r, operation, None)), c, requests);
      && c in w'.calls && w'.calls[c].phase == Granted(w.locks.revision + 1)
      && History(w', r) == History(w, r) + [Grant(w.locks.revision + 1, w.now + pause, LockOptions(operation, w.now + pause))]
  {
    UndisturbedCall(config, Step(config, w, Tick(pause)), c, r, operation, None, requests);
    LockAnswers(config, w.locks, r, operation, None, w.now + pause, requests);
  }

  /** What a poller sees locked, it can release, as long as nobody wrote it since. */
  lemma SeenIsReleased(config: Config, w: World, r: string)
    requires r in w.locks.objects && w.locks.objects[r].value.state != LockManager.Unlocked
    ensures var version := w.locks.objects[r].version;
      var w' := Step(config, Step(config, w, Observe(r)), PollerUnlock(r, version, NoFault));
      && r in w'.locks.objects && w'.locks.objects[r].value.state == LockManager.Unlocked
      && History(w', r) == History(w, r) + [Release(w.locks.revision + 1, Some(version))]
  {
  }
}
