/** Driving a cluster towards the expected objects without losing track of outdated ones. */
module ReconcileResources {
  import opened DeepUpdates
  import opened Wrappers

  /** The identity by which a subresource is referred to. */
  datatype Id = Id(kind: string, apiVersion: string, name: string, namespace_: string)

  datatype Error = NotFound | Conflict | Failed

  /** An object of the cluster; `deleting` is a set deletion timestamp that finalizers hold up. */
  datatype Resource = Resource(content: map<string, Json>, deleting: bool)

  datatype Expected = Expected(id: Id, content: map<string, Json>)

  datatype Result = Done(refs: seq<Id>) | Aborted | Panicked

  const SPECIAL_DELETE := ["deployment.servicefabrik.io/v1alpha1", "bind.servicefabrik.io/v1alpha1"]

  /** `retry.DefaultRetry` makes this many attempts. */
  const RETRY_STEPS := 5

  // ---- What a run does to the objects ----

  ghost function Ids(expected: seq<Expected>): (ids: seq<Id>)
    ensures |ids| == |expected|
  {
    seq(|expected|, i requires 0 <= i < |expected| => expected[i].id)
  }

  ghost function IdSet(expected: seq<Expected>): set<Id> {
    set e | e in expected :: e.id
  }

  ghost predicate Distinct(expected: seq<Expected>) {
    forall i, j | 0 <= i < j < |expected| :: expected[i].id != expected[j].id
  }

  /** The merge with the stored object does not panic. */
  ghost predicate Applicable(objects: map<Id, Resource>, e: Expected, force: bool) {
    force || e.id !in objects || Compatible(Obj(objects[e.id].content), Obj(e.content))
  }

  ghost function Apply(objects: map<Id, Resource>, e: Expected, force: bool): map<Id, Resource>
    requires Applicable(objects, e, force)
  {
    if e.id !in objects then objects[e.id := Resource(e.content, false)]
    else if force then objects[e.id := objects[e.id].(content := e.content)]
    else objects[e.id := objects[e.id].(content := Merge(Obj(objects[e.id].content), Obj(e.content)).fields)]
  }

  /** The objects once every expected one has been created or updated, in order; none if a merge panics. */
  ghost function Provisioned(objects: map<Id, Resource>, expected: seq<Expected>, force: bool): Option<map<Id, Resource>> {
    if |expected| == 0 then Some(objects)
    else
      var n := |expected| - 1;
      var before := Provisioned(objects, expected[..n], force);
      if before.Some? && Applicable(before.value, expected[n], force)
      then Some(Apply(before.value, expected[n], force))
      else None
  }

  function MarkDelete(content: map<string, Json>): Option<map<string, Json>> {
    if "status" !in content then
      Some(content["status" := Obj(map["state" := Leaf(Str("delete"))])])
    else if content["status"].Obj? then
      Some(content["status" := Obj(content["status"].fields["state" := Leaf(Str("delete"))])])
    else None
  }

  /** A delete that takes effect without removing the object: operators are asked through their status,
      everything else gets a deletion timestamp. */
  ghost predicate Triggered(id: Id, before: Resource, after: Resource) {
    if id.apiVersion in SPECIAL_DELETE
    then MarkDelete(before.content).Some? && after == before.(content := MarkDelete(before.content).value)
    else after == before.(deleting := true)
  }

  /** Only `id` may have changed, and only by being removed or delete-triggered. */
  ghost predicate Swept(before: map<Id, Resource>, after: map<Id, Resource>, id: Id) {
    id in after ==> id in before && (after[id] == before[id] || Triggered(id, before[id], after[id]))
  }

  ghost predicate GoneOrTriggered(before: map<Id, Resource>, after: map<Id, Resource>, id: Id) {
    id in after ==> id in before && Triggered(id, before[id], after[id])
  }

  ghost predicate SameExcept(before: map<Id, Resource>, after: map<Id, Resource>, touched: set<Id>) {
    forall id | id !in touched :: (id in before <==> id in after) && (id in before ==> before[id] == after[id])
  }

  ghost predicate AllCovered(objects: map<Id, Resource>, expected: seq<Expected>) {
    forall i | 0 <= i < |expected| ::
      expected[i].id in objects && Covers(Obj(objects[expected[i].id].content), Obj(expected[i].content))
  }

  /** Nothing is left to do: every expected object exists and covers its specification, and no outdated
      object is still referred to. */
  ghost predicate Settled(objects: map<Id, Resource>, expected: seq<Expected>, last: seq<Id>) {
    && AllCovered(objects, expected)
    && (forall l | l in last :: l in Ids(expected))
  }

  // ---- Properties of that specification ----

  lemma {:induction false} ProvisionedTouchesOnlyExpected(objects: map<Id, Resource>, expected: seq<Expected>, force: bool)
    requires Provisioned(objects, expected, force).Some?
    ensures SameExcept(objects, Provisioned(objects, expected, force).value, IdSet(expected))
  {
    if |expected| > 0 {
      var init := expected[..|expected| - 1];
      ProvisionedTouchesOnlyExpected(objects, init, force);
      assert IdSet(expected) == IdSet(init) + {expected[|expected| - 1].id};
    }
  }

  /** Every expected object is there afterwards: created as specified, replaced, or merged over what was
      there. */
  lemma {:induction false} ProvisionedObject(objects: map<Id, Resource>, expected: seq<Expected>, force: bool, i: nat)
    requires Provisioned(objects, expected, force).Some? && Distinct(expected) && i < |expected|
    ensures var e, after := expected[i], Provisioned(objects, expected, force).value;
      && Applicable(objects, e, force)
      && e.id in after && after[e.id] == Apply(objects, e, force)[e.id]
      && Covers(Obj(after[e.id].content), Obj(e.content))
      && (e.id !in objects ==> after[e.id] == Resource(e.content, false))
      && (e.id in objects ==> after[e.id].deleting == objects[e.id].deleting)
      && (e.id in objects && force ==> after[e.id].content == e.content)
      && (e.id in objects && !force ==> Frames(Obj(objects[e.id].content), Obj(e.content), Obj(after[e.id].content)))
  {
    var n := |expected| - 1;
    var init := expected[..n];
    if i < n {
      ProvisionedObject(objects, init, force, i);
    } else {
      ProvisionedTouchesOnlyExpected(objects, init, force);
      var e := expected[n];
      assert e.id !in IdSet(init);
      CoversItself(Obj(e.content));
      if !force && e.id in objects {
        MergeIsIdempotent(Obj(objects[e.id].content), Obj(e.content));
        MergeIsTheFramedCover(Obj(objects[e.id].content), Obj(e.content), Merge(Obj(objects[e.id].content), Obj(e.content)));
      }
    }
  }

  lemma IdsAreTheIdSet(expected: seq<Expected>)
    ensures IdSet(expected) == set id | id in Ids(expected)
  {
    forall e | e in expected ensures e.id in Ids(expected) {
      var i :| 0 <= i < |expected| && expected[i] == e;
      assert Ids(expected)[i] == e.id;
    }
  }

  lemma {:induction false} ProvisionedKeepsExpected(objects: map<Id, Resource>, expected: seq<Expected>, force: bool)
    requires Provisioned(objects, expected, force).Some?
    ensures IdSet(expected) <= Provisioned(objects, expected, force).value.Keys
  {
    if |expected| > 0 {
      ProvisionedKeepsExpected(objects, expected[..|expected| - 1], force);
    }
  }

  lemma {:induction false} PrefixProvisioned(objects: map<Id, Resource>, expected: seq<Expected>, force: bool, i: nat)
    requires i <= |expected| && Provisioned(objects, expected, force).Some?
    ensures Provisioned(objects, expected[..i], force).Some?
  {
    if i < |expected| {
      assert expected[..|expected| - 1][..i] == expected[..i];
      PrefixProvisioned(objects, expected[..|expected| - 1], force, i);
    } else {
      assert expected[..i] == expected;
    }
  }

  /** Applying a specification that is already covered changes nothing. */
  lemma ApplyCovered(objects: map<Id, Resource>, e: Expected)
    requires e.id in objects && Covers(Obj(objects[e.id].content), Obj(e.content))
    ensures Applicable(objects, e, false) && Apply(objects, e, false) == objects
  {
    CoveredIsFixed(Obj(objects[e.id].content), Obj(e.content));
  }

  /** Asking an operator to delete sets the state of the status to "delete" and nothing else; a status that is not a map
      cannot be asked. */
  lemma MarkDeleteMarks(content: map<string, Json>)
    ensures MarkDelete(content).None? <==> "status" in content && !content["status"].Obj?
    ensures MarkDelete(content).Some? ==>
      var marked := MarkDelete(content).value;
      && marked.Keys == content.Keys + {"status"} && (forall k | k in content && k != "status" :: marked[k] == content[k])
      && marked["status"].Obj?
      && var fields, was := marked["status"].fields, if "status" in content then content["status"].fields else map[];
      && fields.Keys == was.Keys + {"state"} && fields["state"] == Leaf(Str("delete"))
      && forall k | k in was && k != "state" :: fields[k] == was[k]
  {
  }

  /** Only the two kinds of operators are asked; everything else is deleted. */
  lemma OperatorsAreAsked(id: Id, before: Resource, after: Resource)
    ensures Triggered(id, before, after) <==>
      if id.apiVersion == "deployment.servicefabrik.io/v1alpha1" || id.apiVersion == "bind.servicefabrik.io/v1alpha1"
      then after.deleting == before.deleting && MarkDelete(before.content) == Some(after.content)
      else after.deleting && after.content == before.content
  {
  }

  /** An operator that cannot be asked to delete. */
  ghost predicate Unmarkable(objects: map<Id, Resource>, id: Id) {
    id.apiVersion in SPECIAL_DELETE && id in objects && MarkDelete(objects[id].content).None?
  }

  lemma SweptStaysUnmarkable(before: map<Id, Resource>, after: map<Id, Resource>, id: Id)
    requires Swept(before, after, id) && Unmarkable(after, id)
    ensures Unmarkable(before, id)
  {
    if MarkDelete(before[id].content).Some? { MarkDeleteTwice(before[id].content); }
  }

  lemma MarkDeleteTwice(content: map<string, Json>)
    requires MarkDelete(content).Some?
    ensures MarkDelete(MarkDelete(content).value) == MarkDelete(content)
  {
    var once := MarkDelete(content).value;
    var status := once["status"].fields;
    assert status["state" := Leaf(Str("delete"))] == status;
    assert once["status" := Obj(status)] == once;
  }

  /** Triggering a delete again, however often, leaves the object in the same triggered state. */
  lemma SweepAgain(first: map<Id, Resource>, second: map<Id, Resource>, third: map<Id, Resource>, id: Id)
    requires Swept(first, second, id) && Swept(second, third, id)
    ensures Swept(first, third, id)
    ensures GoneOrTriggered(first, second, id) || GoneOrTriggered(second, third, id) ==> GoneOrTriggered(first, third, id)
  {
    if id in first && MarkDelete(first[id].content).Some? {
      MarkDeleteTwice(first[id].content);
    }
  }

  // ---- The cluster ----

  /** The API server of the target cluster. Any call may fail, before or after it took effect; `requests`
      counts the calls that could write. */
  class Cluster {
    var objects: map<Id, Resource>
    var requests: nat
    // the calls that failed, or met a conflict
    ghost var failures: nat

    method Get(id: Id) returns (r: Option<map<string, Json>>, err: Option<Error>)
      modifies this`failures
      ensures err in {None, Some(NotFound), Some(Failed)}
      ensures failures == old(failures) + if err == Some(Failed) then 1 else 0
      ensures err.None? ==> id in objects && r == Some(objects[id].content)
      ensures err == Some(NotFound) ==> id !in objects
    {
      var fault: bool := *;
      if fault {
        failures := failures + 1;
        return None, Some(Failed);
      }
      if id !in objects { return None, Some(NotFound); }
      return Some(objects[id].content), None;
    }

    method Create(e: Expected) returns (err: Option<Error>)
      modifies this
      ensures requests == old(requests) + 1
      ensures failures == old(failures) + if err.Some? then 1 else 0
      ensures err.None? ==> e.id !in old(objects) && objects == old(objects)[e.id := Resource(e.content, false)]
      ensures SameExcept(old(objects), objects, {e.id})
    {
      requests := requests + 1;
      var fault, applied: bool := *, *;
      if e.id in objects || fault { failures := failures + 1; }
      if e.id in objects || (fault && !applied) { return Some(Failed); }
      objects := objects[e.id := Resource(e.content, false)];
      return if fault then Some(Failed) else None;
    }

    method Update(id: Id, content: map<string, Json>) returns (err: Option<Error>)
      modifies this
      ensures requests == old(requests) + 1
      ensures failures == old(failures) + if err.Some? && err != Some(NotFound) then 1 else 0
      ensures err.None? ==> id in old(objects) && objects == old(objects)[id := old(objects)[id].(content := content)]
      ensures err.Some? ==>
          || objects == old(objects)
          || (id in old(objects) && objects == old(objects)[id := old(objects)[id].(content := content)])
      ensures err == Some(Conflict) ==> objects == old(objects)
      ensures err == Some(NotFound) ==> id !in objects
    {
      requests := requests + 1;
      var fault, stale, applied: bool := *, *, *;
      if id !in objects { return Some(NotFound); }
      if stale || fault { failures := failures + 1; }
      if stale { return Some(Conflict); }
      if fault && !applied { return Some(Failed); }
      objects := objects[id := objects[id].(content := content)];
      return if fault then Some(Failed) else None;
    }

    method Delete(id: Id) returns (err: Option<Error>)
      requires id.apiVersion !in SPECIAL_DELETE
      modifies this
      ensures requests == old(requests) + 1
      ensures err in {None, Some(NotFound), Some(Failed)}
      ensures failures == old(failures) + if err == Some(Failed) then 1 else 0
      ensures Swept(old(objects), objects, id) && SameExcept(old(objects), objects, {id})
      ensures err.None? ==> id in old(objects) && GoneOrTriggered(old(objects), objects, id)
      ensures err == Some(NotFound) ==> id !in objects
    {
      requests := requests + 1;
      var fault, applied, finalizers: bool := *, *, *;
      if id !in objects { return Some(NotFound); }
      if fault { failures := failures + 1; }
      if fault && !applied { return Some(Failed); }
      objects := if finalizers then objects[id := objects[id].(deleting := true)] else objects - {id};
      return if fault then Some(Failed) else None;
    }
  }

  method FindUnstructuredObject(list: seq<Id>, item: Id) returns (found: bool)
    ensures found <==> item in list
  {
    for i := 0 to |list|
      invariant item !in list[..i]
    {
      if list[i] == item { return true; }
    }
    return false;
  }

  method DeleteSubResource(client: Cluster, id: Id) returns (err: Option<Error>)
    modifies client
    ensures Swept(old(client.objects), client.objects, id) && SameExcept(old(client.objects), client.objects, {id})
    ensures err.None? ==> id in old(client.objects) && GoneOrTriggered(old(client.objects), client.objects, id)
    ensures err == Some(NotFound) ==> id !in client.objects
    // it is not given up without reason
    ensures client.failures >= old(client.failures)
    ensures err.Some? && err != Some(NotFound) ==> client.failures > old(client.failures) || Unmarkable(old(client.objects), id)
    ensures err == Some(Conflict) ==> client.failures >= old(client.failures) + 5
  {
    if id.apiVersion in SPECIAL_DELETE {
      for attempt := 0 to RETRY_STEPS
        invariant client.objects == old(client.objects) && client.failures == old(client.failures) + attempt
      {
        var content, getErr := client.Get(id);
        if getErr.Some? { return getErr; }
        var marked := MarkDelete(content.value);
        if marked.None? { return Some(Failed); }
        err := client.Update(id, marked.value);
        if err != Some(Conflict) { return; }
      }
      return Some(Conflict);
    }
    err := client.Delete(id);
  }

  datatype Round = Applied | Stopped | Clash

  /** One round of creating and updating. */
  method ProvisionOne(client: Cluster, e: Expected, force: bool) returns (r: Round)
    modifies client
    ensures r.Applied? ==> Applicable(old(client.objects), e, force) && client.objects == Apply(old(client.objects), e, force)
    ensures r.Clash? ==> !force && !Applicable(old(client.objects), e, force) && client.objects == old(client.objects)
    ensures SameExcept(old(client.objects), client.objects, {e.id})
    ensures client.failures >= old(client.failures) && (r.Stopped? <==> client.failures > old(client.failures))
    ensures !force && e.id in old(client.objects) && Covers(Obj(old(client.objects)[e.id].content), Obj(e.content)) ==>
        client.objects == old(client.objects) && client.requests == old(client.requests) && !r.Clash?
  {
    ghost var before := client.objects;
    var content, err := client.Get(e.id);
    if err == Some(NotFound) {
      err := client.Create(e);
      return if err.Some? then Stopped else Applied;
    } else if err.Some? {
      return Stopped;
    }
    var toBeUpdated, updated := false, e.content;
    if !force {
      CoveredIsFixed(Obj(content.value), Obj(e.content));
      var outcome := DeepUpdate(Obj(content.value), Obj(e.content));
      if outcome.Panic? { return Clash; }
      toBeUpdated, updated := outcome.changed, outcome.value.fields;
    }
    if toBeUpdated || force {
      err := client.Update(e.id, updated);
      if err.Some? { return Stopped; }
    }
    assert client.objects == Apply(before, e, force);
    r := Applied;
  }

  method Provision(client: Cluster, expected: seq<Expected>, force: bool) returns (r: Result)
    modifies client
    ensures SameExcept(old(client.objects), client.objects, IdSet(expected))
    ensures r.Done? ==>
        && r.refs == Ids(expected)
        && Provisioned(old(client.objects), expected, force) == Some(client.objects)
    ensures r.Panicked? ==> !force && Provisioned(old(client.objects), expected, force).None?
    ensures client.failures >= old(client.failures) && (r.Aborted? ==> client.failures > old(client.failures))
    ensures AllCovered(old(client.objects), expected) && !force ==>
        client.objects == old(client.objects) && client.requests == old(client.requests) && !r.Panicked?
  {
    var found := [];
    ghost var start := client.objects;
    for i := 0 to |expected|
      invariant found == Ids(expected[..i])
      invariant Provisioned(start, expected[..i], force) == Some(client.objects)
      invariant SameExcept(start, client.objects, IdSet(expected))
      invariant client.failures == old(client.failures)
      invariant AllCovered(start, expected) && !force ==> client.objects == start && client.requests == old(client.requests)
    {
      assert expected[..i + 1][..i] == expected[..i];
      assert expected[i].id in IdSet(expected);
      var round := ProvisionOne(client, expected[i], force);
      if round.Stopped? { return Aborted; }
      if round.Clash? {
        if Provisioned(start, expected, force).Some? { PrefixProvisioned(start, expected, force, i + 1); }
        return Panicked;
      }
      found := found + [expected[i].id];
    }
    assert expected[..|expected|] == expected;
    r := Done(found);
  }

  /** What is referred to beyond the current objects: outdated ones, each once, and if no call failed only operators
      that cannot be asked. */
  ghost predicate Extra(start: map<Id, Resource>, current: seq<Id>, found: seq<Id>, lastResources: seq<Id>, failed: bool) {
    && current <= found
    && (forall i | |current| <= i < |found| :: found[i] in lastResources && found[i] !in found[..i])
    && (!failed ==> forall i | |current| <= i < |found| :: Unmarkable(start, found[i]))
  }

  /** Of the outdated objects these were dealt with, and the others left alone. */
  ghost predicate DealtWith(start: map<Id, Resource>, now: map<Id, Resource>, current: seq<Id>, found: seq<Id>, done: seq<Id>) {
    && SameExcept(start, now, set l | l in done && l !in current)
    && forall l | l in done && l !in current :: Swept(start, now, l) && (l in found || GoneOrTriggered(start, now, l))
  }

  lemma ExtraOne(start: map<Id, Resource>, current: seq<Id>, found: seq<Id>, lastResources: seq<Id>, failed: bool, l: Id)
    requires Extra(start, current, found, lastResources, failed) && l in lastResources && l !in found
    requires !failed ==> Unmarkable(start, l)
    ensures Extra(start, current, found + [l], lastResources, failed)
  {
  }

  /** One more outdated object was deleted, or its delete failed and it is referred to. */
  lemma DealtWithOne(start: map<Id, Resource>, before: map<Id, Resource>, after: map<Id, Resource>,
                     current: seq<Id>, found: seq<Id>, done: seq<Id>, l: Id, kept: bool)
    requires DealtWith(start, before, current, found, done) && current <= found && l !in found
    requires Swept(before, after, l) && SameExcept(before, after, {l}) && (kept || GoneOrTriggered(before, after, l))
    ensures Swept(start, before, l)
    ensures DealtWith(start, after, current, if kept then found + [l] else found, done + [l])
  {
    assert l !in current;
    if l !in done { assert (l in start <==> l in before) && (l in start ==> start[l] == before[l]); }
    SweepAgain(start, before, after, l);
    forall k | k in done + [l] && k !in current
      ensures Swept(start, after, k) && (k in (if kept then found + [l] else found) || GoneOrTriggered(start, after, k))
    {
      if k != l { assert (k in before <==> k in after) && (k in before ==> before[k] == after[k]); }
    }
  }

  lemma PassedOver(start: map<Id, Resource>, now: map<Id, Resource>, current: seq<Id>, found: seq<Id>, done: seq<Id>, l: Id)
    requires DealtWith(start, now, current, found, done) && l in found
    ensures DealtWith(start, now, current, found, done + [l])
  {
    if l !in current && l !in done {
      assert (l in start <==> l in now) && (l in start ==> start[l] == now[l]);
    }
  }

  method SweepOutdated(client: Cluster, current: seq<Id>, lastResources: seq<Id>) returns (found: seq<Id>)
    modifies client
    ensures DealtWith(old(client.objects), client.objects, current, found, lastResources)
    ensures client.failures >= old(client.failures)
    ensures Extra(old(client.objects), current, found, lastResources, client.failures > old(client.failures))
    ensures (forall l | l in lastResources :: l in current) ==>
        client.objects == old(client.objects) && client.requests == old(client.requests) && found == current
  {
    ghost var start := client.objects;
    found := current;
    for i := 0 to |lastResources|
      invariant DealtWith(start, client.objects, current, found, lastResources[..i])
      invariant client.failures >= old(client.failures)
      invariant Extra(start, current, found, lastResources, client.failures > old(client.failures))
      invariant (forall l | l in lastResources[..i] :: l in current) ==>
          client.objects == start && client.requests == old(client.requests) && found == current
    {
      var l := lastResources[i];
      ghost var done := lastResources[..i];
      assert lastResources[..i + 1] == done + [l];
      var ok := FindUnstructuredObject(found, l);
      if ok {
        PassedOver(start, client.objects, current, found, done, l);
      } else {
        ghost var before := client.objects;
        var err := DeleteSubResource(client, l);
        var kept := err.Some? && err != Some(NotFound);
        DealtWithOne(start, before, client.objects, current, found, done, l, kept);
        if kept {
          if Unmarkable(before, l) { SweptStaysUnmarkable(start, before, l); }
          ExtraOne(start, current, found, lastResources, client.failures > old(client.failures), l);
          found := found + [l];
        }
      }
    }
    assert lastResources[..|lastResources|] == lastResources;
  }

  method ReconcileResources(client: Cluster, expected: seq<Expected>, lastResources: seq<Id>, force: bool)
    returns (r: Result)
    modifies client
    // Nothing but the expected and the outdated objects is touched, and an unsuccessful run deletes nothing.
    ensures SameExcept(old(client.objects), client.objects,
                       IdSet(expected) + if r.Done? then set l | l in lastResources else {})
    ensures r.Panicked? ==> !force && Provisioned(old(client.objects), expected, force).None?
    // A successful run creates or updates every expected object,
    ensures r.Done? ==>
        && Provisioned(old(client.objects), expected, force).Some?
        && forall id | id in IdSet(expected) ::
             && id in client.objects && id in Provisioned(old(client.objects), expected, force).value
             && client.objects[id] == Provisioned(old(client.objects), expected, force).value[id]
    // refers to all of them, and to the outdated ones whose delete failed, each once,
    ensures r.Done? ==>
        && Ids(expected) <= r.refs
        && (forall i | |expected| <= i < |r.refs| :: r.refs[i] in lastResources && r.refs[i] !in r.refs[..i])
    // and loses track of none: an outdated one is gone, delete-triggered or still referred to.
    ensures r.Done? ==> forall l | l in lastResources && l !in Ids(expected) ::
        && Swept(old(client.objects), client.objects, l)
        && (l in r.refs || GoneOrTriggered(old(client.objects), client.objects, l))
    // It does all that unless a call failed or a merge is impossible, and then every outdated object is deleted or
    // triggered, but for operators that cannot be asked.
    ensures client.failures >= old(client.failures) && (r.Aborted? ==> client.failures > old(client.failures))
    ensures client.failures == old(client.failures) && r.Done? ==>
        forall i | |expected| <= i < |r.refs| :: Unmarkable(old(client.objects), r.refs[i])
    // When no delete failed there is nothing left to do, and when there is nothing to do nothing is written.
    ensures r.Done? && !force && Distinct(expected) && |r.refs| == |expected| ==> Settled(client.objects, expected, r.refs)
    ensures Settled(old(client.objects), expected, lastResources) && !force ==>
        client.objects == old(client.objects) && client.requests == old(client.requests) && (r.Done? ==> r.refs == Ids(expected))
  {
    ghost var start := client.objects;
    r := Provision(client, expected, force);
    if !r.Done? { return; }
    ghost var provisioned := client.objects;
    var found := SweepOutdated(client, r.refs, lastResources);
    IdsAreTheIdSet(expected);
    ProvisionedKeepsExpected(start, expected, force);
    if !force && Distinct(expected) {
      forall i | 0 <= i < |expected|
        ensures expected[i].id in client.objects
             && Covers(Obj(client.objects[expected[i].id].content), Obj(expected[i].content))
      {
        ProvisionedObject(start, expected, force, i);
        assert expected[i].id in IdSet(expected);
        assert client.objects[expected[i].id] == provisioned[expected[i].id];
      }
    }
    r := Done(found);
  }

  /** Convergence: a second run on the references of a first one, when no delete failed, writes nothing,
      whatever happens to its calls. */
  method RerunWritesNothing(client: Cluster, expected: seq<Expected>, lastResources: seq<Id>)
    returns (first: Result, second: Result, ghost objectsAfterFirst: map<Id, Resource>, ghost requestsAfterFirst: nat)
    requires Distinct(expected)
    modifies client
    ensures first.Done? && |first.refs| == |expected| ==>
        client.objects == objectsAfterFirst && client.requests == requestsAfterFirst
        && (second.Done? ==> second.refs == first.refs)
  {
    first := ReconcileResources(client, expected, lastResources, false);
    objectsAfterFirst, requestsAfterFirst := client.objects, client.requests;
    second := first;
    if first.Done? {
      assert |first.refs| == |expected| ==> first.refs[..|expected|] == first.refs;
      second := ReconcileResources(client, expected, first.refs, false);
    }
  }

  /** Deleting forgets a subresource only once it no longer exists, and reports success only when every
      remaining one is on its way out. */
  method DeleteSubResources(client: Cluster, subResources: seq<Id>) returns (remaining: seq<Id>, lastError: Option<Error>)
    modifies client
    ensures SameExcept(old(client.objects), client.objects, set id | id in subResources)
    ensures forall s | s in subResources :: Swept(old(client.objects), client.objects, s)
    ensures forall s | s in subResources :: s in client.objects ==> s in remaining
    ensures forall s | s in remaining :: s in subResources
    ensures lastError.None? ==> forall s | s in subResources :: GoneOrTriggered(old(client.objects), client.objects, s)
    ensures client.failures == old(client.failures) ==>
        && (forall s | s in remaining :: s in old(client.objects))
        && (lastError.Some? ==> exists s :: s in subResources && Unmarkable(old(client.objects), s))
  {
    ghost var start := client.objects;
    remaining, lastError := [], None;
    for i := 0 to |subResources|
      invariant SameExcept(start, client.objects, set id | id in subResources[..i])
      invariant forall s | s in subResources :: Swept(start, client.objects, s)
      invariant forall s | s in subResources[..i] :: s in client.objects ==> s in remaining
      invariant forall s | s in remaining :: s in subResources[..i]
      invariant lastError.None? ==> forall s | s in subResources[..i] :: GoneOrTriggered(start, client.objects, s)
      invariant client.failures >= old(client.failures)
      invariant client.failures == old(client.failures) ==>
          && (forall s | s in remaining :: s in start)
          && (lastError.Some? ==> exists s :: s in subResources && Unmarkable(start, s))
    {
      var s := subResources[i];
      assert subResources[..i + 1] == subResources[..i] + [s];
      ghost var before := client.objects;
      var err := DeleteSubResource(client, s);
      SweepAgain(start, before, client.objects, s);
      if err == Some(NotFound) { continue; }
      if Unmarkable(before, s) { SweptStaysUnmarkable(start, before, s); }
      remaining := remaining + [s];
      if err.Some? { lastError := err; }
    }
    assert subResources[..|subResources|] == subResources;
  }
}
