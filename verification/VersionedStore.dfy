/** What the API server promises its clients: a revision that grows with every accepted write, creation
    only of what is absent, and patches that can be tied to the version they were computed from. */
module VersionedStore {
  import opened Wrappers

  datatype Versioned<+V> = Versioned(version: nat, value: V)

  datatype Store<K, V> = Store(revision: nat, objects: map<K, Versioned<V>>)

  datatype Error = NotFound | Conflict | Unavailable

  datatype Reply<+V> = Ok(item: Versioned<V>) | Err(error: Error)

  /** A call may fail before it takes effect, or its reply may be lost after it did. */
  datatype Fault = NoFault | Dropped | ReplyLost

  datatype Written<K, V> = Written(store: Store<K, V>, reply: Reply<V>)

  predicate WellVersioned<K, V>(s: Store<K, V>) {
    forall k | k in s.objects :: s.objects[k].version <= s.revision
  }

  function Lookup<K, V>(s: Store<K, V>, key: K): Option<Versioned<V>> {
    if key in s.objects then Some(s.objects[key]) else None
  }

  function Get<K, V>(s: Store<K, V>, key: K, fault: Fault): Reply<V> {
    if !fault.NoFault? then Err(Unavailable)
    else if key !in s.objects then Err(NotFound)
    else Ok(s.objects[key])
  }

  function Accept<K, V>(s: Store<K, V>, key: K, value: V, fault: Fault): Written<K, V> {
    var item := Versioned(s.revision + 1, value);
    Written(Store(s.revision + 1, s.objects[key := item]), if fault.NoFault? then Ok(item) else Err(Unavailable))
  }

  function Create<K, V>(s: Store<K, V>, key: K, value: V, fault: Fault): Written<K, V> {
    if fault.Dropped? then Written(s, Err(Unavailable))
    else if key in s.objects then Written(s, Err(Conflict))
    else Accept(s, key, value, fault)
  }

  /** A merge patch; when it carries a version it is accepted only while that version is the current one. */
  function Patch<K, V>(s: Store<K, V>, key: K, version: Option<nat>, change: V -> V, fault: Fault): Written<K, V> {
    if fault.Dropped? then Written(s, Err(Unavailable))
    else if key !in s.objects then Written(s, Err(NotFound))
    else if version.Some? && version.value != s.objects[key].version then Written(s, Err(Conflict))
    else Accept(s, key, change(s.objects[key].value), fault)
  }

  // ---- What calls are answered, when they are ----

  lemma ReadsShow<K, V>(s: Store<K, V>, key: K)
    ensures key in s.objects ==> Get(s, key, NoFault) == Ok(s.objects[key])
    ensures key !in s.objects ==> Get(s, key, NoFault) == Err(NotFound)
  {
  }

  /** An accepted write is the next revision, and it is what is stored; anything else changes nothing. */
  ghost predicate Answers<K(!new), V>(s: Store<K, V>, key: K, w: Written<K, V>, accepted: bool, value: V) {
    if accepted
    then
      && w.reply == Ok(Versioned(s.revision + 1, value)) && w.store.revision == s.revision + 1
      && key in w.store.objects && w.store.objects[key] == Versioned(s.revision + 1, value)
      && forall k | k != key :: (k in w.store.objects <==> k in s.objects) && (k in s.objects ==> w.store.objects[k] == s.objects[k])
    else w.store == s && w.reply.Err?
  }

  /** Creation is accepted exactly of what is absent. */
  lemma CreationAnswers<K(!new), V>(s: Store<K, V>, key: K, value: V)
    ensures Answers(s, key, Create(s, key, value, NoFault), key !in s.objects, value)
    ensures key in s.objects ==> Create(s, key, value, NoFault).reply == Err(Conflict)
  {
  }

  /** A patch is accepted exactly of what is there and, if it carries a version, has that version. */
  lemma {:induction false} PatchAnswers<K(!new), V>(s: Store<K, V>, key: K, version: Option<nat>, change: V -> V)
    ensures var w := Patch(s, key, version, change, NoFault);
      if key !in s.objects then w == Written(s, Err(NotFound))
      else if version.Some? && version.value != s.objects[key].version then w == Written(s, Err(Conflict))
      else Answers(s, key, w, true, change(s.objects[key].value))
  {
  }

  /** A dropped call changes nothing; one whose reply is lost did what it would have done; neither is answered well. */
  lemma {:induction false} FaultsHide<K, V>(s: Store<K, V>, key: K, version: Option<nat>, value: V, change: V -> V)
    ensures Create(s, key, value, Dropped).store == s && Patch(s, key, version, change, Dropped).store == s
    ensures Create(s, key, value, ReplyLost).store == Create(s, key, value, NoFault).store
    ensures Patch(s, key, version, change, ReplyLost).store == Patch(s, key, version, change, NoFault).store
    ensures forall fault: Fault | fault != NoFault ::
      Get(s, key, fault).Err? && Create(s, key, value, fault).reply.Err? && Patch(s, key, version, change, fault).reply.Err?
  {
  }
}
