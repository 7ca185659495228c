/** The recursive merge with which the interoperator brings a live object up to its specification. */
module DeepUpdates {

  datatype Atom = Nil | Bool(b: bool) | Int(i: int) | Float(f: real) | Str(s: string)

  /** The Go type of a list: `[]interface{}` or `[]map[string]interface{}`. */
  datatype ListKind = OfAny | OfMaps

  /** A decoded document. */
  datatype Json =
    | Leaf(atom: Atom)
    | Obj(fields: map<string, Json>)
    | List(kind: ListKind, items: seq<Json>)

  datatype Outcome = Panic | Updated(value: Json, changed: bool)

  /** Every type assertion of the merge succeeds: where both sides speak, a map meets a map and a list a
      list of its own kind. A leaf may replace anything. */
  predicate Compatible(current: Json, new_: Json)
    decreases new_
  {
    match new_
    case Leaf(_) => true
    case Obj(n) =>
      current.Obj? && forall k | k in n && k in current.fields :: Compatible(current.fields[k], n[k])
    case List(kind, items) =>
      && current.List? && current.kind == kind
      && forall i | 0 <= i < |items| && i < |current.items| :: Compatible(current.items[i], items[i])
  }

  function Max(a: nat, b: nat): nat { if a < b then b else a }

  /** The merged document. */
  function Merge(current: Json, new_: Json): Json
    requires Compatible(current, new_)
    decreases new_
  {
    match new_
    case Leaf(_) => new_
    case Obj(n) =>
      Obj(map k | k in current.fields.Keys + n.Keys ::
            if k !in n then current.fields[k]
            else if k !in current.fields then n[k]
            else Merge(current.fields[k], n[k]))
    case List(kind, items) =>
      List(kind, seq(Max(|current.items|, |items|), i requires 0 <= i < Max(|current.items|, |items|) =>
            if i >= |items| then current.items[i]
            else if i >= |current.items| then items[i]
            else Merge(current.items[i], items[i])))
  }

  /** `big` contains everything `small` says: every map key, every list position, every leaf. */
  predicate Covers(big: Json, small: Json)
    decreases small
  {
    match small
    case Leaf(_) => big == small
    case Obj(s) => big.Obj? && forall k | k in s :: k in big.fields && Covers(big.fields[k], s[k])
    case List(kind, items) =>
      && big.List? && big.kind == kind && |big.items| >= |items|
      && forall i | 0 <= i < |items| :: Covers(big.items[i], items[i])
  }

  /** `result` differs from `current` only where `new_` speaks, and has nothing that neither of them has. */
  ghost predicate Frames(current: Json, new_: Json, result: Json)
    decreases new_
  {
    match new_
    case Leaf(_) => true
    case Obj(n) =>
      && current.Obj? && result.Obj?
      && (forall k | k in result.fields :: k in current.fields || k in n)
      && (forall k | k in current.fields && k !in n :: k in result.fields && result.fields[k] == current.fields[k])
      && (forall k | k in n && k !in current.fields && k in result.fields :: result.fields[k] == n[k])
      && (forall k | k in n && k in current.fields && k in result.fields ::
            Frames(current.fields[k], n[k], result.fields[k]))
    case List(kind, items) =>
      && current.List? && result.List? && current.kind == kind
      && |result.items| == Max(|current.items|, |items|)
      && (forall i | |items| <= i < |current.items| :: result.items[i] == current.items[i])
      && (forall i | |current.items| <= i < |items| :: result.items[i] == items[i])
      && (forall i | 0 <= i < |items| && i < |current.items| ::
            Frames(current.items[i], items[i], result.items[i]))
  }

  /** It panics exactly if no document contains the update and otherwise keeps to the current one, and yields the
      one that does. */
  ghost predicate IsAnswer(current: Json, new_: Json, r: Outcome) {
    match r
    case Panic => forall result :: !(Covers(result, new_) && Frames(current, new_, result))
    case Updated(value, changed) =>
      Covers(value, new_) && Frames(current, new_, value) && (changed <==> value != current)
  }

  /** The merge as the code does it: the current document is rewritten in place, key by key in the
      arbitrary order of a Go map and position by position, writing only where a nested call reports a
      change. */
  method DeepUpdate(currentObj: Json, newObj: Json) returns (r: Outcome)
    ensures IsAnswer(currentObj, newObj, r)
    ensures r.Panic? <==> !Compatible(currentObj, newObj)
    ensures r.Updated? ==> r.value == Merge(currentObj, newObj) && (r.changed <==> !Covers(currentObj, newObj))
    decreases newObj
  {
    MergeAnswers(currentObj, newObj);
    match newObj
    case Leaf(_) =>
      r := Updated(newObj, currentObj != newObj);
    case Obj(n) =>
      if !currentObj.Obj? { return Panic; }
      r := UpdateFields(currentObj, newObj);
    case List(_, _) =>
      if !currentObj.List? || currentObj.kind != newObj.kind { return Panic; }
      r := UpdateItems(currentObj, newObj);
  }

  method UpdateFields(currentObj: Json, newObj: Json) returns (r: Outcome)
    requires currentObj.Obj? && newObj.Obj?
    ensures r.Panic? <==> !Compatible(currentObj, newObj)
    ensures r.Updated? ==> r.value == Merge(currentObj, newObj) && (r.changed <==> !Covers(currentObj, newObj))
    decreases newObj, 0
  {
    var n := newObj.fields;
    var current := currentObj.fields;
    var toBeUpdated := false;
    var pending := n.Keys;
    while pending != {}
      invariant pending <= n.Keys
      invariant current.Keys == currentObj.fields.Keys + (n.Keys - pending)
      invariant forall k | k in currentObj.fields && (k !in n || k in pending) :: current[k] == currentObj.fields[k]
      invariant forall k | k in n && k !in pending ::
          if k in currentObj.fields
          then Compatible(currentObj.fields[k], n[k]) && current[k] == Merge(currentObj.fields[k], n[k])
          else current[k] == n[k]
      invariant toBeUpdated <==> exists k :: k in n && k !in pending && !(k in currentObj.fields && Covers(currentObj.fields[k], n[k]))
      decreases pending
    {
      var updateKey :| updateKey in pending;
      var value := n[updateKey];
      if updateKey !in current {
        current := current[updateKey := value];
        toBeUpdated := true;
      } else {
        var nested := DeepUpdate(current[updateKey], value);
        if nested.Panic? { return Panic; }
        if nested.changed {
          current := current[updateKey := nested.value];
          toBeUpdated := true;
        } else {
          CoveredIsFixed(current[updateKey], value);
        }
      }
      pending := pending - {updateKey};
    }
    assert current == Merge(currentObj, newObj).fields;
    r := Updated(Obj(current), toBeUpdated);
  }

  method UpdateItems(currentObj: Json, newObj: Json) returns (r: Outcome)
    requires currentObj.List? && newObj.List? && currentObj.kind == newObj.kind
    ensures r.Panic? <==> !Compatible(currentObj, newObj)
    ensures r.Updated? ==> r.value == Merge(currentObj, newObj) && (r.changed <==> !Covers(currentObj, newObj))
    decreases newObj, 0
  {
    var n := newObj.items;
    var current := currentObj.items;
    var currentLen := |current|;
    var toBeUpdated := false;
    for i := 0 to |n|
      invariant i <= currentLen == |current| == |currentObj.items|
      invariant forall j | 0 <= j < i ::
          Compatible(currentObj.items[j], n[j]) && current[j] == Merge(currentObj.items[j], n[j])
      invariant forall j | i <= j < currentLen :: current[j] == currentObj.items[j]
      invariant toBeUpdated <==> exists j :: 0 <= j < i && !Covers(currentObj.items[j], n[j])
    {
      if i < currentLen {
        var nested := DeepUpdate(current[i], n[i]);
        if nested.Panic? { return Panic; }
        if nested.changed {
          current := current[i := nested.value];
          toBeUpdated := true;
        } else {
          CoveredIsFixed(current[i], n[i]);
        }
      } else {
        current := current + n[i..];
        toBeUpdated := true;
        assert current == Merge(currentObj, newObj).items;
        return Updated(List(currentObj.kind, current), toBeUpdated);
      }
    }
    assert current == Merge(currentObj, newObj).items;
    r := Updated(List(currentObj.kind, current), toBeUpdated);
  }

  /** What already covers the update is left as it is, and only that. */
  lemma {:induction false} CoveredIsFixed(current: Json, new_: Json)
    ensures Covers(current, new_) <==> Compatible(current, new_) && Merge(current, new_) == current
    decreases new_
  {
    match new_
    case Leaf(_) =>
    case Obj(n) =>
      if current.Obj? {
        forall k | k in n && k in current.fields
          ensures Covers(current.fields[k], n[k]) <==>
                  Compatible(current.fields[k], n[k]) && Merge(current.fields[k], n[k]) == current.fields[k]
        { CoveredIsFixed(current.fields[k], n[k]); }
        if Covers(current, new_) {
          assert Merge(current, new_).fields == current.fields;
        }
        if Compatible(current, new_) && Merge(current, new_) == current {
          forall k | k in n ensures k in current.fields && Covers(current.fields[k], n[k]) {
            assert k in Merge(current, new_).fields;
          }
        }
      }
    case List(_, items) =>
      if current.List? {
        forall i | 0 <= i < |items| && i < |current.items|
          ensures Covers(current.items[i], items[i]) <==>
                  Compatible(current.items[i], items[i]) && Merge(current.items[i], items[i]) == current.items[i]
        { CoveredIsFixed(current.items[i], items[i]); }
        if Covers(current, new_) {
          assert Merge(current, new_).items == current.items;
        }
        if Compatible(current, new_) && Merge(current, new_) == current {
          forall i | 0 <= i < |items| ensures i < |current.items| && Covers(current.items[i], items[i]) {
            assert i < |Merge(current, new_).items|;
            assert Merge(current, new_).items[i] == current.items[i];
          }
        }
      }
  }

  lemma {:induction false} CoversItself(x: Json)
    ensures Covers(x, x)
    decreases x
  {
    match x
    case Leaf(_) =>
    case Obj(m) => forall k | k in m ensures Covers(m[k], m[k]) { CoversItself(m[k]); }
    case List(_, items) =>
      forall i | 0 <= i < |items| ensures Covers(items[i], items[i]) { CoversItself(items[i]); }
  }

  /** The merge is exactly the document that covers the update and otherwise frames the old one: nothing
      the update says is lost, nothing it does not say is touched, and no other document has both. */
  lemma {:induction false} MergeIsTheFramedCover(current: Json, new_: Json, result: Json)
    requires Compatible(current, new_)
    ensures Covers(result, new_) && Frames(current, new_, result) <==> result == Merge(current, new_)
    decreases new_
  {
    match new_
    case Leaf(_) =>
    case Obj(n) =>
      var merged := Merge(current, new_);
      if result.Obj? {
        forall k | k in n && k in current.fields && k in result.fields
          ensures Covers(result.fields[k], n[k]) && Frames(current.fields[k], n[k], result.fields[k])
                  <==> result.fields[k] == Merge(current.fields[k], n[k])
        { MergeIsTheFramedCover(current.fields[k], n[k], result.fields[k]); }
        forall k | k in n ensures Covers(n[k], n[k]) { CoversItself(n[k]); }
        if Covers(result, new_) && Frames(current, new_, result) {
          assert result.fields == merged.fields;
        }
      }
    case List(_, items) =>
      var merged := Merge(current, new_);
      if result.List? {
        forall i | 0 <= i < |items| && i < |current.items| && i < |result.items|
          ensures Covers(result.items[i], items[i]) && Frames(current.items[i], items[i], result.items[i])
                  <==> result.items[i] == Merge(current.items[i], items[i])
        { MergeIsTheFramedCover(current.items[i], items[i], result.items[i]); }
        forall i | 0 <= i < |items| ensures Covers(items[i], items[i]) { CoversItself(items[i]); }
        if Covers(result, new_) && Frames(current, new_, result) {
          assert result.items == merged.items;
        }
      }
  }

  /** Merging is possible exactly if some document contains the update and otherwise keeps to the current one. */
  lemma {:induction false} CompatibleExactly(current: Json, new_: Json)
    ensures Compatible(current, new_) <==> exists result :: Covers(result, new_) && Frames(current, new_, result)
  {
    if Compatible(current, new_) {
      MergeIsTheFramedCover(current, new_, Merge(current, new_));
    }
    if result :| Covers(result, new_) && Frames(current, new_, result) {
      FramedIsCompatible(current, new_, result);
    }
  }

  lemma {:induction false} FramedIsCompatible(current: Json, new_: Json, result: Json)
    requires Covers(result, new_) && Frames(current, new_, result)
    ensures Compatible(current, new_)
    decreases new_
  {
    match new_
    case Leaf(_) =>
    case Obj(n) =>
      forall k | k in n && k in current.fields ensures Compatible(current.fields[k], n[k]) {
        FramedIsCompatible(current.fields[k], n[k], result.fields[k]);
      }
    case List(_, items) =>
      forall i | 0 <= i < |items| && i < |current.items| ensures Compatible(current.items[i], items[i]) {
        FramedIsCompatible(current.items[i], items[i], result.items[i]);
      }
  }

  lemma MergeAnswers(current: Json, new_: Json)
    ensures IsAnswer(current, new_,
      if Compatible(current, new_) then Updated(Merge(current, new_), !Covers(current, new_)) else Panic)
  {
    CompatibleExactly(current, new_);
    CoveredIsFixed(current, new_);
    if Compatible(current, new_) {
      MergeIsTheFramedCover(current, new_, Merge(current, new_));
    }
  }

  /** A second pass with the same update changes nothing. */
  lemma {:induction false} MergeIsIdempotent(current: Json, new_: Json)
    requires Compatible(current, new_)
    ensures Covers(Merge(current, new_), new_)
    ensures Compatible(Merge(current, new_), new_)
    ensures Merge(Merge(current, new_), new_) == Merge(current, new_)
  {
    MergeIsTheFramedCover(current, new_, Merge(current, new_));
    CoveredIsFixed(Merge(current, new_), new_);
  }

  /** Updating is an action of the updates on the documents: two updates in a row are one merged update.
      The two sides are defined on the same inputs once the first update applies. */
  lemma {:induction false} MergeIsAnAction(a: Json, b: Json, c: Json)
    requires Compatible(a, b)
    ensures Compatible(Merge(a, b), c) <==> Compatible(b, c) && Compatible(a, Merge(b, c))
    ensures Compatible(Merge(a, b), c) ==> Merge(Merge(a, b), c) == Merge(a, Merge(b, c))
    decreases c
  {
    match c
    case Leaf(_) =>
    case Obj(n) =>
      if b.Obj? {
        ActionOnFields(a, b, c);
      }
    case List(_, items) =>
      if b.List? && a.kind == c.kind {
        ActionOnItems(a, b, c);
      }
  }

  lemma {:induction false} ActionOnFields(a: Json, b: Json, c: Json)
    requires a.Obj? && b.Obj? && c.Obj? && Compatible(a, b)
    ensures Compatible(Merge(a, b), c) <==> Compatible(b, c) && Compatible(a, Merge(b, c))
    ensures Compatible(Merge(a, b), c) ==> Merge(Merge(a, b), c) == Merge(a, Merge(b, c))
    decreases c, 0
  {
    var fa, fb, fc := a.fields, b.fields, c.fields;
    forall k | k in fa && k in fb && k in fc
      ensures Compatible(Merge(fa[k], fb[k]), fc[k]) <==> Compatible(fb[k], fc[k]) && Compatible(fa[k], Merge(fb[k], fc[k]))
      ensures Compatible(Merge(fa[k], fb[k]), fc[k]) ==> Merge(Merge(fa[k], fb[k]), fc[k]) == Merge(fa[k], Merge(fb[k], fc[k]))
    { MergeIsAnAction(fa[k], fb[k], fc[k]); }
    var ab := Merge(a, b);
    if Compatible(ab, c) {
      forall k | k in fc && k in fb ensures Compatible(fb[k], fc[k]) {
        assert k in ab.fields;
      }
      var bc := Merge(b, c);
      forall k | k in bc.fields && k in fa ensures Compatible(fa[k], bc.fields[k]) {
        if k in fc && k !in fb { assert k in ab.fields && ab.fields[k] == fa[k]; }
      }
      assert Merge(ab, c).fields == Merge(a, bc).fields;
    }
    if Compatible(b, c) && Compatible(a, Merge(b, c)) {
      var bc := Merge(b, c);
      forall k | k in fc && k in ab.fields ensures Compatible(ab.fields[k], fc[k]) {
        assert k in bc.fields;
      }
    }
  }

  lemma {:induction false} ActionOnItems(a: Json, b: Json, c: Json)
    requires a.List? && b.List? && c.List? && a.kind == b.kind == c.kind && Compatible(a, b)
    ensures Compatible(Merge(a, b), c) <==> Compatible(b, c) && Compatible(a, Merge(b, c))
    ensures Compatible(Merge(a, b), c) ==> Merge(Merge(a, b), c) == Merge(a, Merge(b, c))
    decreases c, 0
  {
    var xa, xb, xc := a.items, b.items, c.items;
    forall i | 0 <= i < |xa| && i < |xb| && i < |xc|
      ensures Compatible(Merge(xa[i], xb[i]), xc[i]) <==> Compatible(xb[i], xc[i]) && Compatible(xa[i], Merge(xb[i], xc[i]))
      ensures Compatible(Merge(xa[i], xb[i]), xc[i]) ==> Merge(Merge(xa[i], xb[i]), xc[i]) == Merge(xa[i], Merge(xb[i], xc[i]))
    { MergeIsAnAction(xa[i], xb[i], xc[i]); }
    var ab := Merge(a, b);
    if Compatible(ab, c) {
      forall i | 0 <= i < |xc| && i < |xb| ensures Compatible(xb[i], xc[i]) {
        assert i < |ab.items|;
        assert Compatible(ab.items[i], xc[i]);
      }
      var bc := Merge(b, c);
      forall i | 0 <= i < |bc.items| && i < |xa| ensures Compatible(xa[i], bc.items[i]) {
        if i < |xc| { assert Compatible(ab.items[i], xc[i]); }
      }
      assert Merge(ab, c).items == Merge(a, bc).items;
    }
    if Compatible(b, c) && Compatible(a, Merge(b, c)) {
      var bc := Merge(b, c);
      forall i | 0 <= i < |xc| && i < |ab.items| ensures Compatible(ab.items[i], xc[i]) {
        assert i < |bc.items|;
        if i < |xa| { assert Compatible(xa[i], bc.items[i]); }
      }
    }
  }

  /** The two ways, one update after the other and merged updates, are defined together. */
  ghost predicate SameDomain(a: Json, b: Json, c: Json) {
    (Compatible(a, b) && Compatible(Merge(a, b), c)) <==> (Compatible(b, c) && Compatible(a, Merge(b, c)))
  }

  /** For that the first update must apply, and that is all it takes: otherwise there is a second one that
      hides the clash when it is merged first. */
  lemma MergingFirstAgreesExactly(a: Json, b: Json)
    ensures Compatible(a, b) <==> forall c :: SameDomain(a, b, c)
  {
    if Compatible(a, b) {
      forall c ensures SameDomain(a, b, c) {
        MergeIsAnAction(a, b, c);
      }
    } else {
      assert !SameDomain(a, b, Leaf(Nil));
    }
  }

  /** The same holds among maps, which is all that the merge of two objects sees at the top. */
  lemma MergingMapsFirstAgreesExactly(a: Json, b: Json)
    requires a.Obj? && b.Obj?
    ensures Compatible(a, b) <==> forall c: Json | c.Obj? :: SameDomain(a, b, c)
  {
    if Compatible(a, b) {
      MergingFirstAgreesExactly(a, b);
    } else {
      var c := Obj(map k | k in b.fields :: Leaf(Nil));
      assert Compatible(b, c);
      assert forall k | k in b.fields :: Merge(b, c).fields[k] == Leaf(Nil);
      assert Compatible(a, Merge(b, c));
      assert !SameDomain(a, b, c);
    }
  }

  /** Such a clash: a leaf where the update has a map. */
  lemma MergingFirstCanHideAClash()
    ensures exists a, b, c :: Compatible(b, c) && Compatible(a, Merge(b, c)) && !Compatible(a, b)
  {
    var leaf := Leaf(Nil);
    var a := Obj(map["k" := leaf]);
    var b := Obj(map["k" := Obj(map[])]);
    var c := Obj(map["k" := leaf]);
    assert Compatible(Obj(map[]), leaf);
    assert Compatible(b, c);
    assert Merge(b, c).fields["k"] == leaf;
    assert Compatible(a, Merge(b, c));
    assert !Compatible(a.fields["k"], b.fields["k"]);
  }
}
