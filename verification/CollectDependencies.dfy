/** Flattening the dependencies of a package over the workspace modules (`@sf...`) it uses. */
module CollectDependencies {

  /** Dependency name to version. */
  type Deps = map<string, string>

  /** The lock file as a partial function: the dependencies it gives for a module. */
  type LockFile = map<string, Deps>

  /** The script ends with the dependencies, or exits because two versions disagree or because a module is
      not in the lock file. */
  datatype Outcome = Collected(deps: Deps) | Inconsistent(name: string, here: string, there: string) | Missing(name: string)

  predicate IsSfMod(name: string) { "@sf" <= name }

  /** Workspace modules are told by the first three letters of their names. */
  lemma WorkspaceNames(name: string)
    ensures IsSfMod(name) <==> |name| >= 3 && name[0] == '@' && name[1] == 's' && name[2] == 'f'
  {
    assert |name| >= 3 ==> name[..3] == [name[0], name[1], name[2]];
  }

  // ---- What is to be collected ----

  /** A chain of workspace modules, the first listed by `root` and each next one by its predecessor. */
  ghost predicate IsChain(lock: LockFile, root: Deps, chain: seq<string>) {
    && |chain| > 0
    && chain[0] in root
    && (forall i | 0 <= i < |chain| :: IsSfMod(chain[i]))
    && (forall i {:trigger chain[i]} | 0 <= i < |chain| - 1 :: chain[i] in lock && chain[i + 1] in lock[chain[i]])
  }

  ghost predicate Reachable(lock: LockFile, root: Deps, mod: string) {
    exists chain :: IsChain(lock, root, chain) && chain[|chain| - 1] == mod
  }

  ghost predicate Lists(lock: LockFile, mod: string, d: string, v: string) {
    mod in lock && d in lock[mod] && lock[mod][d] == v
  }

  /** `root` or a reachable module lists the outside dependency `d` at version `v`. */
  ghost predicate Needs(lock: LockFile, root: Deps, d: string, v: string) {
    && !IsSfMod(d)
    && ((d in root && root[d] == v) || exists mod :: Reachable(lock, root, mod) && Lists(lock, mod, d, v))
  }

  ghost predicate Conflicting(lock: LockFile, root: Deps) {
    exists d, v, w :: v != w && Needs(lock, root, d, v) && Needs(lock, root, d, w)
  }

  ghost predicate Complete(lock: LockFile, root: Deps) {
    forall mod | Reachable(lock, root, mod) :: mod in lock
  }

  ghost predicate IsClosure(lock: LockFile, root: Deps, deps: Deps) {
    && (forall d | d in deps :: Needs(lock, root, d, deps[d]))
    && (forall d, v | Needs(lock, root, d, v) :: d in deps && deps[d] == v)
  }

  // ---- Reachability ----

  lemma DirectIsReachable(lock: LockFile, root: Deps, mod: string)
    requires mod in root && IsSfMod(mod)
    ensures Reachable(lock, root, mod)
  {
    assert IsChain(lock, root, [mod]);
  }

  lemma ReachableThrough(lock: LockFile, root: Deps, via: string, mod: string)
    requires via in root && IsSfMod(via) && via in lock && Reachable(lock, lock[via], mod)
    ensures Reachable(lock, root, mod)
  {
    var chain :| IsChain(lock, lock[via], chain) && chain[|chain| - 1] == mod;
    var longer := [via] + chain;
    assert IsChain(lock, root, longer) && longer[|longer| - 1] == mod;
  }

  /** A set that contains the root's modules and is closed under listing contains every chain. */
  lemma {:induction false} ClosedContainsChains(lock: LockFile, root: Deps, closed: set<string>, chain: seq<string>)
    requires forall m | m in root && IsSfMod(m) :: m in closed
    requires forall m, n | m in closed && m in lock && n in lock[m] && IsSfMod(n) :: n in closed
    requires IsChain(lock, root, chain)
    ensures chain[|chain| - 1] in closed
  {
    if |chain| > 1 {
      ClosedContainsChains(lock, root, closed, chain[..|chain| - 1]);
    }
  }

  /** The collected dependencies are determined by the graph alone, so no iteration order shows. */
  lemma ClosureIsUnique(lock: LockFile, root: Deps, a: Deps, b: Deps)
    requires IsClosure(lock, root, a) && IsClosure(lock, root, b)
    ensures a == b
  {
  }

  // ---- The script ----

  method Merge(deps: Deps, tempDeps: Deps) returns (r: Outcome)
    ensures r.Collected? ==>
        && r.deps == deps + tempDeps
        && forall k | k in deps && k in tempDeps :: deps[k] == tempDeps[k]
    ensures r.Inconsistent? ==>
        && r.name in deps && r.name in tempDeps
        && r.here == deps[r.name] && r.there == tempDeps[r.name] && r.here != r.there
    ensures !r.Missing?
  {
    var merged, pending := deps, tempDeps.Keys;
    while pending != {}
      invariant pending <= tempDeps.Keys
      invariant merged == deps + (map k | k in tempDeps && k !in pending :: tempDeps[k])
      invariant forall k | k in deps && k in tempDeps && k !in pending :: deps[k] == tempDeps[k]
    {
      var childModDep :| childModDep in pending;
      if childModDep in merged {
        if merged[childModDep] != tempDeps[childModDep] {
          return Inconsistent(childModDep, merged[childModDep], tempDeps[childModDep]);
        }
      } else {
        merged := merged[childModDep := tempDeps[childModDep]];
      }
      pending := pending - {childModDep};
    }
    r := Collected(merged);
  }

  /** What one call has gathered: from the names of `modDeps` in `done`, and from the modules it was the
      first to visit. */
  ghost predicate Gathered(lock: LockFile, d: string, v: string, modDeps: Deps, done: set<string>, fresh_: set<string>) {
    && !IsSfMod(d)
    && ((d in done && d in modDeps && modDeps[d] == v) || exists m :: m in fresh_ && Lists(lock, m, d, v))
  }

  ghost predicate IsGathered(lock: LockFile, deps: Deps, modDeps: Deps, done: set<string>, fresh_: set<string>) {
    && (forall d | d in deps :: Gathered(lock, d, deps[d], modDeps, done, fresh_))
    && (forall d, v | Gathered(lock, d, v, modDeps, done, fresh_) :: d in deps && deps[d] == v)
  }

  /** Newly visited modules were reached from `modDeps` and have only visited modules below them. */
  ghost predicate Explored(lock: LockFile, modDeps: Deps, fresh_: set<string>, seen: set<string>) {
    && (forall m | m in fresh_ :: m in lock && Reachable(lock, modDeps, m))
    && (forall m, n | m in fresh_ && m in lock && n in lock[m] && IsSfMod(n) :: n in seen)
  }

  /** Two versions that one call comes across are both needed. */
  lemma GatheredIsNeeded(lock: LockFile, modDeps: Deps, done: set<string>, fresh_: set<string>, d: string, v: string)
    requires Gathered(lock, d, v, modDeps, done, fresh_)
    requires forall m | m in fresh_ :: Reachable(lock, modDeps, m)
    ensures Needs(lock, modDeps, d, v)
  {
  }

  /** What is needed below a module is needed by whoever uses the module. */
  lemma LiftNeeds(lock: LockFile, modDeps: Deps, dep: string)
    requires dep in modDeps && IsSfMod(dep) && dep in lock
    ensures forall m | Reachable(lock, lock[dep], m) :: Reachable(lock, modDeps, m)
    ensures forall d, v | Needs(lock, lock[dep], d, v) :: Needs(lock, modDeps, d, v)
  {
    DirectIsReachable(lock, modDeps, dep);
    forall m | Reachable(lock, lock[dep], m) ensures Reachable(lock, modDeps, m) {
      ReachableThrough(lock, modDeps, dep, m);
    }
    forall d, v | Needs(lock, lock[dep], d, v) ensures Needs(lock, modDeps, d, v) {
      if d in lock[dep] && lock[dep][d] == v {
        assert Lists(lock, dep, d, v);
      }
    }
  }

  /** Passing over a name that adds nothing: a visited module, or a version already there. */
  lemma PassOver(lock: LockFile, deps: Deps, modDeps: Deps, done: set<string>, dep: string, fresh_: set<string>)
    requires IsGathered(lock, deps, modDeps, done, fresh_) && dep in modDeps
    requires IsSfMod(dep) || (dep in deps && deps[dep] == modDeps[dep])
    ensures IsGathered(lock, deps, modDeps, done + {dep}, fresh_)
  {
    forall d, v | Gathered(lock, d, v, modDeps, done + {dep}, fresh_) ensures d in deps && deps[d] == v {
      assert Gathered(lock, d, v, modDeps, done, fresh_);
    }
  }

  lemma AddOutside(lock: LockFile, deps: Deps, modDeps: Deps, done: set<string>, dep: string, fresh_: set<string>)
    requires IsGathered(lock, deps, modDeps, done, fresh_) && dep in modDeps && !IsSfMod(dep) && dep !in deps
    ensures IsGathered(lock, deps[dep := modDeps[dep]], modDeps, done + {dep}, fresh_)
  {
    forall d, v | Gathered(lock, d, v, modDeps, done + {dep}, fresh_)
      ensures d in deps[dep := modDeps[dep]] && deps[dep := modDeps[dep]][d] == v
    {
      assert Gathered(lock, d, v, modDeps, done, fresh_) || (d == dep && v == modDeps[dep]);
    }
    forall d | d in deps ensures Gathered(lock, d, deps[d], modDeps, done + {dep}, fresh_) {
      assert Gathered(lock, d, deps[d], modDeps, done, fresh_);
    }
  }

  /** What a nested call gathered below `dep` belongs to the caller. */
  lemma NestedIsGathered(lock: LockFile, tempDeps: Deps, dep: string, theirs: set<string>, modDeps: Deps, done: set<string>, mine: set<string>)
    requires dep in lock && IsGathered(lock, tempDeps, lock[dep], lock[dep].Keys, theirs)
    requires dep in mine && theirs <= mine
    ensures forall d | d in tempDeps :: Gathered(lock, d, tempDeps[d], modDeps, done, mine)
  {
  }

  lemma AbsorbModule(lock: LockFile, deps: Deps, tempDeps: Deps, modDeps: Deps, done: set<string>, dep: string,
                     before: set<string>, theirs: set<string>)
    requires IsGathered(lock, deps, modDeps, done, before)
    requires IsSfMod(dep) && dep in lock && IsGathered(lock, tempDeps, lock[dep], lock[dep].Keys, theirs)
    requires forall k | k in deps && k in tempDeps :: deps[k] == tempDeps[k]
    ensures IsGathered(lock, deps + tempDeps, modDeps, done + {dep}, before + {dep} + theirs)
  {
    var mine := before + {dep} + theirs;
    NestedIsGathered(lock, tempDeps, dep, theirs, modDeps, done + {dep}, mine);
    forall d | d in deps ensures Gathered(lock, d, deps[d], modDeps, done + {dep}, mine) {
      assert Gathered(lock, d, deps[d], modDeps, done, before);
    }
    forall d, v | Gathered(lock, d, v, modDeps, done + {dep}, mine)
      ensures d in deps + tempDeps && (deps + tempDeps)[d] == v
    {
      if !Gathered(lock, d, v, modDeps, done, before) {
        var m :| m in mine && Lists(lock, m, d, v);
        assert m == dep || m in theirs;
        assert Gathered(lock, d, v, lock[dep], lock[dep].Keys, theirs);
      }
    }
  }

  class Collector {
    const lock: LockFile
    var visited: set<string>

    constructor (lock: LockFile)
      ensures this.lock == lock && visited == {}
    {
      this.lock := lock;
      visited := {};
    }

    method CollectAllDeps(modDeps: Deps) returns (r: Outcome)
      modifies this
      decreases lock.Keys - visited
      ensures old(visited) <= visited
      ensures r.Collected? ==>
          && Explored(lock, modDeps, visited - old(visited), visited)
          && (forall m | m in modDeps && IsSfMod(m) :: m in visited)
          && IsGathered(lock, r.deps, modDeps, modDeps.Keys, visited - old(visited))
      ensures r.Inconsistent? ==>
          && r.here != r.there
          && Needs(lock, modDeps, r.name, r.here) && Needs(lock, modDeps, r.name, r.there)
      ensures r.Missing? ==> Reachable(lock, modDeps, r.name) && r.name !in lock
    {
      var deps: Deps := map[];
      var pending := modDeps.Keys;
      ghost var done: set<string>, fresh_: set<string> := {}, {};
      while pending != {}
        invariant done + pending == modDeps.Keys
        invariant old(visited) <= visited && fresh_ == visited - old(visited)
        invariant Explored(lock, modDeps, fresh_, visited)
        invariant forall m | m in done && IsSfMod(m) :: m in visited
        invariant IsGathered(lock, deps, modDeps, done, fresh_)
        decreases pending
      {
        var dep :| dep in pending;
        pending := pending - {dep};
        if IsSfMod(dep) {
          if dep in visited {
            PassOver(lock, deps, modDeps, done, dep, fresh_);
            done := done + {dep};
            continue;
          }
          visited := visited + {dep};
          DirectIsReachable(lock, modDeps, dep);
          if dep !in lock { return Missing(dep); }
          ghost var marked := visited;
          var below := CollectAllDeps(lock[dep]);
          LiftNeeds(lock, modDeps, dep);
          if !below.Collected? { return below; }
          ghost var theirs := visited - marked;
          ghost var mine := fresh_ + {dep} + theirs;
          assert mine == visited - old(visited);
          var tempDeps := below.deps;
          NestedIsGathered(lock, tempDeps, dep, theirs, modDeps, {}, mine);
          var merged := Merge(deps, tempDeps);
          if merged.Inconsistent? {
            GatheredIsNeeded(lock, modDeps, done, fresh_, merged.name, merged.here);
            GatheredIsNeeded(lock, modDeps, {}, mine, merged.name, merged.there);
            return merged;
          }
          AbsorbModule(lock, deps, tempDeps, modDeps, done, dep, fresh_, theirs);
          deps, fresh_ := merged.deps, mine;
        } else if dep in deps {
          if deps[dep] != modDeps[dep] {
            GatheredIsNeeded(lock, modDeps, done, fresh_, dep, deps[dep]);
            return Inconsistent(dep, deps[dep], modDeps[dep]);
          }
          PassOver(lock, deps, modDeps, done, dep, fresh_);
        } else {
          AddOutside(lock, deps, modDeps, done, dep, fresh_);
          deps := deps[dep := modDeps[dep]];
        }
        done := done + {dep};
      }
      assert done == modDeps.Keys;
      r := Collected(deps);
    }
  }

  /** The whole script, on any lock file, cyclic or not: it ends with the closure exactly when every
      reachable module is in the lock file and no dependency is needed at two versions. */
  method CollectFromRoot(lock: LockFile, dependencies: Deps) returns (r: Outcome)
    ensures r.Collected? <==> Complete(lock, dependencies) && !Conflicting(lock, dependencies)
    ensures r.Collected? ==> IsClosure(lock, dependencies, r.deps)
    ensures r.Inconsistent? ==> Conflicting(lock, dependencies)
    ensures r.Missing? ==> !Complete(lock, dependencies)
  {
    var collector := new Collector(lock);
    r := collector.CollectAllDeps(dependencies);
    if r.Collected? {
      ghost var visited := collector.visited;
      forall m | Reachable(lock, dependencies, m) ensures m in visited {
        var chain :| IsChain(lock, dependencies, chain) && chain[|chain| - 1] == m;
        ClosedContainsChains(lock, dependencies, visited, chain);
      }
      assert visited - {} == visited;
      assert forall d, v :: Gathered(lock, d, v, dependencies, dependencies.Keys, visited) <==> Needs(lock, dependencies, d, v);
    }
  }
}
