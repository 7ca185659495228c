/** The cache of the BOSH client that tells which director runs a deployment. */
module DirectorCache {
  import opened Wrappers

  datatype Director = Director(name: string, primary: bool)

  /** What a director answers when asked for its deployments. */
  datatype Listing = Listing(director: Director, deployments: seq<string>)

  datatype Entry = Found(director: Director) | Duped

  datatype Reply = Config(entry: Option<Director>) | Conflict | NotFound

  // ---- What the cache should say ----

  /** The directors that list the deployment, in the order in which their listings arrived. */
  function ListedBy(arrivals: seq<Listing>, deployment: string): seq<Director> {
    if arrivals == [] then []
    else
      var n := |arrivals| - 1;
      ListedBy(arrivals[..n], deployment) + OneIf(deployment in arrivals[n].deployments, arrivals[n].director)
  }

  function OneIf(listed: bool, director: Director): seq<Director> {
    if listed then [director] else []
  }

  ghost function Listers(arrivals: seq<Listing>, deployment: string): set<Director> {
    set l | l in arrivals && deployment in l.deployments :: l.director
  }

  ghost function Among(directors: seq<Director>): set<Director> {
    set d | d in directors
  }

  ghost predicate NamesDiffer(directors: set<Director>) {
    exists a, b :: a in directors && b in directors && a.name != b.name
  }

  /** An entry in terms of arrivals: nothing if nobody lists the deployment, the first one to do so if all that
      do share its name, and the duplicate marker otherwise. */
  ghost function Verdict(directors: seq<Director>): Option<Entry> {
    if directors == [] then None
    else if forall d | d in directors :: d.name == directors[0].name then Some(Found(directors[0]))
    else Some(Duped)
  }

  /** What the cache ought to say about a deployment that these directors run. */
  ghost predicate Agrees(entry: Option<Entry>, listers: set<Director>) {
    match entry
    case None => listers == {}
    case Some(Found(director)) => listers == {director}
    case Some(Duped) => |listers| >= 2
  }

  ghost predicate AnswersFor(reply: Reply, listers: set<Director>, mustExist: bool) {
    match reply
    case Config(Some(director)) => listers == {director}
    case Config(None) => listers == {} && !mustExist
    case NotFound => listers == {} && mustExist
    case Conflict => |listers| >= 2
  }

  /** Names tell these directors apart as far as it matters: there is at most one, or two names show. */
  ghost predicate ToldApart(listers: set<Director>) {
    |listers| <= 1 || NamesDiffer(listers)
  }

  function Lookup(cache: map<string, Entry>, deployment: string): Option<Entry> {
    if deployment in cache then Some(cache[deployment]) else None
  }

  /** The cache says of every deployment what these arrivals amount to. */
  ghost predicate Reflects(cache: map<string, Entry>, arrivals: seq<Listing>) {
    forall deployment: string :: Lookup(cache, deployment) == Verdict(ListedBy(arrivals, deployment))
  }

  // ---- When that is right, whatever the order ----

  lemma TwoOf(a: Director, b: Director, s: set<Director>)
    requires a in s && b in s && a != b
    ensures |s| >= 2
  {
    assert |s - {a}| == |s| - 1 && b in s - {a};
  }

  lemma AtMostOne(a: Director, b: Director, s: set<Director>)
    requires a in s && b in s && |s| <= 1
    ensures a == b
  {
    if a != b { TwoOf(a, b, s); }
  }

  /** An entry names the right directors if and only if their names tell them apart. */
  lemma VerdictAgrees(directors: seq<Director>)
    ensures Agrees(Verdict(directors), Among(directors)) <==> ToldApart(Among(directors))
  {
    var s := Among(directors);
    if directors != [] {
      var first := directors[0];
      if |s| <= 1 {
        forall d | d in directors ensures d == first { AtMostOne(d, first, s); }
        assert s == {first};
      } else if forall d | d in directors :: d.name == first.name {
        assert !NamesDiffer(s) && s != {first};
      } else {
        var d :| d in directors && d.name != first.name;
        assert first in s && d in s;
      }
    } else {
      assert s == {};
    }
  }

  lemma {:induction false} ListedAreListers(arrivals: seq<Listing>, deployment: string)
    ensures Among(ListedBy(arrivals, deployment)) == Listers(arrivals, deployment)
  {
    if arrivals != [] {
      var n := |arrivals| - 1;
      ListedAreListers(arrivals[..n], deployment);
      var before, last := ListedBy(arrivals[..n], deployment), OneIf(deployment in arrivals[n].deployments, arrivals[n].director);
      assert Among(before + last) == Among(before) + Among(last);
      assert Listers(arrivals, deployment) == Listers(arrivals[..n], deployment) + Among(last) by {
        assert arrivals == arrivals[..n] + [arrivals[n]];
      }
    }
  }

  /** The entry of a deployment is right for every order of arrival if and only if names tell its directors
      apart. */
  lemma EntryAgrees(arrivals: seq<Listing>, deployment: string)
    ensures Agrees(Verdict(ListedBy(arrivals, deployment)), Listers(arrivals, deployment))
       <==> ToldApart(Listers(arrivals, deployment))
  {
    ListedAreListers(arrivals, deployment);
    VerdictAgrees(ListedBy(arrivals, deployment));
  }

  /** What the entry of a deployment says: nothing if nobody lists it, the duplicate marker if two that do differ in
      name, and otherwise the director whose listing arrived first of those that list it. */
  lemma EntryReads(arrivals: seq<Listing>, deployment: string)
    ensures var entry, listers := Verdict(ListedBy(arrivals, deployment)), Listers(arrivals, deployment);
      && (entry == None <==> listers == {})
      && (entry == Some(Duped) <==> exists a, b :: a in listers && b in listers && a.name != b.name)
      && forall i | IsFirst(arrivals, i, deployment) :: entry == Some(Duped) || entry == Some(Found(arrivals[i].director))
  {
    ListedAreListers(arrivals, deployment);
    var directors := ListedBy(arrivals, deployment);
    assert forall d :: d in directors <==> d in Listers(arrivals, deployment);
    if directors == [] {
      assert Listers(arrivals, deployment) == {};
    } else {
      assert directors[0] in directors;
    }
    forall i | IsFirst(arrivals, i, deployment) ensures directors != [] && directors[0] == arrivals[i].director {
      FirstIsListed(arrivals, i, deployment);
    }
  }

  ghost predicate IsFirst(arrivals: seq<Listing>, i: int, deployment: string) {
    && 0 <= i < |arrivals| && deployment in arrivals[i].deployments
    && forall j | 0 <= j < i :: deployment !in arrivals[j].deployments
  }

  lemma {:induction false} NotListedYet(arrivals: seq<Listing>, deployment: string)
    requires forall l | l in arrivals :: deployment !in l.deployments
    ensures ListedBy(arrivals, deployment) == []
  {
    if arrivals != [] { NotListedYet(arrivals[..|arrivals| - 1], deployment); }
  }

  lemma {:induction false} FirstIsListed(arrivals: seq<Listing>, i: nat, deployment: string)
    requires IsFirst(arrivals, i, deployment)
    ensures var directors := ListedBy(arrivals, deployment); directors != [] && directors[0] == arrivals[i].director
  {
    var n := |arrivals| - 1;
    var init := arrivals[..n];
    if i < n {
      assert IsFirst(init, i, deployment) && init[i] == arrivals[i];
      FirstIsListed(init, i, deployment);
      assert ListedBy(init, deployment) <= ListedBy(arrivals, deployment);
    } else {
      NotListedYet(init, deployment);
      assert ListedBy(arrivals, deployment) == [arrivals[n].director];
    }
  }

  /** The entry of a deployment is the same for every order of these arrivals. */
  ghost predicate OrderCannotShow(arrivals: seq<Listing>, deployment: string) {
    forall other: seq<Listing> | multiset(other) == multiset(arrivals) ::
      Verdict(ListedBy(other, deployment)) == Verdict(ListedBy(arrivals, deployment))
  }

  lemma OneVerdict(a: Option<Entry>, b: Option<Entry>, listers: set<Director>)
    requires Agrees(a, listers) && Agrees(b, listers)
    ensures a == b
  {
    if a.Some? && a.value.Found? && b.Some? && b.value.Found? {
      assert a.value.director in listers;
    }
  }

  lemma SameListers(a: seq<Listing>, b: seq<Listing>, deployment: string)
    requires multiset(a) == multiset(b)
    ensures Listers(a, deployment) == Listers(b, deployment)
  {
    forall l ensures l in a <==> l in b {
      assert l in a <==> l in multiset(a);
      assert l in b <==> l in multiset(b);
    }
  }

  lemma {:induction false} FirstStaysFirst(l: Listing, rest: seq<Listing>, deployment: string)
    requires deployment in l.deployments
    ensures ListedBy([l] + rest, deployment) != [] && ListedBy([l] + rest, deployment)[0] == l.director
  {
    var all := [l] + rest;
    if rest == [] {
      assert all == [l] && all[..0] == [];
    } else {
      var n := |rest| - 1;
      FirstStaysFirst(l, rest[..n], deployment);
      assert all[..n + 1] == [l] + rest[..n];
      assert ListedBy(all, deployment)[0] == ListedBy(all[..n + 1], deployment)[0];
    }
  }

  /** Any listing may arrive first, and then its director comes first. */
  lemma BroughtForward(arrivals: seq<Listing>, i: nat, deployment: string) returns (other: seq<Listing>)
    requires i < |arrivals| && deployment in arrivals[i].deployments
    ensures multiset(other) == multiset(arrivals)
    ensures ListedBy(other, deployment) != [] && ListedBy(other, deployment)[0] == arrivals[i].director
  {
    var rest := arrivals[..i] + arrivals[i + 1..];
    other := [arrivals[i]] + rest;
    assert arrivals == arrivals[..i] + ([arrivals[i]] + arrivals[i + 1..]);
    FirstStaysFirst(arrivals[i], rest, deployment);
  }

  /** The order of arrival cannot show if and only if names tell the directors of the deployment apart. */
  lemma OrderShowsExactly(arrivals: seq<Listing>, deployment: string)
    ensures OrderCannotShow(arrivals, deployment) <==> ToldApart(Listers(arrivals, deployment))
  {
    if ToldApart(Listers(arrivals, deployment)) {
      forall other: seq<Listing> | multiset(other) == multiset(arrivals)
        ensures Verdict(ListedBy(other, deployment)) == Verdict(ListedBy(arrivals, deployment))
      {
        SameListers(other, arrivals, deployment);
        EntryAgrees(other, deployment);
        EntryAgrees(arrivals, deployment);
        OneVerdict(Verdict(ListedBy(other, deployment)), Verdict(ListedBy(arrivals, deployment)), Listers(arrivals, deployment));
      }
    } else {
      OneNameShows(arrivals, deployment);
    }
  }

  /** Of several directors of one name the first to arrive stays, whichever that is. */
  lemma OneNameShows(arrivals: seq<Listing>, deployment: string)
    requires !ToldApart(Listers(arrivals, deployment))
    ensures !OrderCannotShow(arrivals, deployment)
  {
    var directors, listers := ListedBy(arrivals, deployment), Listers(arrivals, deployment);
    ListedAreListers(arrivals, deployment);
    assert directors == [] ==> listers == {};
    var first := directors[0];
    assert first in listers;
    assert (forall d | d in listers :: d == first) ==> listers == {first};
    var second :| second in listers && second != first;
    var l :| l in arrivals && deployment in l.deployments && l.director == second;
    var i :| 0 <= i < |arrivals| && arrivals[i] == l;
    var other := BroughtForward(arrivals, i, deployment);
    SameListers(other, arrivals, deployment);
    ListedAreListers(other, deployment);
    OneNameFirst(directors);
    OneNameFirst(ListedBy(other, deployment));
  }

  lemma OneNameFirst(directors: seq<Director>)
    requires directors != [] && !NamesDiffer(Among(directors))
    ensures Verdict(directors) == Some(Found(directors[0]))
  {
    assert directors[0] in Among(directors);
    assert forall d | d in directors :: d in Among(directors);
  }

  /** Uniquely named directors are always told apart. */
  lemma NamedAreToldApart(directors: set<Director>, listers: set<Director>)
    requires forall a, b | a in directors && b in directors :: a.name == b.name ==> a == b
    requires listers <= directors
    ensures ToldApart(listers)
  {
    if |listers| > 1 {
      var a :| a in listers;
      assert |listers - {a}| > 0;
      var b :| b in listers - {a};
      assert a.name != b.name;
    }
  }

  // ---- The code ----

  /** The entry after one more director was seen to list the deployment. */
  function Seen(entry: Option<Entry>, director: Director): Entry {
    match entry
    case None => Found(director)
    case Some(Found(first)) => if first.name == director.name then Found(first) else Duped
    case Some(Duped) => Duped
  }

  lemma SeenIsVerdict(directors: seq<Director>, director: Director)
    ensures Verdict(directors + [director]) == Some(Seen(Verdict(directors), director))
  {
    var more := directors + [director];
    assert forall d :: d in more <==> d in directors || d == director;
    if directors != [] {
      assert more[0] == directors[0];
    }
  }

  /** Seeing the same director again changes nothing. */
  lemma SeenAgain(directors: seq<Director>, director: Director)
    ensures Verdict(directors + [director]) == Some(Seen(Verdict(directors + [director]), director))
  {
    SeenIsVerdict(directors, director);
  }

  /** As `Reflects`, with this director having listed some more deployments. */
  ghost predicate ReflectsAlso(cache: map<string, Entry>, arrivals: seq<Listing>, director: Director, more: seq<string>) {
    forall deployment: string ::
      Lookup(cache, deployment) == Verdict(ListedBy(arrivals, deployment) + OneIf(deployment in more, director))
  }

  lemma AlsoOneMore(cache: map<string, Entry>, arrivals: seq<Listing>, director: Director, more: seq<string>, d: string)
    requires ReflectsAlso(cache, arrivals, director, more)
    ensures ReflectsAlso(cache[d := Seen(Lookup(cache, d), director)], arrivals, director, more + [d])
  {
    var cache' := cache[d := Seen(Lookup(cache, d), director)];
    forall e: string ensures Lookup(cache', e) == Verdict(ListedBy(arrivals, e) + OneIf(e in more + [d], director)) {
      var before := ListedBy(arrivals, e);
      assert Lookup(cache, e) == Verdict(before + OneIf(e in more, director));
      assert e in more + [d] <==> e in more || e == d;
      if e == d {
        assert before + [] == before;
        SeenIsVerdict(before, director);
        SeenAgain(before, director);
      }
    }
  }

  class BoshDirectorClient {
    var boshConfigCache: map<string, Entry>

    method UpdateConfigCacheEntry(deployment: string, director: Director)
      modifies this
      ensures boshConfigCache == old(boshConfigCache)[deployment := Seen(Lookup(old(boshConfigCache), deployment), director)]
    {
      if deployment !in boshConfigCache {
        boshConfigCache := boshConfigCache[deployment := Found(director)];
      } else {
        var entry := boshConfigCache[deployment];
        if !(entry.Found? && entry.director.name == director.name) {
          boshConfigCache := boshConfigCache[deployment := Duped];
        }
      }
    }

    /** The listing of one more director arrives. */
    method UpdateCache(director: Director, deployments: seq<string>, ghost arrivals: seq<Listing>)
      requires Reflects(boshConfigCache, arrivals)
      modifies this
      ensures Reflects(boshConfigCache, arrivals + [Listing(director, deployments)])
    {
      assert forall e: string :: ListedBy(arrivals, e) + OneIf(e in deployments[..0], director) == ListedBy(arrivals, e);
      for i := 0 to |deployments|
        invariant ReflectsAlso(boshConfigCache, arrivals, director, deployments[..i])
      {
        AlsoOneMore(boshConfigCache, arrivals, director, deployments[..i], deployments[i]);
        UpdateConfigCacheEntry(deployments[i], director);
        assert deployments[..i + 1] == deployments[..i] + [deployments[i]];
      }
      assert deployments[..|deployments|] == deployments;
      ghost var more := arrivals + [Listing(director, deployments)];
      assert more[..|more| - 1] == arrivals;
    }

    /** Loads the whole cache; the listings come in this order. */
    method PopulateConfigCache(arrivals: seq<Listing>)
      modifies this
      ensures Reflects(boshConfigCache, arrivals)
    {
      boshConfigCache := map[];
      for i := 0 to |arrivals|
        invariant Reflects(boshConfigCache, arrivals[..i])
      {
        UpdateCache(arrivals[i].director, arrivals[i].deployments, arrivals[..i]);
        assert arrivals[..i + 1] == arrivals[..i] + [Listing(arrivals[i].director, arrivals[i].deployments)];
      }
      assert arrivals[..|arrivals|] == arrivals;
    }

    /** Asks every director for one deployment; the answers come in this order. */
    method PopulateConfigCacheEntry(deployment: string, arrivals: seq<Listing>)
      requires deployment !in boshConfigCache
      modifies this
      ensures Lookup(boshConfigCache, deployment) == Verdict(ListedBy(arrivals, deployment))
      ensures forall d | d != deployment :: Lookup(boshConfigCache, d) == Lookup(old(boshConfigCache), d)
    {
      for i := 0 to |arrivals|
        invariant Lookup(boshConfigCache, deployment) == Verdict(ListedBy(arrivals[..i], deployment))
        invariant forall d | d != deployment :: Lookup(boshConfigCache, d) == Lookup(old(boshConfigCache), d)
      {
        assert arrivals[..i + 1][..i] == arrivals[..i];
        if deployment in arrivals[i].deployments {
          SeenIsVerdict(ListedBy(arrivals[..i], deployment), arrivals[i].director);
          UpdateConfigCacheEntry(deployment, arrivals[i].director);
        } else {
          assert ListedBy(arrivals[..i + 1], deployment) == ListedBy(arrivals[..i], deployment) + [];
        }
      }
      assert arrivals[..|arrivals|] == arrivals;
    }

    /** The answer is right exactly if the entry is. */
    method GetDirectorConfigFromCache(deployment: string, mustExist: bool) returns (reply: Reply)
      ensures reply ==
        if deployment !in boshConfigCache then (if mustExist then NotFound else Config(None))
        else if boshConfigCache[deployment] == Duped then Conflict
        else Config(Some(boshConfigCache[deployment].director))
      ensures forall listers :: AnswersFor(reply, listers, mustExist) <==> Agrees(Lookup(boshConfigCache, deployment), listers)
    {
      if deployment in boshConfigCache {
        var entry := boshConfigCache[deployment];
        if entry.Duped? {
          return Conflict;
        }
        return Config(Some(entry.director));
      } else if mustExist {
        return NotFound;
      }
      return Config(None);
    }

    /** Finds the director of a deployment, asking all of them unless the cache knows: the answer is right if
        and only if names tell the directors of the deployment apart. */
    method GetDirectorConfig(deployment: string, arrivals: seq<Listing>) returns (reply: Reply)
      requires deployment in boshConfigCache ==>
        Lookup(boshConfigCache, deployment) == Verdict(ListedBy(arrivals, deployment))
      modifies this
      ensures AnswersFor(reply, Listers(arrivals, deployment), true) <==> ToldApart(Listers(arrivals, deployment))
      ensures Lookup(boshConfigCache, deployment) == Verdict(ListedBy(arrivals, deployment))
      ensures forall d | d != deployment :: Lookup(boshConfigCache, d) == Lookup(old(boshConfigCache), d)
    {
      EntryAgrees(arrivals, deployment);
      if deployment in boshConfigCache {
        reply := GetDirectorConfigFromCache(deployment, false);
      } else {
        PopulateConfigCacheEntry(deployment, arrivals);
        reply := GetDirectorConfigFromCache(deployment, true);
      }
    }
  }
}
