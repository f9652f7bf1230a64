/** The bounded runtime cache of federated search (src/projects/federation.ts). The map is
    kept in its insertion order, as JavaScript iterates it. */
module RuntimeCache {
  import opened Wrappers

  type Project = int
  type CacheKey = int

  const MAX_CACHED := 16

  /** `runtime` stands for the object; every new one gets another number. */
  datatype Entry = Entry(project: Project, key: CacheKey, runtime: int)

  type Entries = seq<Entry>

  predicate Distinct(es: Entries) {
    forall i, j :: 0 <= i < j < |es| ==> es[i].project != es[j].project
  }

  function Find(es: Entries, p: Project): (i: Option<nat>)
    ensures i.Some? ==> i.value < |es| && es[i.value].project == p
    ensures i.None? ==> forall k :: 0 <= k < |es| ==> es[k].project != p
  {
    if es == [] then None
    else if es[0].project == p then Some(0)
    else
      var rest := Find(es[1..], p);
      if rest.None? then
        assert forall k :: 1 <= k < |es| ==> es[k].project == es[1..][k - 1].project;
        None
      else Some(rest.value + 1)
  }

  function Remove(es: Entries, i: nat): Entries
    requires i < |es|
  {
    es[..i] + es[i + 1..]
  }

  predicate Hits(es: Entries, p: Project, key: CacheKey) {
    Find(es, p).Some? && es[Find(es, p).value].key == key
  }

  /** `Map.set`: an old key keeps its place, a new one goes to the end. */
  function Put(es: Entries, e: Entry): Entries {
    match Find(es, e.project)
    case Some(i) => es[i := e]
    case None => es + [e]
  }

  function Evict(es: Entries): Entries {
    if |es| > MAX_CACHED then es[|es| - MAX_CACHED..] else es
  }

  /** `built` is the runtime that is constructed on a miss. */
  function Request(es: Entries, p: Project, key: CacheKey, built: int): (Entries, int) {
    if Hits(es, p, key) then
      var i := Find(es, p).value;
      (Remove(es, i) + [es[i]], es[i].runtime)
    else (Evict(Put(es, Entry(p, key, built))), built)
  }

  class FederatedProjects {
    var runtimes: Entries

    predicate Valid()
      reads this
    {
      Distinct(runtimes) && |runtimes| <= MAX_CACHED
    }

    constructor ()
      ensures Valid() && runtimes == []
    {
      runtimes := [];
    }

    method RuntimeFor(p: Project, key: CacheKey, built: int) returns (runtime: int)
      requires Valid()
      modifies this
      ensures Valid()
      ensures (runtimes, runtime) == Request(old(runtimes), p, key, built)
    {
      RequestKeepsDistinct(runtimes, p, key, built);
      var cached := Find(runtimes, p);
      if cached.Some? && runtimes[cached.value].key == key {
        var e := runtimes[cached.value];
        runtimes := Remove(runtimes, cached.value);
        runtimes := runtimes + [e];
        return e.runtime;
      }
      ghost var was := runtimes;
      runtimes := Put(runtimes, Entry(p, key, built));
      while |runtimes| > MAX_CACHED
        invariant Evict(runtimes) == Evict(Put(was, Entry(p, key, built)))
      {
        runtimes := runtimes[1..];
      }
      runtime := built;
    }
  }

  lemma RequestKeepsDistinct(es: Entries, p: Project, key: CacheKey, built: int)
    requires Distinct(es) && |es| <= MAX_CACHED
    ensures Distinct(Request(es, p, key, built).0) && |Request(es, p, key, built).0| <= MAX_CACHED
  {
  }

  /** Whatever happened before: the runtime that is returned was built for exactly this key,
      and is in the cache afterwards. */
  lemma ReturnedRuntimeIsCached(es: Entries, p: Project, key: CacheKey, built: int)
    requires Distinct(es) && |es| <= MAX_CACHED
    ensures var (next, runtime) := Request(es, p, key, built);
      && Entry(p, key, runtime) in next
      && (forall e :: e in next && e.project == p ==> e == Entry(p, key, runtime))
      && (runtime == built || Entry(p, key, runtime) in es)
  {
    RequestKeepsDistinct(es, p, key, built);
    var (next, runtime) := Request(es, p, key, built);
    if Hits(es, p, key) {
      assert next[|next| - 1] == Entry(p, key, runtime);
    } else if Find(es, p).Some? {
      assert next[Find(es, p).value] == Entry(p, key, runtime);
    } else {
      assert next[|next| - 1] == Entry(p, key, runtime);
    }
  }

  // ------------------------------------------------------------ least recently used

  /** The projects of a list of requests, ordered by their last request. */
  function Recent(rs: seq<Project>): seq<Project> {
    if rs == [] then [] else Without(Recent(rs[..|rs| - 1]), rs[|rs| - 1]) + [rs[|rs| - 1]]
  }

  function Without(s: seq<Project>, p: Project): (r: seq<Project>)
    ensures |r| <= |s|
  {
    if s == [] then [] else if s[0] == p then Without(s[1..], p) else [s[0]] + Without(s[1..], p)
  }

  /** The distinct projects that were requested after the last request of `p`. */
  function Since(rs: seq<Project>, p: Project): set<Project> {
    if rs == [] || rs[|rs| - 1] == p then {} else Since(rs[..|rs| - 1], p) + {rs[|rs| - 1]}
  }

  function Projects(es: Entries): (s: seq<Project>)
    ensures |s| == |es| && forall i :: 0 <= i < |es| ==> s[i] == es[i].project
  {
    if es == [] then [] else [es[0].project] + Projects(es[1..])
  }

  /** Handles requests under one key for every project. */
  function Serve(rs: seq<Project>, keys: Project -> CacheKey, built: seq<int>): Entries
    requires |built| == |rs|
  {
    if rs == [] then []
    else
      var n := |rs| - 1;
      Request(Serve(rs[..n], keys, built[..n]), rs[n], keys(rs[n]), built[n]).0
  }

  function Last(s: seq<Project>): seq<Project> {
    if |s| > MAX_CACHED then s[|s| - MAX_CACHED..] else s
  }

  predicate Unique(s: seq<Project>) {
    forall i, j :: 0 <= i < j < |s| ==> s[i] != s[j]
  }

  function Elements(s: seq<Project>): set<Project> {
    set p | p in s
  }

  lemma {:induction false} WithoutSplits(a: seq<Project>, b: seq<Project>, p: Project)
    ensures Without(a + b, p) == Without(a, p) + Without(b, p)
  {
    if a == [] {
      assert a + b == b;
    } else {
      assert (a + b)[1..] == a[1..] + b;
      WithoutSplits(a[1..], b, p);
    }
  }

  lemma {:induction false} WithoutAbsent(s: seq<Project>, p: Project)
    requires p !in s
    ensures Without(s, p) == s
  {
    if s != [] {
      assert s[0] in s;
      WithoutAbsent(s[1..], p);
    }
  }

  lemma WithoutAt(s: seq<Project>, i: nat)
    requires Unique(s) && i < |s|
    ensures Without(s, s[i]) == s[..i] + s[i + 1..]
  {
    SplitAround(s, i);
    WithoutSplits(s[..i], [s[i]] + s[i + 1..], s[i]);
    WithoutSplits([s[i]], s[i + 1..], s[i]);
    WithoutAbsent(s[..i], s[i]);
    WithoutAbsent(s[i + 1..], s[i]);
  }

  lemma SplitAround(s: seq<Project>, i: nat)
    requires Unique(s) && i < |s|
    ensures s == s[..i] + ([s[i]] + s[i + 1..])
    ensures s[i] !in s[..i] && s[i] !in s[i + 1..]
    ensures Without([s[i]], s[i]) == []
  {
  }

  lemma {:induction false} WithoutElements(s: seq<Project>, p: Project)
    ensures Elements(Without(s, p)) == Elements(s) - {p}
    ensures Unique(s) ==> Unique(Without(s, p))
  {
    if s != [] {
      WithoutElements(s[1..], p);
      assert s == [s[0]] + s[1..];
      assert Elements(s) == {s[0]} + Elements(s[1..]);
      if s[0] != p {
        assert Elements([s[0]] + Without(s[1..], p)) == {s[0]} + Elements(Without(s[1..], p));
        if Unique(s) {
          UniqueCons(s[0], Without(s[1..], p), s[1..]);
        }
      }
    }
  }

  lemma UniqueCons(x: Project, r: seq<Project>, s: seq<Project>)
    requires Unique([x] + s) && Unique(r) && Elements(r) <= Elements(s)
    ensures Unique([x] + r)
  {
    forall j | 0 <= j < |r| ensures r[j] != x {
      assert r[j] in Elements(s);
      var k :| 0 <= k < |s| && s[k] == r[j];
      assert ([x] + s)[0] != ([x] + s)[k + 1];
    }
  }

  lemma {:induction false} RecentIsUnique(rs: seq<Project>)
    ensures Unique(Recent(rs)) && Elements(Recent(rs)) == Elements(rs)
  {
    if rs != [] {
      var front, p := rs[..|rs| - 1], rs[|rs| - 1];
      RecentIsUnique(front);
      WithoutElements(Recent(front), p);
      var kept := Without(Recent(front), p);
      assert p !in Elements(kept);
      assert Elements(kept + [p]) == Elements(kept) + {p};
      assert rs == front + [p];
      assert Elements(rs) == Elements(front) + {p};
    }
  }

  /** The cache holds, oldest first, the last sixteen distinct projects requested. */
  lemma {:induction false} CacheIsTheRecentOnes(rs: seq<Project>, keys: Project -> CacheKey, built: seq<int>)
    requires |built| == |rs|
    ensures Projects(Serve(rs, keys, built)) == Last(Recent(rs))
    ensures forall e :: e in Serve(rs, keys, built) ==> e.key == keys(e.project)
  {
    if rs != [] {
      var n := |rs| - 1;
      var cache := Serve(rs[..n], keys, built[..n]);
      CacheIsTheRecentOnes(rs[..n], keys, built[..n]);
      RecentIsUnique(rs[..n]);
      RequestMovesToTheEnd(cache, Recent(rs[..n]), rs[n], keys(rs[n]), built[n]);
    }
  }

  lemma RequestMovesToTheEnd(cache: Entries, order: seq<Project>, p: Project, key: CacheKey, built: int)
    requires Unique(order) && Projects(cache) == Last(order)
    requires forall e :: e in cache && e.project == p ==> e.key == key
    ensures var next := Request(cache, p, key, built).0;
      && Projects(next) == Last(Without(order, p) + [p])
      && forall e :: e in next ==> e in cache || e == Entry(p, key, built)
  {
    var pre := order[..|order| - |cache|];
    assert order == pre + Projects(cache);
    WithoutSplits(pre, Projects(cache), p);
    if Find(cache, p).Some? {
      HitMoves(cache, pre, p, key, built);
    } else {
      MissAppends(cache, pre, p, key, built);
    }
  }

  lemma HitMoves(cache: Entries, pre: seq<Project>, p: Project, key: CacheKey, built: int)
    requires Unique(pre + Projects(cache)) && |cache| <= MAX_CACHED && (pre != [] ==> |cache| == MAX_CACHED)
    requires Find(cache, p).Some? && forall e :: e in cache && e.project == p ==> e.key == key
    ensures var next := Request(cache, p, key, built).0;
      && Projects(next) == Last(Without(pre, p) + Without(Projects(cache), p) + [p])
      && forall e :: e in next ==> e in cache
  {
    var i, s := Find(cache, p).value, Projects(cache);
    assert cache[i] in cache;
    UniqueParts(pre, s, i);
    WithoutAt(s, i);
    WithoutAbsent(pre, p);
    RemoveProjects(cache, i);
    HitReorders(cache, p, key, built);
    var others := Without(s, p);
    LastOfAppend(pre, others + [p]);
    Regroup(pre, others, p);
  }

  lemma HitReorders(cache: Entries, p: Project, key: CacheKey, built: int)
    requires Hits(cache, p, key)
    ensures var i := Find(cache, p).value;
      var next := Request(cache, p, key, built).0;
      next == Remove(cache, i) + [cache[i]] && forall e :: e in next ==> e in cache
  {
  }

  lemma ConcatProjects(a: Entries, b: Entries)
    ensures Projects(a + b) == Projects(a) + Projects(b)
  {
  }

  lemma RemoveProjects(cache: Entries, i: nat)
    requires i < |cache|
    ensures var s := Projects(cache); Projects(Remove(cache, i) + [cache[i]]) == s[..i] + s[i + 1..] + [s[i]]
  {
    ConcatProjects(cache[..i], cache[i + 1..]);
    ConcatProjects(Remove(cache, i), [cache[i]]);
    SplitProjects(cache, i);
    SplitProjects(cache, i + 1);
    assert Projects([cache[i]]) == [Projects(cache)[i]];
  }

  lemma SplitProjects(cache: Entries, k: nat)
    requires k <= |cache|
    ensures Projects(cache[..k]) == Projects(cache)[..k] && Projects(cache[k..]) == Projects(cache)[k..]
  {
    JoinedProjects(cache[..k], cache[k..]);
    assert cache[..k] + cache[k..] == cache;
  }

  lemma JoinedProjects(a: Entries, b: Entries)
    ensures Projects(a + b)[..|a|] == Projects(a) && Projects(a + b)[|a|..] == Projects(b)
  {
    ConcatProjects(a, b);
    Halves(Projects(a), Projects(b));
  }

  lemma Halves(a: seq<Project>, b: seq<Project>)
    ensures (a + b)[..|a|] == a && (a + b)[|a|..] == b
  {
  }

  lemma AppendProjects(cache: Entries, e: Entry)
    ensures Projects(cache + [e]) == Projects(cache) + [e.project]
  {
  }

  lemma EvictProjects(es: Entries)
    ensures Projects(Evict(es)) == Last(Projects(es))
  {
  }

  lemma Regroup(a: seq<Project>, b: seq<Project>, p: Project)
    ensures a + b + [p] == a + (b + [p])
  {
  }

  lemma LastOfAppend(pre: seq<Project>, s: seq<Project>)
    requires pre != [] ==> |s| >= MAX_CACHED
    ensures Last(pre + s) == Last(s)
  {
    if pre == [] {
      assert pre + s == s;
    }
  }

  lemma UniqueParts(pre: seq<Project>, s: seq<Project>, i: nat)
    requires Unique(pre + s) && i < |s|
    ensures Unique(s) && s[i] !in pre
  {
    forall k | 0 <= k < |pre| ensures pre[k] != s[i] {
      assert (pre + s)[k] != (pre + s)[|pre| + i];
    }
    forall j, k | 0 <= j < k < |s| ensures s[j] != s[k] {
      assert (pre + s)[|pre| + j] != (pre + s)[|pre| + k];
    }
  }

  lemma MissAppends(cache: Entries, pre: seq<Project>, p: Project, key: CacheKey, built: int)
    requires Find(cache, p).None? && |cache| <= MAX_CACHED && (pre != [] ==> |cache| == MAX_CACHED)
    ensures var next := Request(cache, p, key, built).0;
      && Projects(next) == Last(Without(pre, p) + Without(Projects(cache), p) + [p])
      && forall e :: e in next ==> e in cache || e == Entry(p, key, built)
  {
    var s, all := Projects(cache), cache + [Entry(p, key, built)];
    assert p !in s;
    WithoutAbsent(s, p);
    AppendProjects(cache, Entry(p, key, built));
    EvictProjects(all);
    if pre == [] {
      assert Without(pre, p) == [];
    }
    LastOfAppend(Without(pre, p), s + [p]);
    Regroup(Without(pre, p), s, p);
  }

  // ------------------------------------------------------------------ when it hits

  function After(s: seq<Project>, p: Project): set<Project> {
    if s == [] then {} else if s[0] == p then Elements(s[1..]) else After(s[1..], p)
  }

  lemma {:induction false} AfterMoves(s: seq<Project>, p: Project, q: Project)
    requires p != q && p in s
    ensures After(Without(s, q) + [q], p) == After(s, p) + {q}
  {
    if s[0] == q {
      AfterMoves(s[1..], p, q);
    } else {
      assert (Without(s, q) + [q])[1..] == Without(s[1..], q) + [q];
      if s[0] == p {
        WithoutElements(s[1..], q);
        assert Elements(Without(s[1..], q) + [q]) == Elements(Without(s[1..], q)) + {q};
      } else {
        AfterMoves(s[1..], p, q);
      }
    }
  }

  lemma {:induction false} AfterAppended(s: seq<Project>, p: Project)
    requires p !in s
    ensures After(s + [p], p) == {}
  {
    if s == [] {
      assert s + [p] == [p];
    } else {
      assert s[0] in s && (s + [p])[1..] == s[1..] + [p];
      AfterAppended(s[1..], p);
    }
  }

  lemma {:induction false} SinceIsAfter(rs: seq<Project>, p: Project)
    requires p in rs
    ensures After(Recent(rs), p) == Since(rs, p)
  {
    var front, q := rs[..|rs| - 1], rs[|rs| - 1];
    if p == q {
      WithoutElements(Recent(front), p);
      assert p !in Elements(Without(Recent(front), p));
      AfterAppended(Without(Recent(front), p), p);
    } else {
      SinceIsAfter(front, p);
      RecentIsUnique(front);
      assert p in Elements(front);
      assert p in Recent(front);
      AfterMoves(Recent(front), p, q);
    }
  }

  lemma {:induction false} UniqueSize(s: seq<Project>)
    requires Unique(s)
    ensures |Elements(s)| == |s|
  {
    if s != [] {
      UniqueSize(s[1..]);
      assert s == [s[0]] + s[1..];
      assert Elements(s) == {s[0]} + Elements(s[1..]);
    }
  }

  lemma {:induction false} AfterCounts(s: seq<Project>, i: nat)
    requires Unique(s) && i < |s|
    ensures |After(s, s[i])| == |s| - 1 - i
  {
    UniqueSize(s[1..]);
    if i > 0 {
      AfterCounts(s[1..], i - 1);
    }
  }

  /** While keys do not change, a request hits exactly if its project was requested before
      and fewer than sixteen other projects were requested since. */
  lemma HitsExactlyTheRecentOnes(rs: seq<Project>, keys: Project -> CacheKey, built: seq<int>, p: Project)
    requires |built| == |rs|
    ensures Hits(Serve(rs, keys, built), p, keys(p)) <==> p in rs && |Since(rs, p)| < MAX_CACHED
  {
    var cache, order := Serve(rs, keys, built), Recent(rs);
    CacheIsTheRecentOnes(rs, keys, built);
    CachedExactlyTheRecentOnes(rs, p);
    HitsWhenCached(cache, p, keys);
  }

  lemma CachedExactlyTheRecentOnes(rs: seq<Project>, p: Project)
    ensures p in Last(Recent(rs)) <==> p in rs && |Since(rs, p)| < MAX_CACHED
  {
    var order := Recent(rs);
    RecentIsUnique(rs);
    if p in rs {
      assert p in Elements(order);
      var i :| 0 <= i < |order| && order[i] == p;
      SinceIsAfter(rs, p);
      AfterCounts(order, i);
      InLast(order, i);
    } else {
      assert p !in Elements(order);
      assert p !in order;
    }
  }

  lemma InLast(s: seq<Project>, i: nat)
    requires Unique(s) && i < |s|
    ensures s[i] in Last(s) <==> |s| - 1 - i < MAX_CACHED
  {
    if s[i] in Last(s) && |s| > MAX_CACHED {
      var j :| 0 <= j < MAX_CACHED && Last(s)[j] == s[i];
      assert s[|s| - MAX_CACHED + j] == s[i];
    }
  }

  lemma HitsWhenCached(cache: Entries, p: Project, keys: Project -> CacheKey)
    requires forall e :: e in cache ==> e.key == keys(e.project)
    ensures Hits(cache, p, keys(p)) <==> p in Projects(cache)
  {
    if Find(cache, p).Some? {
      assert Projects(cache)[Find(cache, p).value] == p;
      assert cache[Find(cache, p).value] in cache;
    }
  }

  // ------------------------------------------------------------- when a key changes

  /** A rebuilt runtime does not become the most recent one: it keeps the place of the old
      entry. A request moves its project to the end exactly if it hits, or the project was
      not cached, or was at the end. */
  lemma RefreshedExactlyWhen(es: Entries, p: Project, key: CacheKey, built: int)
    requires Distinct(es) && |es| <= MAX_CACHED
    ensures var next := Request(es, p, key, built).0;
      next[|next| - 1].project == p <==> Hits(es, p, key) || Find(es, p).None? || es[|es| - 1].project == p
  {
  }

  /** So the runtime that was just rebuilt may be the next one to go. */
  lemma RebuiltMayBeNextToGo(es: Entries, key: CacheKey, built: int, q: Project, qKey: CacheKey, qBuilt: int)
    requires Distinct(es) && |es| == MAX_CACHED && es[0].key != key && Find(es, q).None?
    ensures var rebuilt := Request(es, es[0].project, key, built).0;
      var next := Request(rebuilt, q, qKey, qBuilt).0;
      Find(rebuilt, es[0].project).Some? && Find(next, es[0].project).None?
  {
    assert Find(es, es[0].project) == Some(0);
    var rebuilt := es[0 := Entry(es[0].project, key, built)];
    assert Find(rebuilt, es[0].project) == Some(0);
    assert Distinct(rebuilt);
    assert Find(rebuilt, q).None?;
    assert Request(rebuilt, q, qKey, qBuilt).0 == rebuilt[1..] + [Entry(q, qKey, qBuilt)];
  }
}
