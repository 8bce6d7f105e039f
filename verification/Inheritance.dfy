/** Loading a profile along its `inherits_from` chain, with and without the cache, and what survives the chain. */
module Inheritance {
  import opened Wrappers
  import opened Profile
  import opened Enforce

  /** The profiles directory: one raw profile for each file that can be read. */
  type Store = map<string, Profile>

  function ParentOf(store: Store, id: string): Option<string> {
    if id in store then store[id].inheritsFrom else None
  }

  /** Every link of the chain from `id` goes to a strictly smaller rank; the file it names may be missing. */
  ghost predicate Ranked(store: Store, rank: string -> nat, id: string)
    decreases rank(id)
  {
    match ParentOf(store, id)
    case None => true
    case Some(p) => rank(p) < rank(id) && Ranked(store, rank, p)
  }

  /** The plain fold: read, resolve the parent, merge, validate. */
  function Resolve(store: Store, ghost rank: string -> nat, id: string): Result<Profile, LoadError>
    requires Ranked(store, rank, id)
    decreases rank(id)
  {
    if id !in store then Err(CannotRead(id))
    else
      match store[id].inheritsFrom
      case None => Validated(store[id])
      case Some(parentId) =>
        match Resolve(store, rank, parentId)
        case Err(e) => Err(e)
        case Ok(parent) =>
          match Merge(parent, store[id])
          case Err(e) => Err(e)
          case Ok(merged) => Validated(merged)
  }

  lemma {:induction false} ResolveIgnoresRank(store: Store, r: string -> nat, s: string -> nat, id: string)
    requires Ranked(store, r, id) && Ranked(store, s, id)
    ensures Resolve(store, r, id) == Resolve(store, s, id)
    decreases r(id)
  {
    if ParentOf(store, id).Some? { ResolveIgnoresRank(store, r, s, store[id].inheritsFrom.value); }
  }

  // ---- the memoised loader ----

  class Loader {
    const store: Store
    var cache: map<string, Profile>

    /** Each cached profile is what the plain fold gives. */
    ghost predicate CacheAgrees(rank: string -> nat)
      reads this
    {
      forall id :: id in cache ==> Ranked(store, rank, id) && Resolve(store, rank, id) == Ok(cache[id])
    }

    constructor (store: Store)
      ensures this.store == store && cache == map[]
    {
      this.store := store;
      cache := map[];
    }

    method LoadWithCache(id: string, ghost rank: string -> nat) returns (r: Result<Profile, LoadError>)
      requires Ranked(store, rank, id) && CacheAgrees(rank)
      modifies this
      ensures CacheAgrees(rank)
      ensures r == Resolve(store, rank, id)
      ensures forall k :: k in old(cache) ==> k in cache && cache[k] == old(cache[k])
      ensures r.Ok? ==> id in cache && cache[id] == r.value
      decreases rank(id)
    {
      if id in cache { return Ok(cache[id]); }
      if id !in store { return Err(CannotRead(id)); }
      var prof := store[id];
      if prof.inheritsFrom.Some? {
        var parent := LoadWithCache(prof.inheritsFrom.value, rank);
        if parent.Err? { return parent; }
        var merged := MergeWithParent(parent.value, prof);
        if merged.Err? { return merged; }
        prof := merged.value;
      }
      if Validate(prof).Some? { return Err(Validate(prof).value); }
      cache := cache[id := prof];
      return Ok(prof);
    }
  }

  /** `CapabilityProfile::load`: a fresh cache for each call. */
  method Load(store: Store, id: string, ghost rank: string -> nat) returns (r: Result<Profile, LoadError>)
    requires Ranked(store, rank, id)
    ensures r == Resolve(store, rank, id)
  {
    var loader := new Loader(store);
    r := loader.LoadWithCache(id, rank);
  }

  // ---- a rank exists exactly when no profile on the chain is its own ancestor ----

  /** The id reached by following `n` links from `id`. */
  function Walk(store: Store, id: string, n: nat): Option<string>
    decreases n
  {
    if n == 0 then Some(id)
    else match ParentOf(store, id) case None => None case Some(p) => Walk(store, p, n - 1)
  }

  /** No profile on the chain from `id` is its own ancestor. */
  ghost predicate NoCycleFrom(store: Store, id: string) {
    forall m: nat, n: nat :: n > 0 && Walk(store, id, m).Some? ==> Walk(store, Walk(store, id, m).value, n) != Walk(store, id, m)
  }

  /** Links followed from `id` before leaving `left`. */
  function Depth(store: Store, id: string, left: set<string>): nat
    decreases |left|
  {
    if id !in left then 0
    else match ParentOf(store, id) case None => 1 case Some(p) => 1 + Depth(store, p, left - {id})
  }

  ghost predicate Reaches(store: Store, id: string, goal: string) { exists n: nat :: Walk(store, id, n) == Some(goal) }

  lemma ReachesThroughParent(store: Store, id: string, goal: string)
    requires ParentOf(store, id).Some? && Reaches(store, ParentOf(store, id).value, goal)
    ensures exists n: nat :: n > 0 && Walk(store, id, n) == Some(goal)
    ensures Reaches(store, id, goal)
  {
    var n: nat :| Walk(store, ParentOf(store, id).value, n) == Some(goal);
    assert Walk(store, id, n + 1) == Some(goal);
  }

  lemma {:induction false} DepthIgnoresUnreached(store: Store, id: string, left: set<string>, gone: string)
    requires !Reaches(store, id, gone)
    ensures Depth(store, id, left - {gone}) == Depth(store, id, left)
    decreases |left|
  {
    assert Walk(store, id, 0) == Some(id);
    if id in left && ParentOf(store, id).Some? {
      var p := ParentOf(store, id).value;
      if Reaches(store, p, gone) { ReachesThroughParent(store, id, gone); }
      DepthIgnoresUnreached(store, p, left - {id}, gone);
      assert (left - {id}) - {gone} == (left - {gone}) - {id};
    }
  }

  function FullDepth(store: Store): string -> nat { (id: string) => Depth(store, id, store.Keys) }

  lemma ParentHasNoCycle(store: Store, id: string)
    requires NoCycleFrom(store, id) && ParentOf(store, id).Some?
    ensures NoCycleFrom(store, ParentOf(store, id).value)
  {
    var p := ParentOf(store, id).value;
    forall m: nat, n: nat | n > 0 && Walk(store, p, m).Some?
      ensures Walk(store, Walk(store, p, m).value, n) != Walk(store, p, m)
    {
      assert Walk(store, id, m + 1) == Walk(store, p, m);
    }
  }

  lemma {:induction false} DepthRanks(store: Store, id: string)
    requires NoCycleFrom(store, id)
    ensures Ranked(store, FullDepth(store), id)
    decreases Depth(store, id, store.Keys)
  {
    if ParentOf(store, id).Some? {
      var p := ParentOf(store, id).value;
      assert Walk(store, id, 0) == Some(id);
      if Reaches(store, p, id) { ReachesThroughParent(store, id, id); }
      DepthIgnoresUnreached(store, p, store.Keys, id);
      ParentHasNoCycle(store, id);
      DepthRanks(store, p);
    }
  }

  lemma {:induction false} WalkStaysRanked(store: Store, rank: string -> nat, id: string, n: nat)
    requires Ranked(store, rank, id) && Walk(store, id, n).Some?
    ensures Ranked(store, rank, Walk(store, id, n).value)
    ensures rank(Walk(store, id, n).value) + n <= rank(id)
    decreases n
  {
    if n > 0 { WalkStaysRanked(store, rank, ParentOf(store, id).value, n - 1); }
  }

  lemma RankedHasNoCycle(store: Store, rank: string -> nat, id: string)
    requires Ranked(store, rank, id)
    ensures NoCycleFrom(store, id)
  {
    forall m: nat, n: nat | n > 0 && Walk(store, id, m).Some?
      ensures Walk(store, Walk(store, id, m).value, n) != Walk(store, id, m)
    {
      WalkStaysRanked(store, rank, id, m);
      var x := Walk(store, id, m).value;
      if Walk(store, x, n) == Some(x) { WalkStaysRanked(store, rank, x, n); }
    }
  }

  ghost predicate IsRankFor(store: Store, id: string, rank: string -> nat) { Ranked(store, rank, id) }

  /** The loader's termination measure exists for exactly the ids whose own chain has no inheritance cycle. */
  lemma {:induction false} AcyclicIffRanked(store: Store, id: string)
    ensures NoCycleFrom(store, id) <==> exists rank: string -> nat :: IsRankFor(store, id, rank)
  {
    if NoCycleFrom(store, id) {
      DepthRanks(store, id);
      assert IsRankFor(store, id, FullDepth(store));
    }
    if rank: string -> nat :| IsRankFor(store, id, rank) { RankedHasNoCycle(store, rank, id); }
  }

  lemma {:induction false} WalkOn(store: Store, id: string, m: nat, n: nat)
    requires Walk(store, id, m).Some?
    ensures Walk(store, id, m + n) == Walk(store, Walk(store, id, m).value, n)
    decreases m
  {
    if m > 0 { WalkOn(store, ParentOf(store, id).value, m - 1, n); }
  }

  lemma {:induction false} WalkShorter(store: Store, id: string, m: nat, n: nat)
    requires m <= n && Walk(store, id, n).Some?
    ensures Walk(store, id, m).Some?
    decreases m
  {
    if m > 0 { WalkShorter(store, ParentOf(store, id).value, m - 1, n - 1); }
  }

  /** Going round a cycle as often as it takes to come past `goal` links. */
  lemma {:induction false} Rounds(store: Store, id: string, m: nat, n: nat, goal: nat) returns (far: nat)
    requires n > 0 && Walk(store, id, m).Some? && Walk(store, Walk(store, id, m).value, n) == Walk(store, id, m)
    ensures far >= goal && Walk(store, id, far).Some?
    decreases goal - m
  {
    if m >= goal {
      far := m;
    } else {
      WalkOn(store, id, m, n);
      far := Rounds(store, id, m + n, n, goal);
    }
  }

  lemma AcyclicChainEnds(store: Store, id: string) returns (n: nat)
    requires NoCycleFrom(store, id)
    ensures Walk(store, id, n).None?
  {
    DepthRanks(store, id);
    n := FullDepth(store)(id) + 1;
    if Walk(store, id, n).Some? { WalkStaysRanked(store, FullDepth(store), id, n); }
  }

  lemma CyclicChainGoesOn(store: Store, id: string, goal: nat)
    requires !NoCycleFrom(store, id)
    ensures Walk(store, id, goal).Some?
  {
    var m: nat, n: nat :| n > 0 && Walk(store, id, m).Some? && Walk(store, Walk(store, id, m).value, n) == Walk(store, id, m);
    var far := Rounds(store, id, m, n, goal);
    WalkShorter(store, id, goal, far);
  }

  /** A chain ends exactly when it has no cycle; one that reaches a cycle has a next profile to load forever. */
  lemma {:induction false} ChainEndsIffAcyclic(store: Store, id: string)
    ensures NoCycleFrom(store, id) <==> exists n: nat :: Walk(store, id, n).None?
  {
    if NoCycleFrom(store, id) {
      var n := AcyclicChainEnds(store, id);
    } else {
      forall n: nat ensures Walk(store, id, n).Some? { CyclicChainGoesOn(store, id, n); }
    }
  }

  // ---- what a loaded profile says about its lineage ----

  /** The raw profiles that were folded, the root first. */
  function Lineage(store: Store, ghost rank: string -> nat, id: string): (line: seq<Profile>)
    requires Ranked(store, rank, id)
    ensures line == [] <==> id !in store
    decreases rank(id)
  {
    if id !in store then []
    else
      match store[id].inheritsFrom
      case None => [store[id]]
      case Some(p) => Lineage(store, rank, p) + [store[id]]
  }

  predicate AnyDenies(e: Engine, line: seq<Profile>, tool: string) {
    exists m :: m in line && MatchesAny(e, m.toolDeny, tool)
  }

  predicate AnyAllows(e: Engine, line: seq<Profile>, tool: string) {
    exists m :: m in line && MatchesAny(e, m.toolAllow, tool)
  }

  /** The allowlist entry of the earliest member of the line that lists `bin`. */
  function FirstListing(line: seq<Profile>, bin: string): Option<ShellEntry> {
    if line == [] then None
    else if FindBin(line[0].shell, bin).Some? then FindBin(line[0].shell, bin)
    else FirstListing(line[1..], bin)
  }

  /** `kind` is in the root's list and in every later list that is not empty. */
  predicate KindEverywhere(line: seq<Profile>, kind: string)
    requires line != []
  {
    && kind in line[0].allowedAgentKinds
    && forall i :: 1 <= i < |line| && line[i].allowedAgentKinds != [] ==> kind in line[i].allowedAgentKinds
  }

  lemma LastOrBefore(line: seq<Profile>, last: Profile, m: Profile)
    ensures m in line + [last] <==> m in line || m == last
  {}

  lemma MatchesUnion(e: Engine, a: seq<string>, b: seq<string>, target: string)
    ensures MatchesAny(e, Union(a, b), target) <==> MatchesAny(e, a, target) || MatchesAny(e, b, target)
  {
    if MatchesAny(e, Union(a, b), target) {
      var p :| p in Union(a, b) && PatternHits(e, p, target);
    }
  }

  lemma {:induction false} AddBinsFind(a: seq<ShellEntry>, b: seq<ShellEntry>, bin: string)
    ensures FindBin(AddBins(a, b), bin) == if FindBin(a, bin).Some? then FindBin(a, bin) else FindBin(b, bin)
    decreases |b|
  {
    if b != [] {
      var a' := if HasBin(a, b[0].bin) then a else a + [b[0]];
      AddBinsFind(a', b[1..], bin);
      FindAppended(a, b[0], bin);
    }
  }

  lemma {:induction false} FindAppended(a: seq<ShellEntry>, x: ShellEntry, bin: string)
    ensures FindBin(a + [x], bin) == if FindBin(a, bin).Some? then FindBin(a, bin)
                                     else if x.bin == bin then Some(x) else None
  {
    if a != [] {
      assert (a + [x])[1..] == a[1..] + [x];
      FindAppended(a[1..], x, bin);
    }
  }

  lemma {:induction false} FirstListingAppended(line: seq<Profile>, m: Profile, bin: string)
    ensures FirstListing(line + [m], bin)
         == if FirstListing(line, bin).Some? then FirstListing(line, bin) else FindBin(m.shell, bin)
  {
    if line != [] {
      assert (line + [m])[1..] == line[1..] + [m];
      FirstListingAppended(line[1..], m, bin);
    }
  }

  lemma AnyMatchesAppended(e: Engine, line: seq<Profile>, m: Profile, tool: string)
    ensures AnyDenies(e, line + [m], tool) <==> AnyDenies(e, line, tool) || MatchesAny(e, m.toolDeny, tool)
    ensures AnyAllows(e, line + [m], tool) <==> AnyAllows(e, line, tool) || MatchesAny(e, m.toolAllow, tool)
  {
    forall x ensures x in line + [m] <==> x in line || x == m { LastOrBefore(line, m, x); }
  }

  lemma KindAppended(line: seq<Profile>, m: Profile, kind: string)
    requires line != []
    ensures KindEverywhere(line + [m], kind)
       <==> KindEverywhere(line, kind) && (m.allowedAgentKinds != [] ==> kind in m.allowedAgentKinds)
  {
    var longer := line + [m];
    assert longer[|line|] == m;
    assert forall i :: 0 <= i < |line| ==> longer[i] == line[i];
  }

  /** A loaded profile decides tools, agent kinds and shell calls by its lineage, in the root's class and write mode. */
  ghost predicate Faithful(e: Engine, p: Profile, line: seq<Profile>) {
    && line != []
    && p.cls == line[0].cls && p.fs.write == line[0].fs.write && p.fs.scopedPaths == line[0].fs.scopedPaths
    && (forall tool :: MatchesAny(e, p.toolDeny, tool) <==> AnyDenies(e, line, tool))
    && (forall tool :: MatchesAny(e, p.toolAllow, tool) <==> AnyAllows(e, line, tool))
    && (forall kind :: kind in p.allowedAgentKinds <==> KindEverywhere(line, kind))
    && (forall bin :: FindBin(p.shell, bin) == FirstListing(line, bin))
  }

  lemma FaithfulRoot(e: Engine, p: Profile)
    ensures Faithful(e, p, [p])
  {
    var line := [p];
    assert p in line;
    assert forall m :: m in line ==> m == p;
    forall bin ensures FindBin(p.shell, bin) == FirstListing(line, bin) { assert line[1..] == []; }
  }

  lemma FaithfulStep(e: Engine, parent: Profile, child: Profile, line: seq<Profile>)
    requires Faithful(e, parent, line) && Merge(parent, child).Ok?
    ensures Faithful(e, Merge(parent, child).value, line + [child])
  {
    var p := Merge(parent, child).value;
    forall tool
      ensures MatchesAny(e, p.toolDeny, tool) <==> AnyDenies(e, line + [child], tool)
      ensures MatchesAny(e, p.toolAllow, tool) <==> AnyAllows(e, line + [child], tool)
    {
      MatchesUnion(e, parent.toolDeny, child.toolDeny, tool);
      MatchesUnion(e, parent.toolAllow, child.toolAllow, tool);
      AnyMatchesAppended(e, line, child, tool);
    }
    forall kind ensures kind in p.allowedAgentKinds <==> KindEverywhere(line + [child], kind) {
      KindAppended(line, child, kind);
    }
    forall bin ensures FindBin(p.shell, bin) == FirstListing(line + [child], bin) {
      AddBinsFind(parent.shell, child.shell, bin);
      FirstListingAppended(line, child, bin);
    }
  }

  lemma {:induction false} LoadedIsFaithful(e: Engine, store: Store, rank: string -> nat, id: string)
    requires Ranked(store, rank, id) && Resolve(store, rank, id).Ok?
    ensures Faithful(e, Resolve(store, rank, id).value, Lineage(store, rank, id))
    decreases rank(id)
  {
    match store[id].inheritsFrom
    case None => FaithfulRoot(e, store[id]);
    case Some(parentId) =>
      LoadedIsFaithful(e, store, rank, parentId);
      FaithfulStep(e, Resolve(store, rank, parentId).value, store[id], Lineage(store, rank, parentId));
  }

  /**
   * For every successfully loaded chain: a tool is allowed when no member denies it and some member allows it;
   * a kind when the root and every later non-empty list have it; a shell call as the first member listing it says.
   */
  lemma {:induction false} DecisionsOverLineage(e: Engine, store: Store, rank: string -> nat, id: string,
                             tool: string, kind: string, bin: string, args: seq<string>)
    requires Ranked(store, rank, id) && Resolve(store, rank, id).Ok?
    ensures var p, line := Resolve(store, rank, id).value, Lineage(store, rank, id);
      && line != []
      && p.cls == line[0].cls && p.fs.write == line[0].fs.write && p.fs.scopedPaths == line[0].fs.scopedPaths
      && (EnforceTool(e, p, tool).Allow? <==> !AnyDenies(e, line, tool) && AnyAllows(e, line, tool))
      && (EnforceTool(e, p, tool) == Deny("profile.tool_denied") <==> AnyDenies(e, line, tool))
      && (EnforceAgentKind(p, kind).Allow? <==> KindEverywhere(line, kind))
      && EnforceShell(e, p, bin, args)
         == match FirstListing(line, bin)
            case None => Deny("profile.shell_bin_not_allowed")
            case Some(entry) => EntryDecision(e, entry, args)
  {
    LoadedIsFaithful(e, store, rank, id);
  }

  // ---- a descendant never widens an ancestor ----

  lemma MergeNarrows(parent: Profile, child: Profile)
    requires Merge(parent, child).Ok?
    ensures Narrows(parent, Merge(parent, child).value)
  {}

  lemma NarrowsTrans(a: Profile, b: Profile, c: Profile)
    requires Narrows(a, b) && Narrows(b, c)
    ensures Narrows(a, c)
  {}

  /** Every ancestor of a loaded profile loads too, and the descendant narrows it. */
  lemma {:induction false} DescendantNarrows(store: Store, rank: string -> nat, id: string, n: nat)
    requires Ranked(store, rank, id) && Resolve(store, rank, id).Ok? && Walk(store, id, n).Some?
    ensures Ranked(store, rank, Walk(store, id, n).value) && Resolve(store, rank, Walk(store, id, n).value).Ok?
    ensures Narrows(Resolve(store, rank, Walk(store, id, n).value).value, Resolve(store, rank, id).value)
    decreases n
  {
    if n > 0 {
      var parentId := store[id].inheritsFrom.value;
      DescendantNarrows(store, rank, parentId, n - 1);
      MergeNarrows(Resolve(store, rank, parentId).value, store[id]);
      NarrowsTrans(Resolve(store, rank, Walk(store, parentId, n - 1).value).value,
                   Resolve(store, rank, parentId).value, Resolve(store, rank, id).value);
    }
  }

  /** The narrowing, decision by decision, against any ancestor of a loaded profile. */
  lemma {:induction false} DescendantNeverWidens(e: Engine, store: Store, rank: string -> nat, id: string, n: nat,
                              tool: string, kind: string, bin: string, args: seq<string>)
    requires Ranked(store, rank, id) && Resolve(store, rank, id).Ok? && Walk(store, id, n).Some?
    ensures Ranked(store, rank, Walk(store, id, n).value) && Resolve(store, rank, Walk(store, id, n).value).Ok?
    ensures var below, above := Resolve(store, rank, id).value, Resolve(store, rank, Walk(store, id, n).value).value;
      && (MatchesAny(e, above.toolDeny, tool) ==> EnforceTool(e, below, tool) == Deny("profile.tool_denied"))
      && (EnforceAgentKind(below, kind).Allow? ==> EnforceAgentKind(above, kind).Allow?)
      && (HasBin(above.shell, bin) ==> EnforceShell(e, below, bin, args) == EnforceShell(e, above, bin, args))
      && (WriteNeverWidens(e, above, below) <==> !DenyListLost(e, above, below))
  {
    DescendantNarrows(store, rank, id, n);
    var below, above := Resolve(store, rank, id).value, Resolve(store, rank, Walk(store, id, n).value).value;
    NarrowedDecisions(e, above, below, tool, kind, bin, args);
    WriteNarrowsExactly(e, above, below);
  }

  lemma {:induction false} LoadedIsConsistent(store: Store, rank: string -> nat, id: string)
    requires Ranked(store, rank, id) && Resolve(store, rank, id).Ok?
    ensures Validate(Resolve(store, rank, id).value).None?
    decreases rank(id)
  {
    if ParentOf(store, id).Some? { LoadedIsConsistent(store, rank, store[id].inheritsFrom.value); }
  }

  /** Below an assessor root nothing can write: no git write flag, no connector write, every file write refused. */
  lemma {:induction false} AssessorRootWritesNothing(e: Engine, store: Store, rank: string -> nat, id: string, path: string, root: string)
    requires Ranked(store, rank, id) && Resolve(store, rank, id).Ok?
    requires Lineage(store, rank, id)[0].cls.Assessor?
    ensures var p := Resolve(store, rank, id).value;
      && !p.git.branch && !p.git.commit && !p.git.tag && !p.git.push && p.connectors.write == []
      && EnforceFsWrite(e, p, path, root) == Deny("profile.fs_write_disabled")
  {
    LoadedIsFaithful(e, store, rank, id);
    LoadedIsConsistent(store, rank, id);
  }

  // ---- the lists that only grow, and the sections that are overridden ----

  /** Some member of the line has `x` in the list that `of` picks. */
  predicate SomeHas(of: Profile -> seq<string>, line: seq<Profile>, x: string) {
    exists m :: m in line && x in of(m)
  }

  lemma SomeHasAppended(of: Profile -> seq<string>, line: seq<Profile>, m: Profile, x: string)
    ensures SomeHas(of, line + [m], x) <==> SomeHas(of, line, x) || x in of(m)
  {
    forall k ensures k in line + [m] <==> k in line || k == m { LastOrBefore(line, m, k); }
  }

  function ApprovalsOf(m: Profile): seq<string> { m.approvalRequiredFor }

  function DenyGlobsOf(m: Profile): seq<string> { m.fs.denyGlobs }

  function HostsOf(m: Profile): seq<string> { m.egress.hostAllowlist }

  function ReadableOf(m: Profile): seq<string> { m.connectors.read }

  /**
   * In a loaded profile an approval requirement, a deny glob, a host or a readable connector is present exactly when
   * some member of the chain lists it; below an executor root the git section is the profile's own, below an assessor
   * root it is the root's; limits, audit and egress mode are the root's.
   */
  lemma {:induction false} ListsOverLineage(store: Store, rank: string -> nat, id: string, x: string)
    requires Ranked(store, rank, id) && Resolve(store, rank, id).Ok?
    ensures var p, line := Resolve(store, rank, id).value, Lineage(store, rank, id);
      && (x in p.approvalRequiredFor <==> SomeHas(ApprovalsOf, line, x))
      && (x in p.fs.denyGlobs <==> SomeHas(DenyGlobsOf, line, x))
      && (x in p.egress.hostAllowlist <==> SomeHas(HostsOf, line, x))
      && (x in p.connectors.read <==> SomeHas(ReadableOf, line, x))
      && p.cls == line[0].cls && p.git == (if line[0].cls.Executor? then store[id].git else line[0].git)
      && p.limits == line[0].limits && p.audit == line[0].audit && p.egress.mode == line[0].egress.mode
    decreases rank(id)
  {
    match store[id].inheritsFrom
    case None =>
      var line := [store[id]];
      assert store[id] in line && forall m :: m in line ==> m == store[id];
    case Some(parentId) =>
      ListsOverLineage(store, rank, parentId, x);
      var line := Lineage(store, rank, parentId);
      SomeHasAppended(ApprovalsOf, line, store[id], x);
      SomeHasAppended(DenyGlobsOf, line, store[id], x);
      SomeHasAppended(HostsOf, line, store[id], x);
      SomeHasAppended(ReadableOf, line, store[id], x);
  }
}
