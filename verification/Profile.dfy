/** Capability profiles: merging a child into its resolved parent, and the consistency check. */
module Profile {
  import opened Wrappers

  datatype Class = Assessor | Executor

  datatype ShellEntry = ShellEntry(
    bin: string, argsPattern: Option<string>, maxArgs: nat, cwdScope: Option<string>,
    timeoutMs: nat, envAllowlist: seq<string>, outputCapBytes: nat)

  datatype Fs = Fs(
    read: string, write: string, scopedPaths: seq<string>, docsRoots: seq<string>, denyGlobs: seq<string>,
    maxBytesPerRead: nat, maxBytesPerWrite: nat)

  datatype Git = Git(
    read: bool, branch: bool, commit: bool, tag: bool, push: bool,
    pushRemotesAllow: seq<string>, protectedRefs: seq<string>)

  datatype Connectors = Connectors(read: seq<string>, write: seq<string>)

  datatype Egress = Egress(mode: string, hostAllowlist: seq<string>, methodsAllow: seq<string>)

  datatype Limits = Limits(maxWallclockMs: Option<nat>, maxToolCalls: Option<nat>, maxChildren: Option<nat>)

  datatype Audit = Audit(logEveryToolCall: Option<bool>, logToolArgs: Option<string>, retainForDays: Option<nat>)

  datatype Profile = Profile(
    id: string, cls: Class, version: string, description: Option<string>, inheritsFrom: Option<string>,
    toolAllow: seq<string>, toolDeny: seq<string>, shell: seq<ShellEntry>,
    fs: Fs, git: Git, connectors: Connectors, egress: Egress,
    approvalRequiredFor: seq<string>, allowedAgentKinds: seq<string>,
    limits: Option<Limits>, audit: Option<Audit>)

  datatype LoadError =
    | CannotRead(id: string)
    | EnablesFsWrite | EnablesGit(flag: string) | DeclaresConnectorWrites
    | InconsistentAssessor(id: string, what: string)
    | UnknownAgentKind(kind: string)

  const DEFAULT_FS_READ := "project_root"
  const DEFAULT_FS_WRITE := "none"

  // ---- what the loops compute ----

  /** `a`, then the elements of `b` not there yet, in order. */
  function Union(a: seq<string>, b: seq<string>): (r: seq<string>)
    ensures forall x :: x in r <==> x in a || x in b
    ensures a <= r
    decreases |b|
  {
    if b == [] then a
    else
      assert forall x :: x in b <==> x == b[0] || x in b[1..];
      var a' := if b[0] in a then a else a + [b[0]];
      assert forall x :: x in a' <==> x in a || x == b[0];
      Union(a', b[1..])
  }

  function HasBin(es: seq<ShellEntry>, bin: string): (r: bool)
    ensures r <==> exists i :: 0 <= i < |es| && es[i].bin == bin
  {
    if es == [] then false else es[0].bin == bin || HasBin(es[1..], bin)
  }

  /** Entries of the child are added only for binaries the parent does not list. */
  function AddBins(a: seq<ShellEntry>, b: seq<ShellEntry>): (r: seq<ShellEntry>)
    ensures a <= r
    decreases |b|
  {
    if b == [] then a
    else AddBins(if HasBin(a, b[0].bin) then a else a + [b[0]], b[1..])
  }

  function KeepOnly(a: seq<string>, keep: seq<string>): (r: seq<string>)
    ensures forall x :: x in r <==> x in a && x in keep
  {
    if a == [] then []
    else
      assert forall x :: x in a <==> x == a[0] || x in a[1..];
      (if a[0] in keep then [a[0]] else []) + KeepOnly(a[1..], keep)
  }

  /** The first git write flag the child sets and the parent does not. */
  function NewGitFlag(parent: Git, child: Git): Option<string> {
    if !parent.branch && child.branch then Some("branch")
    else if !parent.commit && child.commit then Some("commit")
    else if !parent.tag && child.tag then Some("tag")
    else if !parent.push && child.push then Some("push")
    else None
  }

  predicate OverridesFsRead(child: Fs) { child.read != DEFAULT_FS_READ && child.read != "" }

  /** The file section: the write mode, the scoped paths and the size caps stay the parent's. */
  function MergeFs(parent: Fs, child: Fs): Result<Fs, LoadError> {
    if OverridesFsRead(child) && child.write != DEFAULT_FS_WRITE && parent.write == DEFAULT_FS_WRITE
    then Err(EnablesFsWrite)
    else Ok(Fs(
      if OverridesFsRead(child) then child.read else parent.read, parent.write, parent.scopedPaths,
      Union(parent.docsRoots, child.docsRoots), Union(parent.denyGlobs, child.denyGlobs),
      parent.maxBytesPerRead, parent.maxBytesPerWrite))
  }

  function MergeGit(cls: Class, parent: Git, child: Git): Result<Git, LoadError> {
    if cls.Executor? then Ok(child)
    else
      match NewGitFlag(parent, child)
      case Some(flag) => Err(EnablesGit(flag))
      case None => Ok(parent)
  }

  function MergeConnectors(cls: Class, parent: Connectors, child: Connectors): Result<Connectors, LoadError> {
    if child.write != [] && cls.Assessor? then Err(DeclaresConnectorWrites)
    else Ok(Connectors(Union(parent.read, child.read), if child.write != [] then child.write else parent.write))
  }

  function MergeEgress(parent: Egress, child: Egress): Egress {
    Egress(parent.mode, Union(parent.hostAllowlist, child.hostAllowlist),
           if child.methodsAllow != [] then child.methodsAllow else parent.methodsAllow)
  }

  function MergeKinds(parent: seq<string>, child: seq<string>): (r: seq<string>)
    ensures forall k :: k in r ==> k in parent
  {
    if child != [] then KeepOnly(parent, child) else parent
  }

  /** `merge_with_parent`: the child's profile on top of its resolved parent, or the first refusal. */
  function Merge(parent: Profile, child: Profile): Result<Profile, LoadError> {
    match MergeFs(parent.fs, child.fs)
    case Err(e) => Err(e)
    case Ok(fs) =>
      match MergeGit(parent.cls, parent.git, child.git)
      case Err(e) => Err(e)
      case Ok(git) =>
        match MergeConnectors(parent.cls, parent.connectors, child.connectors)
        case Err(e) => Err(e)
        case Ok(connectors) => Ok(Profile(
          child.id, parent.cls, child.version,
          if child.description.Some? then child.description else parent.description,
          child.inheritsFrom,
          Union(parent.toolAllow, child.toolAllow), Union(parent.toolDeny, child.toolDeny),
          AddBins(parent.shell, child.shell), fs, git, connectors,
          MergeEgress(parent.egress, child.egress),
          Union(parent.approvalRequiredFor, child.approvalRequiredFor),
          MergeKinds(parent.allowedAgentKinds, child.allowedAgentKinds),
          parent.limits, parent.audit))
  }

  predicate KnownKind(k: string) { k == "mock" || k == "vac-native" || k == "acp" }

  function FirstUnknownKind(kinds: seq<string>): (r: Option<string>)
    ensures r.None? <==> forall k :: k in kinds ==> KnownKind(k)
  {
    if kinds == [] then None
    else if !KnownKind(kinds[0]) then Some(kinds[0])
    else
      assert forall k :: k in kinds <==> k == kinds[0] || k in kinds[1..];
      FirstUnknownKind(kinds[1..])
  }

  /** `validate_consistency`. */
  function Validate(p: Profile): Option<LoadError> {
    if p.cls.Assessor? && p.fs.write != "none" then Some(InconsistentAssessor(p.id, "fs.write"))
    else if p.cls.Assessor? && (p.git.commit || p.git.push || p.git.tag || p.git.branch)
    then Some(InconsistentAssessor(p.id, "git"))
    else if p.cls.Assessor? && p.connectors.write != [] then Some(InconsistentAssessor(p.id, "connectors"))
    else
      match FirstUnknownKind(p.allowedAgentKinds)
      case None => None
      case Some(k) => Some(UnknownAgentKind(k))
  }

  function Validated(p: Profile): Result<Profile, LoadError> {
    match Validate(p) case None => Ok(p) case Some(e) => Err(e)
  }

  // ---- the code's loops ----

  method PushMissing(a: seq<string>, b: seq<string>) returns (out: seq<string>)
    ensures out == Union(a, b)
  {
    out := a;
    var i := 0;
    while i < |b|
      invariant i <= |b|
      invariant Union(out, b[i..]) == Union(a, b)
    {
      assert b[i..][0] == b[i] && b[i..][1..] == b[i + 1..];
      if b[i] !in out { out := out + [b[i]]; }
      i := i + 1;
    }
    assert b[i..] == [];
  }

  method PushMissingBins(a: seq<ShellEntry>, b: seq<ShellEntry>) returns (out: seq<ShellEntry>)
    ensures out == AddBins(a, b)
  {
    out := a;
    var i := 0;
    while i < |b|
      invariant i <= |b|
      invariant AddBins(out, b[i..]) == AddBins(a, b)
    {
      assert b[i..][0] == b[i] && b[i..][1..] == b[i + 1..];
      if !HasBin(out, b[i].bin) { out := out + [b[i]]; }
      i := i + 1;
    }
    assert b[i..] == [];
  }

  lemma {:induction false} KeepOnlyLast(a: seq<string>, x: string, keep: seq<string>)
    ensures KeepOnly(a + [x], keep) == KeepOnly(a, keep) + if x in keep then [x] else []
  {
    if a == [] {
      assert a + [x] == [x] && [x][1..] == [];
    } else {
      assert (a + [x])[1..] == a[1..] + [x];
      KeepOnlyLast(a[1..], x, keep);
    }
  }

  method RetainKinds(a: seq<string>, keep: seq<string>) returns (out: seq<string>)
    ensures out == KeepOnly(a, keep)
  {
    out := [];
    for i := 0 to |a|
      invariant out == KeepOnly(a[..i], keep)
    {
      assert a[..i + 1] == a[..i] + [a[i]];
      KeepOnlyLast(a[..i], a[i], keep);
      if a[i] in keep { out := out + [a[i]]; }
    }
    assert a[..|a|] == a;
  }

  method CheckGitFlags(parent: Git, child: Git) returns (r: Option<string>)
    ensures r == NewGitFlag(parent, child)
  {
    var parentVals := [parent.branch, parent.commit, parent.tag, parent.push];
    var childVals := [child.branch, child.commit, child.tag, child.push];
    var names := ["branch", "commit", "tag", "push"];
    var i := 0;
    while i < 4
      invariant i <= 4
      invariant 0 < i ==> parent.branch || !child.branch
      invariant 1 < i ==> parent.commit || !child.commit
      invariant 2 < i ==> parent.tag || !child.tag
      invariant 3 < i ==> parent.push || !child.push
    {
      if !parentVals[i] && childVals[i] { return Some(names[i]); }
      i := i + 1;
    }
    return None;
  }

  /** The sections are updated one after the other, as the fields of `out` are; the first refusal returns. */
  method MergeWithParent(parent: Profile, child: Profile) returns (r: Result<Profile, LoadError>)
    ensures r == Merge(parent, child)
  {
    var description := if child.description.Some? then child.description else parent.description;
    var allow := PushMissing(parent.toolAllow, child.toolAllow);
    var deny := PushMissing(parent.toolDeny, child.toolDeny);
    var shell := PushMissingBins(parent.shell, child.shell);
    var fsRead := parent.fs.read;
    if child.fs.read != DEFAULT_FS_READ && child.fs.read != "" {
      if child.fs.write != DEFAULT_FS_WRITE && parent.fs.write == DEFAULT_FS_WRITE { return Err(EnablesFsWrite); }
      fsRead := child.fs.read;
    }
    var globs := PushMissing(parent.fs.denyGlobs, child.fs.denyGlobs);
    var roots := PushMissing(parent.fs.docsRoots, child.fs.docsRoots);
    var git := parent.git;
    if parent.cls == Assessor {
      var flag := CheckGitFlags(git, child.git);
      if flag.Some? { return Err(EnablesGit(flag.value)); }
    } else {
      git := child.git;
    }
    var readable := PushMissing(parent.connectors.read, child.connectors.read);
    var writable := parent.connectors.write;
    if child.connectors.write != [] {
      if parent.cls == Assessor { return Err(DeclaresConnectorWrites); }
      writable := child.connectors.write;
    }
    var hosts := PushMissing(parent.egress.hostAllowlist, child.egress.hostAllowlist);
    var methods := if child.egress.methodsAllow != [] then child.egress.methodsAllow else parent.egress.methodsAllow;
    var approvals := PushMissing(parent.approvalRequiredFor, child.approvalRequiredFor);
    var kinds := parent.allowedAgentKinds;
    if child.allowedAgentKinds != [] { kinds := RetainKinds(kinds, child.allowedAgentKinds); }
    return Ok(Profile(
      child.id, parent.cls, child.version, description, child.inheritsFrom, allow, deny, shell,
      Fs(fsRead, parent.fs.write, parent.fs.scopedPaths, roots, globs,
         parent.fs.maxBytesPerRead, parent.fs.maxBytesPerWrite),
      git, Connectors(readable, writable), Egress(parent.egress.mode, hosts, methods),
      approvals, kinds, parent.limits, parent.audit));
  }
}
