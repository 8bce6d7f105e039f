/** Decisions over a loaded profile. Globs, regular expressions and path handling are those of an arbitrary `Engine`. */
module Enforce {
  import opened Wrappers
  import opened Profile

  datatype Decision = Allow | Deny(code: string)

  /**
   * What the profile code asks of the glob, regex and path libraries. `setBuilds` says whether a list of
   * patterns that each parse can be compiled into one set.
   */
  datatype Engine = Engine(
    globValid: string -> bool, globMatches: (string, string) -> bool, setBuilds: seq<string> -> bool,
    regexValid: string -> bool, regexMatches: (string, string) -> bool,
    canonical: string -> string, under: (string, string) -> bool,
    relative: (string, string) -> string, baseName: string -> Option<string>)

  function EnforceAgentKind(p: Profile, kind: string): (r: Decision)
    ensures r.Allow? <==> kind in p.allowedAgentKinds
  {
    if kind in p.allowedAgentKinds then Allow else Deny("agent.kind_not_allowed")
  }

  predicate HasMeta(p: string) { '*' in p || '?' in p || '[' in p }

  predicate PatternHits(e: Engine, p: string, target: string) {
    p == target || (HasMeta(p) && e.globValid(p) && e.globMatches(p, target))
  }

  predicate MatchesAny(e: Engine, patterns: seq<string>, target: string) {
    exists p :: p in patterns && PatternHits(e, p, target)
  }

  function EnforceTool(e: Engine, p: Profile, tool: string): Decision {
    if MatchesAny(e, p.toolDeny, tool) then Deny("profile.tool_denied")
    else if MatchesAny(e, p.toolAllow, tool) then Allow
    else Deny("profile.tool_not_allowed")
  }

  function FindBin(es: seq<ShellEntry>, bin: string): (r: Option<ShellEntry>)
    ensures r.Some? <==> HasBin(es, bin)
  {
    if es == [] then None else if es[0].bin == bin then Some(es[0]) else FindBin(es[1..], bin)
  }

  function Join(parts: seq<string>, sep: string): string {
    if parts == [] then "" else if |parts| == 1 then parts[0] else parts[0] + sep + Join(parts[1..], sep)
  }

  const META_CHARS: string := ";&|`$><\n\r\0(){}\\"

  predicate ContainsShellMeta(s: string) { exists c :: c in s && c in META_CHARS }

  /** The decision of one allowlist entry on an argument list. */
  function EntryDecision(e: Engine, entry: ShellEntry, args: seq<string>): Decision {
    if |args| > entry.maxArgs then Deny("profile.shell_too_many_args")
    else if entry.argsPattern.Some? && !e.regexValid(entry.argsPattern.value) then Deny("profile.shell_pattern_invalid")
    else if entry.argsPattern.Some? && !e.regexMatches(entry.argsPattern.value, Join(args, "\U{1F}"))
    then Deny("profile.shell_args_pattern_mismatch")
    else if exists a :: a in args && ContainsShellMeta(a) then Deny("profile.shell_meta_chars")
    else Allow
  }

  function EnforceShell(e: Engine, p: Profile, bin: string, args: seq<string>): Decision {
    match FindBin(p.shell, bin)
    case None => Deny("profile.shell_bin_not_allowed")
    case Some(entry) => EntryDecision(e, entry, args)
  }

  function ValidGlobs(e: Engine, patterns: seq<string>): (r: seq<string>)
    ensures forall g :: g in r <==> g in patterns && e.globValid(g)
  {
    if patterns == [] then []
    else
      assert forall g :: g in patterns <==> g == patterns[0] || g in patterns[1..];
      (if e.globValid(patterns[0]) then [patterns[0]] else []) + ValidGlobs(e, patterns[1..])
  }

  /** `build_globs`: patterns that do not parse are skipped; a set that does not compile becomes the empty set. */
  function BuildGlobs(e: Engine, patterns: seq<string>): seq<string> {
    if e.setBuilds(ValidGlobs(e, patterns)) then ValidGlobs(e, patterns) else []
  }

  predicate SetMatches(e: Engine, globs: seq<string>, text: string) {
    exists g :: g in globs && e.globMatches(g, text)
  }

  function RelativeOrSelf(e: Engine, path: string, root: string): string {
    if e.under(path, root) then e.relative(path, root) else path
  }

  /** `glob_deny_match`: the relative path, the base name, or the whole path hits one of the built globs. */
  predicate GlobDenyMatch(e: Engine, patterns: seq<string>, path: string, root: string) {
    var globs := BuildGlobs(e, patterns);
    || SetMatches(e, globs, RelativeOrSelf(e, path, root))
    || (e.baseName(path).Some? && SetMatches(e, globs, e.baseName(path).value))
    || SetMatches(e, globs, path)
  }

  function EnforceFsWrite(e: Engine, p: Profile, path: string, projectRoot: string): Decision {
    var canonPath, canonRoot := e.canonical(path), e.canonical(projectRoot);
    if p.fs.write == "none" then Deny("profile.fs_write_disabled")
    else if p.fs.write == "project_root" then
      if !e.under(canonPath, canonRoot) then Deny("profile.fs_out_of_scope")
      else if GlobDenyMatch(e, p.fs.denyGlobs, canonPath, canonRoot) then Deny("profile.fs_deny_glob")
      else Allow
    else if p.fs.write == "scoped_paths" then
      if !SetMatches(e, BuildGlobs(e, p.fs.scopedPaths), RelativeOrSelf(e, canonPath, canonRoot))
      then Deny("profile.fs_scoped_paths_mismatch")
      else if GlobDenyMatch(e, p.fs.denyGlobs, canonPath, canonRoot) then Deny("profile.fs_deny_glob")
      else Allow
    else Deny("profile.fs_write_unknown")
  }

  // ---- how the decisions move when a profile is narrowed ----

  /** What a resolved descendant keeps of a resolved ancestor. */
  ghost predicate Narrows(above: Profile, below: Profile) {
    && below.cls == above.cls
    && below.fs.write == above.fs.write
    && below.fs.scopedPaths == above.fs.scopedPaths
    && (forall g :: g in above.fs.denyGlobs ==> g in below.fs.denyGlobs)
    && (forall t :: t in above.toolDeny ==> t in below.toolDeny)
    && (forall a :: a in above.approvalRequiredFor ==> a in below.approvalRequiredFor)
    && (forall k :: k in below.allowedAgentKinds ==> k in above.allowedAgentKinds)
    && above.shell <= below.shell
  }

  lemma {:induction false} FindInPrefix(es: seq<ShellEntry>, longer: seq<ShellEntry>, bin: string)
    requires es <= longer && HasBin(es, bin)
    ensures FindBin(longer, bin) == FindBin(es, bin)
  {
    if es[0].bin != bin {
      assert es[1..] <= longer[1..];
      FindInPrefix(es[1..], longer[1..], bin);
    }
  }

  /** Deny lists, agent kinds and listed binaries only ever narrow, for every engine, tool and argument list. */
  lemma NarrowedDecisions(e: Engine, above: Profile, below: Profile, tool: string, kind: string,
                          bin: string, args: seq<string>)
    requires Narrows(above, below)
    ensures MatchesAny(e, above.toolDeny, tool) ==> EnforceTool(e, below, tool) == Deny("profile.tool_denied")
    ensures EnforceAgentKind(below, kind).Allow? ==> EnforceAgentKind(above, kind).Allow?
    ensures HasBin(above.shell, bin) ==> EnforceShell(e, below, bin, args) == EnforceShell(e, above, bin, args)
  {
    if HasBin(above.shell, bin) { FindInPrefix(above.shell, below.shell, bin); }
  }

  /** Both engines parse and compile the same patterns; they may match anything. */
  ghost predicate SameCompilation(e: Engine, f: Engine) {
    (forall g :: f.globValid(g) == e.globValid(g)) && (forall gs :: f.setBuilds(gs) == e.setBuilds(gs))
  }

  /**
   * When a write can be allowed below and refused above: the ancestor's deny globs are in force, the
   * descendant's longer list does not compile and so denies nothing, and the write mode lets a path through.
   */
  predicate DenyListLost(e: Engine, above: Profile, below: Profile) {
    && BuildGlobs(e, above.fs.denyGlobs) != []
    && !e.setBuilds(ValidGlobs(e, below.fs.denyGlobs))
    && (|| above.fs.write == "project_root"
        || (above.fs.write == "scoped_paths" && BuildGlobs(e, above.fs.scopedPaths) != []))
  }

  ghost predicate WriteNeverWidens(e: Engine, above: Profile, below: Profile) {
    forall f, path, root :: SameCompilation(e, f) && EnforceFsWrite(f, below, path, root).Allow?
      ==> EnforceFsWrite(f, above, path, root).Allow?
  }

  lemma {:induction false} SameValid(e: Engine, f: Engine, patterns: seq<string>)
    requires SameCompilation(e, f)
    ensures ValidGlobs(f, patterns) == ValidGlobs(e, patterns)
  {
    if patterns != [] { SameValid(e, f, patterns[1..]); }
  }

  lemma SetMatchesMore(e: Engine, globs: seq<string>, more: seq<string>, text: string)
    requires forall g :: g in globs ==> g in more
    ensures SetMatches(e, globs, text) ==> SetMatches(e, more, text)
  {}

  lemma LostNothing(e: Engine, above: Profile, below: Profile, path: string, root: string)
    requires Narrows(above, below) && !DenyListLost(e, above, below)
    ensures EnforceFsWrite(e, below, path, root).Allow? ==> EnforceFsWrite(e, above, path, root).Allow?
  {
    var canonPath, canonRoot := e.canonical(path), e.canonical(root);
    var mine, theirs := BuildGlobs(e, above.fs.denyGlobs), BuildGlobs(e, below.fs.denyGlobs);
    if forall g :: g in mine ==> g in theirs {
      SetMatchesMore(e, mine, theirs, RelativeOrSelf(e, canonPath, canonRoot));
      SetMatchesMore(e, mine, theirs, canonPath);
      if e.baseName(canonPath).Some? { SetMatchesMore(e, mine, theirs, e.baseName(canonPath).value); }
      assert GlobDenyMatch(e, above.fs.denyGlobs, canonPath, canonRoot)
        ==> GlobDenyMatch(e, below.fs.denyGlobs, canonPath, canonRoot);
    }
  }

  /** The engine that compiles like `e` and matches everything. */
  function MatchAll(e: Engine): Engine {
    e.(globMatches := (g: string, t: string) => true, under := (p: string, r: string) => true,
       baseName := (p: string) => None)
  }

  lemma MatchAllHits(e: Engine, patterns: seq<string>, text: string)
    ensures SameCompilation(e, MatchAll(e))
    ensures SetMatches(MatchAll(e), BuildGlobs(MatchAll(e), patterns), text) <==> BuildGlobs(e, patterns) != []
  {
    var f := MatchAll(e);
    SameValid(e, f, patterns);
    var globs := BuildGlobs(f, patterns);
    assert globs == BuildGlobs(e, patterns);
    if globs != [] { assert globs[0] in globs && f.globMatches(globs[0], text); }
  }

  lemma LostSomething(e: Engine, above: Profile, below: Profile)
    requires Narrows(above, below) && DenyListLost(e, above, below)
    ensures SameCompilation(e, MatchAll(e))
    ensures EnforceFsWrite(MatchAll(e), below, "", "").Allow?
    ensures EnforceFsWrite(MatchAll(e), above, "", "") == Deny("profile.fs_deny_glob")
  {
    var f := MatchAll(e);
    var path := f.canonical("");
    MatchAllHits(e, above.fs.denyGlobs, path);
    MatchAllHits(e, below.fs.denyGlobs, path);
    MatchAllHits(e, below.fs.denyGlobs, RelativeOrSelf(f, path, path));
    MatchAllHits(e, above.fs.scopedPaths, RelativeOrSelf(f, path, path));
    assert GlobDenyMatch(f, above.fs.denyGlobs, path, path);
    assert !GlobDenyMatch(f, below.fs.denyGlobs, path, path);
  }

  /** The write mode lets this path through, before any deny glob is looked at. */
  predicate ModeLetsThrough(e: Engine, p: Profile, path: string, root: string) {
    var canonPath, canonRoot := e.canonical(path), e.canonical(root);
    || (p.fs.write == "project_root" && e.under(canonPath, canonRoot))
    || (p.fs.write == "scoped_paths"
        && SetMatches(e, BuildGlobs(e, p.fs.scopedPaths), RelativeOrSelf(e, canonPath, canonRoot)))
  }

  lemma WriteIsModeAndDeny(e: Engine, p: Profile, path: string, root: string)
    ensures EnforceFsWrite(e, p, path, root).Allow?
       <==> ModeLetsThrough(e, p, path, root) && !GlobDenyMatch(e, p.fs.denyGlobs, e.canonical(path), e.canonical(root))
  {}

  lemma LongerListDeniesMore(e: Engine, above: Profile, below: Profile, path: string, root: string)
    requires Narrows(above, below) && e.setBuilds(ValidGlobs(e, below.fs.denyGlobs))
    ensures GlobDenyMatch(e, above.fs.denyGlobs, path, root) ==> GlobDenyMatch(e, below.fs.denyGlobs, path, root)
  {
    var mine, theirs := BuildGlobs(e, above.fs.denyGlobs), BuildGlobs(e, below.fs.denyGlobs);
    SetMatchesMore(e, mine, theirs, RelativeOrSelf(e, path, root));
    SetMatchesMore(e, mine, theirs, path);
    if e.baseName(path).Some? { SetMatchesMore(e, mine, theirs, e.baseName(path).value); }
  }

  /**
   * For this engine, path and root: a write is allowed below and refused above exactly when the mode lets the path
   * through, the ancestor's deny list matches it, and the descendant's longer list does not compile.
   */
  lemma WriteWidensExactlyAt(e: Engine, above: Profile, below: Profile, path: string, root: string)
    requires Narrows(above, below)
    ensures EnforceFsWrite(e, below, path, root).Allow? && !EnforceFsWrite(e, above, path, root).Allow?
       <==> && ModeLetsThrough(e, above, path, root)
            && GlobDenyMatch(e, above.fs.denyGlobs, e.canonical(path), e.canonical(root))
            && !e.setBuilds(ValidGlobs(e, below.fs.denyGlobs))
  {
    WriteIsModeAndDeny(e, above, path, root);
    WriteIsModeAndDeny(e, below, path, root);
    if e.setBuilds(ValidGlobs(e, below.fs.denyGlobs)) {
      LongerListDeniesMore(e, above, below, e.canonical(path), e.canonical(root));
    }
  }

  lemma SameLoss(e: Engine, f: Engine, above: Profile, below: Profile)
    requires SameCompilation(e, f)
    ensures DenyListLost(f, above, below) <==> DenyListLost(e, above, below)
  {
    SameValid(e, f, above.fs.denyGlobs);
    SameValid(e, f, below.fs.denyGlobs);
    SameValid(e, f, above.fs.scopedPaths);
  }

  /** Writes never widen below, exactly when the descendant's deny list is not lost to a failed compilation. */
  lemma {:induction false} WriteNarrowsExactly(e: Engine, above: Profile, below: Profile)
    requires Narrows(above, below)
    ensures WriteNeverWidens(e, above, below) <==> !DenyListLost(e, above, below)
  {
    if DenyListLost(e, above, below) {
      LostSomething(e, above, below);
    } else {
      forall f, path, root | SameCompilation(e, f) && EnforceFsWrite(f, below, path, root).Allow?
        ensures EnforceFsWrite(f, above, path, root).Allow?
      {
        SameLoss(e, f, above, below);
        LostNothing(f, above, below, path, root);
      }
    }
  }
}
