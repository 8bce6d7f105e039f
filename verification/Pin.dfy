/** The pin of a handoff packet: the digest of the tracked worktree and the identity of the repository. */
module Pin {
  import opened Bytes
  import opened Ordering
  import opened Wrappers

  /** A file named by the listing; `content` is `None` when it cannot be read. */
  datatype Listed = Listed(path: string, content: Option<bytes>)

  /** UTF-8 and the lower-case hex text of SHA-256. */
  datatype Hasher = Hasher(utf8: string -> bytes, sha: bytes -> string)

  /** What git and the file system answer about a project; each answer may fail. */
  datatype Worktree = Worktree(
    branch: Option<string>, tag: Option<string>, head: Option<string>, files: Option<seq<Listed>>)

  datatype Pin = Pin(
    repoRef: string, baseSha: string, digest: string, snapshotAt: string, expiresAt: string, strict: bool)

  const EXCLUDED: seq<string> := [".git", "node_modules", "target", ".next", "dist", "build"]

  /** The exclusion is by prefix of the whole path. */
  predicate Excluded(path: string) { StartsWithAny(path, EXCLUDED) }

  predicate StartsWithAny(path: string, prefixes: seq<string>) {
    exists p :: p in prefixes && p <= path
  }

  datatype Entry = Entry(path: string, content: bytes)

  function EntryOf(f: Listed): Entry { Entry(f.path, if f.content.Some? then f.content.value else []) }

  /** The files that count, an unreadable one as empty. */
  function Tracked(files: seq<Listed>): seq<Entry> {
    if files == [] then []
    else (if Excluded(files[0].path) then [] else [EntryOf(files[0])]) + Tracked(files[1..])
  }

  function PartOf(h: Hasher, e: Entry): string { e.path + ":" + h.sha(e.content) }

  function Parts(h: Hasher, es: seq<Entry>): (ps: seq<string>)
    ensures |ps| == |es| && forall i :: 0 <= i < |es| ==> ps[i] == PartOf(h, es[i])
  {
    if es == [] then [] else [PartOf(h, es[0])] + Parts(h, es[1..])
  }

  function JoinLines(ps: seq<string>): string {
    if ps == [] then "" else if |ps| == 1 then ps[0] else ps[0] + "\n" + JoinLines(ps[1..])
  }

  function Self(s: string): string { s }

  function Listing(h: Hasher, es: seq<Entry>): string { JoinLines(Sort(Self, Parts(h, es))) }

  function Digest(h: Hasher, files: seq<Listed>): string { h.sha(h.utf8(Listing(h, Tracked(files)))) }

  function PartsOf(h: Hasher, files: seq<Listed>): seq<string> { Parts(h, Tracked(files)) }

  function OwnPart(h: Hasher, f: Listed): seq<string> {
    if Excluded(f.path) then [] else [PartOf(h, EntryOf(f))]
  }

  lemma LastPart(h: Hasher, files: seq<Listed>, i: nat)
    requires i < |files|
    ensures PartsOf(h, files[..i + 1]) == PartsOf(h, files[..i]) + OwnPart(h, files[i])
  {
    assert files[..i + 1] == files[..i] + [files[i]];
    TrackedConcat(files[..i], [files[i]]);
    PartsConcat(h, Tracked(files[..i]), Tracked([files[i]]));
  }

  method CollectParts(h: Hasher, files: seq<Listed>) returns (parts: seq<string>)
    ensures parts == PartsOf(h, files)
  {
    parts := [];
    for i := 0 to |files|
      invariant parts == PartsOf(h, files[..i])
    {
      var f := files[i];
      LastPart(h, files, i);
      if !Excluded(f.path) {
        var content := if f.content.Some? then f.content.value else [];
        parts := parts + [f.path + ":" + h.sha(content)];
      }
    }
    assert files[..|files|] == files;
  }

  /** `compute_worktree_digest`. */
  method ComputeWorktreeDigest(h: Hasher, files: Option<seq<Listed>>) returns (digest: Option<string>)
    ensures digest == if files.Some? then Some(Digest(h, files.value)) else None
  {
    if files.None? { return None; }
    var parts := CollectParts(h, files.value);
    parts := Sort(Self, parts);
    return Some(h.sha(h.utf8(JoinLines(parts))));
  }

  // ---- the pin ----

  function NonEmpty(s: Option<string>): Option<string> { if s == Some("") then None else s }

  /** `compute_pin` with the repository reference and commit taken from git, as the service always asks. */
  function ComputePin(h: Hasher, w: Worktree, snapshotAt: string, expiresAt: string, strict: bool): Pin {
    Pin(match NonEmpty(w.branch)
        case Some(b) => "branch:" + b
        case None => (match NonEmpty(w.tag) case Some(t) => "tag:" + t case None => ""),
        match w.head case Some(sha) => sha case None => "",
        match w.files case Some(files) => Digest(h, files) case None => "",
        snapshotAt, expiresAt, strict)
  }

  predicate IsComplete(p: Pin) {
    p.repoRef != "" && p.baseSha != "" && p.digest != "" && p.snapshotAt != "" && p.expiresAt != ""
  }

  predicate SameRepository(p: Pin, q: Pin) {
    p.repoRef == q.repoRef && p.baseSha == q.baseSha && p.digest == q.digest
  }

  // ---- the digest does not see the order of the listing ----

  lemma {:induction false} TrackedConcat(a: seq<Listed>, b: seq<Listed>)
    ensures Tracked(a + b) == Tracked(a) + Tracked(b)
  {
    if a == [] {
      assert a + b == b;
    } else {
      assert (a + b)[1..] == a[1..] + b;
      TrackedConcat(a[1..], b);
    }
  }

  lemma {:induction false} PartsConcat(h: Hasher, a: seq<Entry>, b: seq<Entry>)
    ensures Parts(h, a + b) == Parts(h, a) + Parts(h, b)
  {}

  lemma TakeOut<T>(a: seq<T>, x: T, b: seq<T>)
    ensures multiset(a + [x] + b) == multiset(a + b) + multiset{x}
  {
    assert multiset(a + [x] + b) == multiset(a) + multiset{x} + multiset(b);
    assert multiset(a + b) == multiset(a) + multiset(b);
  }

  lemma CancelOne<T>(l: multiset<T>, r: multiset<T>, x: T)
    requires l + multiset{x} == r + multiset{x}
    ensures l == r
  {
    assert l == (l + multiset{x}) - multiset{x} && r == (r + multiset{x}) - multiset{x};
  }

  lemma HeadOut<T>(a: seq<T>)
    requires a != []
    ensures multiset(a) == multiset(a[1..]) + multiset{a[0]}
  {
    assert a == [a[0]] + a[1..];
  }

  lemma Uproot<T>(a: seq<T>, b: seq<T>) returns (k: nat)
    requires a != [] && multiset(a) == multiset(b)
    ensures k < |b| && b == b[..k] + [a[0]] + b[k + 1..]
    ensures multiset(a[1..]) == multiset(b[..k] + b[k + 1..])
  {
    SameElements(a, b, a[0]);
    k :| 0 <= k < |b| && b[k] == a[0];
    var left, right := b[..k], b[k + 1..];
    assert b == left + [a[0]] + right;
    HeadOut(a);
    TakeOut(left, a[0], right);
    CancelOne(multiset(a[1..]), multiset(left + right), a[0]);
  }

  lemma {:induction false} TrackedForgetsOrder(a: seq<Listed>, b: seq<Listed>)
    requires multiset(a) == multiset(b)
    ensures multiset(Tracked(a)) == multiset(Tracked(b))
    decreases |a|
  {
    if a == [] {
      assert |b| == |multiset(b)| == 0;
    } else {
      var k := Uproot(a, b);
      TrackedForgetsOrder(a[1..], b[..k] + b[k + 1..]);
      TrackedConcat(b[..k], b[k + 1..]);
      TrackedConcat(b[..k] + [a[0]], b[k + 1..]);
      TrackedConcat(b[..k], [a[0]]);
      TrackedConcat([a[0]], a[1..]);
      assert a == [a[0]] + a[1..];
    }
  }

  lemma {:induction false} PartsForgetOrder(h: Hasher, a: seq<Entry>, b: seq<Entry>)
    requires multiset(a) == multiset(b)
    ensures multiset(Parts(h, a)) == multiset(Parts(h, b))
    decreases |a|
  {
    if a == [] {
      assert |b| == |multiset(b)| == 0;
    } else {
      var k := Uproot(a, b);
      PartsForgetOrder(h, a[1..], b[..k] + b[k + 1..]);
      PartsConcat(h, b[..k], b[k + 1..]);
      PartsConcat(h, b[..k] + [a[0]], b[k + 1..]);
      PartsConcat(h, b[..k], [a[0]]);
      PartsConcat(h, [a[0]], a[1..]);
      assert a == [a[0]] + a[1..];
    }
  }

  lemma SameEntriesSameListing(h: Hasher, a: seq<Entry>, b: seq<Entry>)
    requires multiset(a) == multiset(b)
    ensures Listing(h, a) == Listing(h, b)
  {
    PartsForgetOrder(h, a, b);
    SortForgetsOrder(Self, Parts(h, a), Parts(h, b));
  }

  /** Any two orders of the same listing have the same digest. */
  lemma DigestForgetsOrder(h: Hasher, a: seq<Listed>, b: seq<Listed>)
    requires multiset(a) == multiset(b)
    ensures Digest(h, a) == Digest(h, b)
  {
    TrackedForgetsOrder(a, b);
    SameEntriesSameListing(h, Tracked(a), Tracked(b));
  }

  // ---- the listing text determines the entries ----

  predicate OneLine(s: string) { '\n' !in s }

  predicate AtLineEnd(s: string) { s != "" ==> s[0] == '\n' }

  /** However the two lines go on, they do not read alike unless they are the same. */
  ghost predicate LinesApart(x: string, y: string) {
    forall s, t :: AtLineEnd(s) && AtLineEnd(t) && x + s == y + t ==> x == y
  }

  ghost predicate Readable(ps: seq<string>, qs: seq<string>) {
    && "" !in ps && "" !in qs
    && forall p, q :: p in ps && q in qs ==> LinesApart(p, q)
  }

  function After(ps: seq<string>): string { if ps == [] then "" else "\n" + JoinLines(ps) }

  lemma JoinSplits(ps: seq<string>)
    requires "" !in ps
    ensures JoinLines(ps) == "" <==> ps == []
    ensures ps != [] ==> JoinLines(ps) == ps[0] + After(ps[1..])
  {
    if ps != [] { assert ps[0] in ps; }
    if |ps| > 1 { assert ps[0] + "\n" + JoinLines(ps[1..]) == ps[0] + ("\n" + JoinLines(ps[1..])); }
  }

  lemma FirstLines(ps: seq<string>, qs: seq<string>)
    requires Readable(ps, qs) && JoinLines(ps) == JoinLines(qs) && ps != []
    ensures qs != [] && ps[0] == qs[0] && After(ps[1..]) == After(qs[1..])
  {
    JoinSplits(ps);
    JoinSplits(qs);
    if qs != [] {
      var s, t := After(ps[1..]), After(qs[1..]);
      assert ps[0] in ps && qs[0] in qs && LinesApart(ps[0], qs[0]);
      assert AtLineEnd(s) && AtLineEnd(t) && ps[0] + s == qs[0] + t;
      assert (ps[0] + s)[|ps[0]|..] == s && (qs[0] + t)[|qs[0]|..] == t;
    }
  }

  lemma TailLines(ps: seq<string>, qs: seq<string>)
    requires Readable(ps, qs) && ps != [] && qs != []
    ensures Readable(ps[1..], qs[1..])
  {
    forall p | p in ps[1..] ensures p in ps {}
    forall q | q in qs[1..] ensures q in qs {}
  }

  lemma {:induction false} JoinInjective(ps: seq<string>, qs: seq<string>)
    requires Readable(ps, qs) && JoinLines(ps) == JoinLines(qs)
    ensures ps == qs
  {
    if ps == [] {
      JoinSplits(qs);
    } else {
      FirstLines(ps, qs);
      AfterInjective(ps[1..], qs[1..]);
      TailLines(ps, qs);
      JoinInjective(ps[1..], qs[1..]);
      assert ps == [ps[0]] + ps[1..] && qs == [qs[0]] + qs[1..];
    }
  }

  lemma AfterInjective(ps: seq<string>, qs: seq<string>)
    requires After(ps) == After(qs)
    ensures ps == [] <==> qs == []
    ensures JoinLines(ps) == JoinLines(qs)
  {
    assert ps != [] ==> After(ps)[1..] == JoinLines(ps);
    assert qs != [] ==> After(qs)[1..] == JoinLines(qs);
  }

  /** Hash texts have one length and hold no line break. */
  ghost predicate HexHashes(h: Hasher) { forall b :: |h.sha(b)| == 64 && OneLine(h.sha(b)) }

  /** Among the given inputs no two different ones hash alike. */
  ghost predicate NoCollision(h: Hasher, inputs: set<bytes>) {
    forall x, y :: x in inputs && y in inputs && h.sha(x) == h.sha(y) ==> x == y
  }

  function Contents(es: seq<Entry>): set<bytes> { set i | 0 <= i < |es| :: es[i].content }

  /** Everything hashed while the two digests are computed. */
  function Hashed(h: Hasher, a: seq<Entry>, b: seq<Entry>): set<bytes> {
    Contents(a) + Contents(b) + {h.utf8(Listing(h, a)), h.utf8(Listing(h, b))}
  }

  ghost predicate Occurs(part: string, s: string) { exists before, after :: s == before + part + after }

  /** What ends the part of a file with this content, when another part follows. */
  function PartEnd(h: Hasher, content: bytes): string { ":" + h.sha(content) + "\n" }

  /** No path in one worktree spells out the end of a part of the other. */
  ghost predicate ClearPaths(h: Hasher, a: seq<Entry>, b: seq<Entry>) {
    forall d, e :: d in a && e in b ==> !Occurs(PartEnd(h, d.content), e.path) && !Occurs(PartEnd(h, e.content), d.path)
  }

  /** Where a shorter part reads like the start of a longer one, the longer one's path spells out its end. */
  lemma ShorterPart(h: Hasher, d: Entry, e: Entry, s: string, t: string)
    requires HexHashes(h) && AtLineEnd(s) && |PartOf(h, d)| < |PartOf(h, e)|
    requires PartOf(h, d) + s == PartOf(h, e) + t
    ensures Occurs(PartEnd(h, d.content), e.path)
  {
    var p, q, n := PartOf(h, d), PartOf(h, e), |d.path|;
    assert |p| == n + 65 && |q| == |e.path| + 65;
    assert (p + s)[|p|] == s[0] == '\n' && (q + t)[|p|] == q[|p|];
    assert q[|e.path|] == ':' && forall i :: |e.path| < i < |q| ==> q[i] == h.sha(e.content)[i - |e.path| - 1] != '\n';
    assert |p| < |e.path|;
    assert forall i :: 0 <= i < |p| ==> (p + s)[i] == p[i] && (q + t)[i] == e.path[i];
    assert e.path[n..|p|] == p[n..] == ":" + h.sha(d.content);
    var end := PartEnd(h, d.content);
    assert e.path[n..n + 66] == e.path[n..|p|] + [e.path[|p|]] == end;
    assert e.path == e.path[..n] + end + e.path[n + 66..];
  }

  lemma PartsApart(h: Hasher, d: Entry, e: Entry)
    requires HexHashes(h) && !Occurs(PartEnd(h, d.content), e.path) && !Occurs(PartEnd(h, e.content), d.path)
    ensures LinesApart(PartOf(h, d), PartOf(h, e))
  {
    var p, q := PartOf(h, d), PartOf(h, e);
    forall s, t | AtLineEnd(s) && AtLineEnd(t) && p + s == q + t ensures p == q {
      if |p| < |q| { ShorterPart(h, d, e, s, t); }
      if |q| < |p| { ShorterPart(h, e, d, t, s); }
      assert (p + s)[..|p|] == p && (q + t)[..|q|] == q;
    }
  }

  lemma PartsInjective(h: Hasher, d: Entry, e: Entry)
    requires HexHashes(h) && PartOf(h, d) == PartOf(h, e)
    ensures d.path == e.path && h.sha(d.content) == h.sha(e.content)
  {
    var p, q := PartOf(h, d), PartOf(h, e);
    assert |p| == |d.path| + 65 && |q| == |e.path| + 65;
    assert p[..|d.path|] == d.path && q[..|e.path|] == e.path;
    assert p[|d.path| + 1..] == h.sha(d.content) && q[|e.path| + 1..] == h.sha(e.content);
  }

  ghost predicate PartsTell(h: Hasher, es: seq<Entry>, e: Entry) {
    forall d :: d in es && PartOf(h, d) == PartOf(h, e) ==> d == e
  }

  /** A part that comes from no other entry occurs as often as its entry. */
  lemma {:induction false} CountThrough(h: Hasher, es: seq<Entry>, e: Entry)
    requires PartsTell(h, es, e)
    ensures multiset(Parts(h, es))[PartOf(h, e)] == multiset(es)[e]
  {
    if es != [] {
      assert es == [es[0]] + es[1..];
      assert Parts(h, es) == [PartOf(h, es[0])] + Parts(h, es[1..]);
      assert PartsTell(h, es[1..], e);
      assert es[0] in es;
      CountThrough(h, es[1..], e);
    }
  }

  lemma PartsTellHere(h: Hasher, a: seq<Entry>, b: seq<Entry>, e: Entry)
    requires HexHashes(h) && NoCollision(h, Hashed(h, a, b)) && (e in a || e in b)
    ensures PartsTell(h, a, e) && PartsTell(h, b, e)
  {
    forall d | (d in a || d in b) && PartOf(h, d) == PartOf(h, e) ensures d == e {
      PartsInjective(h, d, e);
    }
  }

  lemma SamePartsSameEntries(h: Hasher, a: seq<Entry>, b: seq<Entry>)
    requires HexHashes(h) && NoCollision(h, Hashed(h, a, b))
    requires multiset(Parts(h, a)) == multiset(Parts(h, b))
    ensures multiset(a) == multiset(b)
  {
    forall e | e in a || e in b ensures multiset(a)[e] == multiset(b)[e] {
      PartsTellHere(h, a, b, e);
      CountThrough(h, a, e);
      CountThrough(h, b, e);
    }
    assert forall e :: e !in a && e !in b ==> multiset(a)[e] == multiset(b)[e] == 0;
  }

  lemma PartOfEntry(h: Hasher, es: seq<Entry>, p: string) returns (e: Entry)
    requires p in Sort(Self, Parts(h, es))
    ensures e in es && p == PartOf(h, e)
  {
    var ps := Parts(h, es);
    SameElements(Sort(Self, ps), ps, p);
    var i :| 0 <= i < |ps| && ps[i] == p;
    e := es[i];
  }

  lemma PartLines(h: Hasher, a: seq<Entry>, b: seq<Entry>)
    requires HexHashes(h) && ClearPaths(h, a, b)
    ensures Readable(Sort(Self, Parts(h, a)), Sort(Self, Parts(h, b)))
  {
    var ps, qs := Sort(Self, Parts(h, a)), Sort(Self, Parts(h, b));
    if "" in ps { var e := PartOfEntry(h, a, ""); }
    if "" in qs { var e := PartOfEntry(h, b, ""); }
    forall p, q | p in ps && q in qs ensures LinesApart(p, q) {
      var d := PartOfEntry(h, a, p);
      var e := PartOfEntry(h, b, q);
      PartsApart(h, d, e);
    }
  }

  lemma {:induction false} SameListingSameEntries(h: Hasher, a: seq<Entry>, b: seq<Entry>)
    requires HexHashes(h) && NoCollision(h, Hashed(h, a, b)) && ClearPaths(h, a, b)
    requires Listing(h, a) == Listing(h, b)
    ensures multiset(a) == multiset(b)
  {
    PartLines(h, a, b);
    JoinInjective(Sort(Self, Parts(h, a)), Sort(Self, Parts(h, b)));
    SamePartsSameEntries(h, a, b);
  }

  /** The encoding keeps these two listings apart. */
  ghost predicate Encodes(h: Hasher, a: seq<Entry>, b: seq<Entry>) {
    h.utf8(Listing(h, a)) == h.utf8(Listing(h, b)) ==> Listing(h, a) == Listing(h, b)
  }

  /** What the digest needs of its hash on two worktrees, and of the paths in them. */
  ghost predicate Distinguishes(h: Hasher, a: seq<Entry>, b: seq<Entry>) {
    HexHashes(h) && NoCollision(h, Hashed(h, a, b)) && Encodes(h, a, b) && ClearPaths(h, a, b)
  }

  /** Equal digests exactly when every tracked, not excluded path has the same content in both worktrees. */
  lemma {:induction false} DigestIffSameEntries(h: Hasher, a: seq<Listed>, b: seq<Listed>)
    requires Distinguishes(h, Tracked(a), Tracked(b))
    ensures Digest(h, a) == Digest(h, b) <==> multiset(Tracked(a)) == multiset(Tracked(b))
  {
    if Digest(h, a) == Digest(h, b) { SameListingSameEntries(h, Tracked(a), Tracked(b)); }
    if multiset(Tracked(a)) == multiset(Tracked(b)) { SameEntriesSameListing(h, Tracked(a), Tracked(b)); }
  }

  lemma PrefixBeforeColon(p: string, u: string, rest: string)
    requires ':' !in p && rest != "" && rest[0] == ':'
    ensures p <= u + rest ==> p <= u
  {
    assert (u + rest)[|u|] == ':' && (|u| < |p| ==> p[|u|] in p);
    assert |p| <= |u| && p <= u + rest ==> p == (u + rest)[..|p|] == u[..|p|];
  }

  /** No excluded name holds a colon. */
  lemma StillNotExcluded(u: string, rest: string)
    requires !Excluded(u) && rest != "" && rest[0] == ':'
    ensures !Excluded(u + rest)
  {
    forall p | p in EXCLUDED ensures !(p <= u + rest) {
      assert ':' !in p;
      PrefixBeforeColon(p, u, rest);
    }
  }

  lemma OneListed(h: Hasher, path: string, d: bytes)
    requires !Excluded(path)
    ensures Tracked([Listed(path, Some(d))]) == [Entry(path, d)]
    ensures Listing(h, [Entry(path, d)]) == PartOf(h, Entry(path, d))
  {
    assert [Listed(path, Some(d))][1..] == [];
    var p := PartOf(h, Entry(path, d));
    assert Parts(h, [Entry(path, d)]) == [p];
    assert [p][1..] == [];
  }

  lemma TwoListed(h: Hasher, p: string, c: bytes, q: string, d: bytes)
    requires !Excluded(p) && !Excluded(q) && LexLe(PartOf(h, Entry(p, c)), PartOf(h, Entry(q, d)))
    ensures Tracked([Listed(p, Some(c)), Listed(q, Some(d))]) == [Entry(p, c), Entry(q, d)]
    ensures Listing(h, [Entry(p, c), Entry(q, d)]) == PartOf(h, Entry(p, c)) + "\n" + PartOf(h, Entry(q, d))
  {
    var two := [Listed(p, Some(c)), Listed(q, Some(d))];
    assert two[1..] == [Listed(q, Some(d))];
    OneListed(h, q, d);
    var x, y := PartOf(h, Entry(p, c)), PartOf(h, Entry(q, d));
    assert Parts(h, [Entry(p, c), Entry(q, d)]) == [x, y];
    TwoSorted(x, y);
    assert [x, y][1..] == [y];
  }

  lemma PartOfJoined(h: Hasher, u: string, c: bytes, v: string, d: bytes)
    ensures PartOf(h, Entry(u + PartEnd(h, c) + v, d)) == PartOf(h, Entry(u, c)) + "\n" + PartOf(h, Entry(v, d))
  {
    assert u + (":" + h.sha(c) + "\n") + v + ":" + h.sha(d) == u + ":" + h.sha(c) + "\n" + (v + ":" + h.sha(d));
  }

  lemma JoinedListed(h: Hasher, u: string, c: bytes, v: string, d: bytes)
    requires !Excluded(u)
    ensures var e := Entry(u + PartEnd(h, c) + v, d);
      Tracked([Listed(e.path, Some(d))]) == [e] && Listing(h, [e]) == PartOf(h, Entry(u, c)) + "\n" + PartOf(h, Entry(v, d))
  {
    var path := u + PartEnd(h, c) + v;
    assert path == u + (PartEnd(h, c) + v);
    StillNotExcluded(u, PartEnd(h, c) + v);
    OneListed(h, path, d);
    PartOfJoined(h, u, c, v, d);
  }

  lemma OneIsNotTwo(e: Entry, x: Entry, y: Entry)
    ensures multiset([e]) != multiset([x, y])
  {
    assert |multiset([e])| == 1 && |multiset([x, y])| == 2;
  }

  lemma SpelledOut(h: Hasher, u: string, c: bytes, v: string, d: bytes)
    ensures !ClearPaths(h, [Entry(u + PartEnd(h, c) + v, d)], [Entry(u, c), Entry(v, d)])
  {
    var path, end := u + PartEnd(h, c) + v, PartEnd(h, c);
    var x, y := Entry(u, c), Entry(v, d);
    assert Occurs(PartEnd(h, x.content), path) && x in [x, y] && Entry(path, d) in [Entry(path, d)];
  }

  /**
   * Such a path does confuse worktrees, whatever the hash: one file whose path spells out the end of a part reads as
   * two files, when those two sort in the order spelled out.
   */
  lemma {:induction false} LineBreakConfuses(h: Hasher, u: string, c: bytes, v: string, d: bytes)
    requires !Excluded(u) && !Excluded(v) && LexLe(PartOf(h, Entry(u, c)), PartOf(h, Entry(v, d)))
    ensures var one := [Listed(u + PartEnd(h, c) + v, Some(d))];
            var two := [Listed(u, Some(c)), Listed(v, Some(d))];
      && Digest(h, one) == Digest(h, two) && multiset(Tracked(one)) != multiset(Tracked(two))
      && !ClearPaths(h, Tracked(one), Tracked(two))
  {
    JoinedListed(h, u, c, v, d);
    TwoListed(h, u, c, v, d);
    SpelledOut(h, u, c, v, d);
    OneIsNotTwo(Entry(u + PartEnd(h, c) + v, d), Entry(u, c), Entry(v, d));
  }

  lemma TwoSorted(x: string, y: string)
    requires LexLe(x, y)
    ensures Sort(Self, [x, y]) == [x, y]
  {
    assert [x, y][1..] == [y] && [y][1..] == [];
    assert Sort(Self, [y]) == [y];
    assert LexLe(Self(x), Self(y));
  }

  // ---- what the digest does not cover ----

  lemma TrackedSkips(before: seq<Listed>, f: Listed, after: seq<Listed>)
    requires Excluded(f.path)
    ensures Tracked(before + [f] + after) == Tracked(before + after)
  {
    TrackedConcat(before, [f] + after);
    TrackedConcat(before, after);
    assert before + [f] + after == before + ([f] + after);
    assert ([f] + after)[1..] == after;
  }

  /** A file whose path only starts like an excluded name may change, come or go without changing the digest. */
  lemma {:induction false} ExcludedIsUncovered(h: Hasher, before: seq<Listed>, f: Listed, after: seq<Listed>)
    requires Excluded(f.path)
    ensures Digest(h, before + [f] + after) == Digest(h, before + after)
  {
    TrackedSkips(before, f, after);
  }

  /** So two worktrees that differ only in `build.rs`, in `.gitignore` or below `targets/` have one digest. */
  lemma {:induction false} BuildScriptIsUncovered(h: Hasher, before: seq<Listed>, path: string, c: bytes, d: bytes, after: seq<Listed>)
    requires path == "build.rs" || path == ".gitignore" || "targets/" <= path
    ensures Digest(h, before + [Listed(path, Some(c))] + after) == Digest(h, before + [Listed(path, Some(d))] + after)
  {
    var name := if path == "build.rs" then "build" else if path == ".gitignore" then ".git" else "target";
    assert name == EXCLUDED[5] || name == EXCLUDED[0] || name == EXCLUDED[2];
    assert name == path[..|name|] by { assert "targets/"[..6] == "target"; }
    assert name in EXCLUDED && name <= path;
    ExcludedIsUncovered(h, before, Listed(path, Some(c)), after);
    ExcludedIsUncovered(h, before, Listed(path, Some(d)), after);
  }
}
