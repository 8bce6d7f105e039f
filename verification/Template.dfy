/** `${name}` placeholders: the rendering loop, and the segments it stands for. */
module Template {
  import opened JsonValue

  type Bindings = map<string, string>

  predicate OpenAt(s: string, i: nat) { i + 1 < |s| && s[i] == '$' && s[i + 1] == '{' }

  /** The first `${`, or the length when there is none. */
  function FindOpen(s: string): (i: nat)
    ensures i <= |s| && (i < |s| ==> OpenAt(s, i))
    ensures forall j: nat :: OpenAt(s, j) ==> i <= j
  {
    if s == "" || OpenAt(s, 0) then 0
    else
      assert forall j: nat :: OpenAt(s, j) && j > 0 ==> OpenAt(s[1..], j - 1);
      1 + FindOpen(s[1..])
  }

  /** The first `}`, or the length when there is none. */
  function FindClose(s: string): (i: nat)
    ensures i <= |s| && (i < |s| ==> s[i] == '}') && '}' !in s[..i]
  {
    if s == "" || s[0] == '}' then 0
    else
      var i := FindClose(s[1..]);
      assert s[..1 + i] == [s[0]] + s[1..][..i];
      1 + i
  }

  /** A text without `${`, one whose first `${` is never closed, or one cut around its first placeholder. */
  datatype Cut = Plain | Unclosed(before: string, rest: string) | Placed(before: string, name: string, after: string)

  function CutAt(s: string): (c: Cut)
    ensures c.Placed? ==> |c.after| < |s|
  {
    var i := FindOpen(s);
    if i == |s| then Plain
    else
      var tail := s[i + 2..];
      var k := FindClose(tail);
      if k == |tail| then Unclosed(s[..i], s[i..]) else Placed(s[..i], tail[..k], tail[k + 1..])
  }

  lemma Pieces(s: string, i: nat, k: nat)
    requires OpenAt(s, i) && k < |s[i + 2..]| && s[i + 2..][k] == '}'
    ensures s == s[..i] + ("${" + s[i + 2..][..k] + "}") + s[i + 2..][k + 1..]
  {
    var tail := s[i + 2..];
    assert tail == tail[..k] + "}" + tail[k + 1..];
    assert s[i..i + 2] == "${";
    assert s == s[..i] + s[i..i + 2] + tail;
    assert s[..i] + "${" + (tail[..k] + "}" + tail[k + 1..]) == s[..i] + ("${" + tail[..k] + "}") + tail[k + 1..];
  }

  /** The pieces of a cut, put together again, are the text. */
  lemma CutRejoins(s: string)
    ensures match CutAt(s)
      case Plain => true
      case Unclosed(before, rest) => s == before + rest
      case Placed(before, name, after) => s == before + ("${" + name + "}") + after
  {
    var i := FindOpen(s);
    if i < |s| {
      var k := FindClose(s[i + 2..]);
      if k < |s[i + 2..]| { Pieces(s, i, k); } else { assert s == s[..i] + s[i..]; }
    }
  }

  datatype Segment = Lit(text: string) | Hole(name: string)

  /** Literal text up to the next placeholder, the placeholder, and so on; an unclosed one is literal. */
  function Split(s: string): seq<Segment>
    decreases |s|
  {
    match CutAt(s)
    case Plain => [Lit(s)]
    case Unclosed(before, rest) => [Lit(before), Lit(rest)]
    case Placed(before, name, after) => [Lit(before), Hole(name)] + Split(after)
  }

  function Source(g: Segment): string { if g.Lit? then g.text else "${" + g.name + "}" }

  /** A bound placeholder is its value, taken as it is; an unbound one stays. */
  function ValueOf(g: Segment, b: Bindings): string { if g.Hole? && g.name in b then b[g.name] else Source(g) }

  function Concat(gs: seq<Segment>, b: Bindings): string {
    if gs == [] then "" else ValueOf(gs[0], b) + Concat(gs[1..], b)
  }

  function Render(s: string, b: Bindings): string { Concat(Split(s), b) }

  lemma ConcatTwo(g: Segment, h: Segment, gs: seq<Segment>, b: Bindings)
    ensures Concat([g, h] + gs, b) == ValueOf(g, b) + ValueOf(h, b) + Concat(gs, b)
  {
    var all := [g, h] + gs;
    assert all[1..] == [h] + gs && ([h] + gs)[1..] == gs;
  }

  /** Rendering follows the cut. */
  lemma RenderCut(s: string, b: Bindings)
    ensures match CutAt(s)
      case Plain => Render(s, b) == s
      case Unclosed(before, rest) => Render(s, b) == s
      case Placed(before, name, after) => Render(s, b) == before + ValueOf(Hole(name), b) + Render(after, b)
  {
    CutRejoins(s);
    match CutAt(s)
    case Plain =>
      assert [Lit(s)][1..] == [];
      assert Concat([Lit(s)], b) == s + Concat([], b);
    case Unclosed(before, rest) =>
      ConcatTwo(Lit(before), Lit(rest), [], b);
      assert [Lit(before), Lit(rest)] + [] == [Lit(before), Lit(rest)];
    case Placed(before, name, after) => ConcatTwo(Lit(before), Hole(name), Split(after), b);
  }

  lemma RenderEmpty(b: Bindings)
    ensures Render("", b) == ""
  {
    RenderCut("", b);
  }

  lemma PushedTwice(out: string, x: string, y: string, z: string)
    ensures out + (x + y + z) == out + x + y + z
    ensures out + (x + y) == out + x + y + ""
  {}

  /** What is pushed for the next cut, with what has been pushed before it. */
  lemma RenderPushed(out: string, s: string, b: Bindings)
    ensures match CutAt(s)
      case Plain => Render(s, b) == s
      case Unclosed(before, rest) => out + Render(s, b) == out + before + rest + ""
      case Placed(before, name, after) => out + Render(s, b) == out + before + ValueOf(Hole(name), b) + Render(after, b)
  {
    RenderCut(s, b);
    CutRejoins(s);
    match CutAt(s)
    case Plain =>
    case Unclosed(before, rest) => PushedTwice(out, before, rest, "");
    case Placed(before, name, after) => PushedTwice(out, before, ValueOf(Hole(name), b), Render(after, b));
  }

  method RenderString(s: string, b: Bindings) returns (out: string)
    ensures out == Render(s, b)
  {
    out := "";
    var rest := s;
    while !CutAt(rest).Plain?
      invariant out + Render(rest, b) == Render(s, b)
      decreases |rest|
    {
      RenderPushed(out, rest, b);
      RenderEmpty(b);
      match CutAt(rest)
      case Placed(before, name, after) =>
        out := out + before + if name in b then b[name] else "${" + name + "}";
        rest := after;
      case Unclosed(before, last) =>
        out := out + before + last;
        rest := "";
    }
    RenderPushed(out, rest, b);
    out := out + rest;
  }

  // ---- what the segments are ----

  predicate HasPlaceholder(s: string) { exists i: nat, j: nat :: i < j < |s| && OpenAt(s, i) && i + 2 <= j && s[j] == '}' }

  lemma CutIsInert(s: string)
    ensures match CutAt(s)
      case Plain => !HasPlaceholder(s)
      case Unclosed(before, rest) => !HasPlaceholder(before) && !HasPlaceholder(rest)
      case Placed(before, name, after) => !HasPlaceholder(before) && '}' !in name
  {
    var i := FindOpen(s);
    var before := s[..i];
    assert forall j: nat :: OpenAt(before, j) ==> OpenAt(s, j);
    if i < |s| {
      var rest, tail := s[i..], s[i + 2..];
      assert tail[..|tail|] == tail;
      assert forall j: nat :: 2 <= j < |rest| ==> rest[j] == tail[j - 2];
    }
  }

  /** Literals hold no placeholder and names no closing brace: the segments are the placeholders of the text. */
  lemma {:induction false} SegmentsAreExact(s: string)
    ensures forall g :: g in Split(s) ==> if g.Lit? then !HasPlaceholder(g.text) else '}' !in g.name
    decreases |s|
  {
    CutIsInert(s);
    var c := CutAt(s);
    if c.Placed? { SegmentsAreExact(c.after); }
  }

  predicate NoneBound(gs: seq<Segment>, b: Bindings) { forall g :: g in gs && g.Hole? ==> g.name !in b }

  lemma NoneBoundAfter(s: string, b: Bindings)
    requires NoneBound(Split(s), b) && CutAt(s).Placed?
    ensures CutAt(s).name !in b && NoneBound(Split(CutAt(s).after), b)
  {
    var c := CutAt(s);
    var gs := [Lit(c.before), Hole(c.name)] + Split(c.after);
    assert gs[1] == Hole(c.name) && gs[1] in gs;
    assert forall g :: g in Split(c.after) ==> g in gs;
  }

  /** A text none of whose placeholders is bound is left as it is. */
  lemma {:induction false} UnboundIsSource(s: string, b: Bindings)
    requires NoneBound(Split(s), b)
    ensures Render(s, b) == s
    decreases |s|
  {
    if CutAt(s).Placed? {
      NoneBoundAfter(s, b);
      UnboundIsSource(CutAt(s).after, b);
      CutRejoins(s);
    }
    RenderCut(s, b);
  }

  lemma OpensAt(before: string, rest: string)
    requires FindOpen(before) == |before|
    ensures FindOpen(before + "${" + rest) == |before|
  {
    var s := before + "${" + rest;
    var i := FindOpen(s);
    assert OpenAt(s, |before|);
    assert i < |before| ==> OpenAt(before, i);
  }

  lemma {:induction false} ClosesAt(name: string, after: string)
    requires '}' !in name
    ensures FindClose(name + "}" + after) == |name|
  {
    if name != "" {
      assert (name + "}" + after)[1..] == name[1..] + "}" + after;
      ClosesAt(name[1..], after);
    }
  }

  lemma Slices(before: string, name: string, after: string)
    ensures var s, tail := before + "${" + name + "}" + after, name + "}" + after;
      && s == before + "${" + tail && |before| < |s|
      && s[..|before|] == before && s[|before| + 2..] == tail
      && |name| < |tail| && tail[..|name|] == name && tail[|name| + 1..] == after
  {
    var s, tail := before + "${" + name + "}" + after, name + "}" + after;
    assert s == before + "${" + tail;
  }

  lemma CutAround(s: string, i: nat, k: nat)
    requires FindOpen(s) == i && i < |s| && FindClose(s[i + 2..]) == k && k < |s[i + 2..]|
    ensures CutAt(s) == Placed(s[..i], s[i + 2..][..k], s[i + 2..][k + 1..])
  {}

  lemma CutOf(before: string, name: string, after: string)
    requires FindOpen(before) == |before| && '}' !in name
    ensures CutAt(before + "${" + name + "}" + after) == Placed(before, name, after)
  {
    var s, tail := before + "${" + name + "}" + after, name + "}" + after;
    Slices(before, name, after);
    assert FindOpen(s) == |before| by { OpensAt(before, tail); }
    assert FindClose(tail) == |name| by { ClosesAt(name, after); }
    CutAround(s, |before|, |name|);
  }

  /** A bound placeholder becomes exactly its value: placeholders inside the value are not looked at again. */
  lemma {:induction false} RenderIsOnePass(before: string, name: string, after: string, b: Bindings)
    requires FindOpen(before) == |before| && '}' !in name && name in b
    ensures Render(before + "${" + name + "}" + after, b) == before + b[name] + Render(after, b)
  {
    CutOf(before, name, after);
    RenderCut(before + "${" + name + "}" + after, b);
  }

  // ---- values ----

  function RenderValue(v: Value, b: Bindings): Value {
    match v
    case VStr(s) => VStr(Render(s, b))
    case VArr(items) => VArr(seq(|items|, i requires 0 <= i < |items| => RenderValue(items[i], b)))
    case VObj(fields) => VObj(map k | k in fields :: RenderValue(fields[k], b))
    case _ => v
  }

  /** Every placeholder in every string of the value is unbound. */
  predicate ValueUnbound(v: Value, b: Bindings) {
    match v
    case VStr(s) => NoneBound(Split(s), b)
    case VArr(items) => forall i :: 0 <= i < |items| ==> ValueUnbound(items[i], b)
    case VObj(fields) => forall k :: k in fields ==> ValueUnbound(fields[k], b)
    case _ => true
  }

  lemma {:induction false} UnboundValueIsKept(v: Value, b: Bindings)
    requires ValueUnbound(v, b)
    ensures RenderValue(v, b) == v
  {
    match v
    case VStr(s) => UnboundIsSource(s, b);
    case VArr(items) =>
      forall i | 0 <= i < |items| ensures RenderValue(items[i], b) == items[i] { UnboundValueIsKept(items[i], b); }
      assert RenderValue(v, b).items == items;
    case VObj(fields) =>
      forall k | k in fields ensures RenderValue(fields[k], b) == fields[k] { UnboundValueIsKept(fields[k], b); }
      assert RenderValue(v, b).fields == fields;
    case _ =>
  }
}
