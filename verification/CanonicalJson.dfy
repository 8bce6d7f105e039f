/** Canonical JSON text: objects with sorted keys, no white space. */
module CanonicalJson {
  import Decimal
  import opened JsonValue
  import opened Ordering

  datatype Member = Member(key: string, value: Json)

  datatype Json =
    | Null | Bool(b: bool) | Num(n: Number) | Str(s: string)
    | Arr(items: seq<Json>) | Obj(members: seq<Member>)

  /** The value meant: what equality of JSON values compares. */
  function Denote(j: Json): Value {
    match j
    case Null => VNull
    case Bool(b) => VBool(b)
    case Num(n) => VNum(n)
    case Str(s) => VStr(s)
    case Arr(items) => VArr(seq(|items|, i requires 0 <= i < |items| => Denote(items[i])))
    case Obj(members) => VObj(DenoteMembers(members))
  }

  function DenoteMembers(ms: seq<Member>): map<string, Value> {
    if ms == [] then map[] else DenoteMembers(ms[1..])[ms[0].key := Denote(ms[0].value)]
  }

  predicate NumberChar(c: char) { Decimal.IsDigit(c) || c == '-' || c == '+' || c == '.' || c == 'e' }

  predicate DistinctKeys(ms: seq<Member>) { forall i, j :: 0 <= i < j < |ms| ==> ms[i].key != ms[j].key }

  /** What the library's value type guarantees: no key twice, and floats print with a point or an exponent. */
  predicate WellFormed(j: Json) {
    match j
    case Num(Float(text)) =>
      && text != "" && (forall c :: c in text ==> NumberChar(c))
      && (Decimal.IsDigit(text[0]) || text[0] == '-') && ('.' in text || 'e' in text)
    case Arr(items) => forall i :: 0 <= i < |items| ==> WellFormed(items[i])
    case Obj(ms) => DistinctKeys(ms) && forall i :: 0 <= i < |ms| ==> WellFormed(ms[i].value)
    case _ => true
  }

  // ---- the printer ----

  function HexDigit(d: nat): char
    requires d < 16
  {
    if d < 10 then ('0' as int + d) as char else ('a' as int + d - 10) as char
  }

  function EscapeChar(c: char): string {
    if c == '"' then "\\\"" else if c == '\\' then "\\\\"
    else if c as int == 8 then "\\b" else if c as int == 9 then "\\t" else if c as int == 10 then "\\n"
    else if c as int == 12 then "\\f" else if c as int == 13 then "\\r"
    else if c as int < 32 then ['\\', 'u', '0', '0', HexDigit(c as int / 16), HexDigit(c as int % 16)]
    else [c]
  }

  function Escape(s: string): string { if s == "" then "" else EscapeChar(s[0]) + Escape(s[1..]) }

  function Quote(s: string): string { "\"" + Escape(s) + "\"" }

  function Join(parts: seq<string>): string {
    if parts == [] then "" else if |parts| == 1 then parts[0] else parts[0] + "," + Join(parts[1..])
  }

  function NumberText(n: Number): string { match n case Int(i) => Decimal.Print(i) case Float(text) => text }

  datatype Entry = Entry(key: string, text: string)

  function PartOf(e: Entry): string { Quote(e.key) + ":" + e.text }

  function KeyOf(e: Entry): string { e.key }

  function Map<A, B>(f: A -> B, xs: seq<A>): (ys: seq<B>)
    ensures |ys| == |xs| && forall i :: 0 <= i < |xs| ==> ys[i] == f(xs[i])
  {
    if xs == [] then [] else [f(xs[0])] + Map(f, xs[1..])
  }

  function Entries(ms: seq<Member>): (es: seq<Entry>)
    ensures |es| == |ms|
  {
    if ms == [] then [] else [Entry(ms[0].key, Text(ms[0].value))] + Entries(ms[1..])
  }

  function Texts(items: seq<Json>): (ts: seq<string>)
    ensures |ts| == |items|
  {
    if items == [] then [] else [Text(items[0])] + Texts(items[1..])
  }

  /** `canonical_json`. */
  function Text(j: Json): string {
    match j
    case Null => "null"
    case Bool(b) => if b then "true" else "false"
    case Num(n) => NumberText(n)
    case Str(s) => Quote(s)
    case Arr(items) => "[" + Join(Texts(items)) + "]"
    case Obj(ms) => "{" + Join(Map(PartOf, Sort(KeyOf, Entries(ms)))) + "}"
  }

  // ---- self-delimiting texts ----

  /** What may follow a printed value: nothing, or a comma or a closing bracket. */
  predicate Delimited(s: string) { s != "" ==> s[0] == ',' || s[0] == ']' || s[0] == '}' }

  /** No continuation makes `x` and `y` read alike unless they are the same text. */
  ghost predicate Apart(x: string, y: string) {
    forall s, t :: Delimited(s) && Delimited(t) && x + s == y + t ==> x == y
  }

  lemma CutPrefix(x: string, s: string, t: string)
    requires x + s == x + t
    ensures s == t
  {
    assert (x + s)[|x|..] == s && (x + t)[|x|..] == t;
  }

  lemma HeadOfJoined(y: string, t: string)
    ensures y != "" ==> y + t != "" && (y + t)[0] in y
  {
    assert y != "" ==> (y + t)[0] == y[0];
  }

  lemma EmptyTokenApart(x: string, y: string, s: string, t: string)
    requires x == "" && forall c :: c in y ==> NumberChar(c)
    requires Delimited(s) && x + s == y + t
    ensures y == ""
  {
    HeadOfJoined(y, t);
    assert s == x + s == y + t;
  }

  lemma {:induction false} TokensApart(x: string, y: string, s: string, t: string)
    requires forall c :: c in x || c in y ==> NumberChar(c)
    requires Delimited(s) && Delimited(t) && x + s == y + t
    ensures x == y
  {
    if x == "" || y == "" {
      if x == "" { EmptyTokenApart(x, y, s, t); }
      if y == "" { EmptyTokenApart(y, x, t, s); }
    } else {
      assert (x + s)[0] == x[0] && (y + t)[0] == y[0];
      assert (x + s)[1..] == x[1..] + s && (y + t)[1..] == y[1..] + t;
      TokensApart(x[1..], y[1..], s, t);
      assert x == [x[0]] + x[1..] && y == [y[0]] + y[1..];
    }
  }

  lemma EscapeCharApart(c: char, d: char, s: string, t: string)
    requires EscapeChar(c) + s == EscapeChar(d) + t
    ensures c == d && s == t
  {
    var x, y := EscapeChar(c), EscapeChar(d);
    assert (x + s)[0] == x[0] && (y + t)[0] == y[0];
    if |x| >= 2 && |y| >= 2 {
      assert (x + s)[1] == x[1] && (y + t)[1] == y[1];
      if |x| == 6 && |y| == 6 {
        assert (x + s)[4] == x[4] && (y + t)[4] == y[4];
        assert (x + s)[5] == x[5] && (y + t)[5] == y[5];
      }
    }
    assert c == d;
    CutPrefix(x, s, t);
  }

  lemma EscapeStarts(c: char)
    ensures EscapeChar(c) != "" && EscapeChar(c)[0] != '"'
  {}

  lemma Close(x: string, y: string, s: string)
    ensures x + y + "\"" + s == x + (y + "\"" + s)
  {}

  lemma EscapeHead(a: string, s: string)
    ensures (Escape(a) + "\"" + s)[0] == '"' <==> a == ""
    ensures a == "" ==> Escape(a) + "\"" + s == "\"" + s
    ensures a != "" ==> Escape(a) + "\"" + s == EscapeChar(a[0]) + (Escape(a[1..]) + "\"" + s)
  {
    if a == "" {
      assert "" + "\"" + s == "\"" + s;
    } else {
      EscapeStarts(a[0]);
      Close(EscapeChar(a[0]), Escape(a[1..]), s);
    }
  }

  lemma {:induction false} QuotesApart(a: string, b: string, s: string, t: string)
    requires Escape(a) + "\"" + s == Escape(b) + "\"" + t
    ensures a == b && s == t
  {
    EscapeHead(a, s);
    EscapeHead(b, t);
    if a == "" {
      CutPrefix("\"", s, t);
    } else {
      EscapeCharApart(a[0], b[0], Escape(a[1..]) + "\"" + s, Escape(b[1..]) + "\"" + t);
      QuotesApart(a[1..], b[1..], s, t);
      assert a == [a[0]] + a[1..] && b == [b[0]] + b[1..];
    }
  }

  lemma QuoteOpens(a: string, s: string)
    ensures Quote(a) + s == "\"" + (Escape(a) + "\"" + s)
  {}

  lemma QuotedApart(a: string, b: string, s: string, t: string)
    requires Quote(a) + s == Quote(b) + t
    ensures a == b && s == t
  {
    QuoteOpens(a, s);
    QuoteOpens(b, t);
    CutPrefix("\"", Escape(a) + "\"" + s, Escape(b) + "\"" + t);
    QuotesApart(a, b, s, t);
  }

  /** A part of a list: not empty, and its first character is no delimiter. */
  predicate Starts(p: string) { p != "" && !Delimited(p) }

  function Rest(parts: seq<string>, tail: string): string {
    if parts == [] then tail else "," + Join(parts) + tail
  }

  lemma Regroup(x: string, y: string, z: string)
    ensures x + "," + y + z == x + ("," + y + z)
  {}

  lemma JoinSplits(parts: seq<string>, tail: string)
    requires parts != []
    ensures Join(parts) + tail == parts[0] + Rest(parts[1..], tail)
  {
    if |parts| == 1 {
      assert parts[1..] == [];
    } else {
      assert parts[1..] != [];
      Regroup(parts[0], Join(parts[1..]), tail);
    }
  }

  lemma JoinHead(parts: seq<string>, close: char, s: string)
    requires close == ']' || close == '}'
    requires forall p :: p in parts ==> Starts(p)
    ensures (Join(parts) + ([close] + s))[0] == close <==> parts == []
    ensures parts == [] ==> Join(parts) + ([close] + s) == [close] + s
  {
    if parts != [] {
      JoinSplits(parts, [close] + s);
      assert parts[0] in parts;
    }
  }

  lemma {:induction false} JoinsApart(ps: seq<string>, qs: seq<string>, close: char, s: string, t: string)
    requires close == ']' || close == '}'
    requires forall p :: p in ps || p in qs ==> Starts(p)
    requires forall p, q :: p in ps && q in qs ==> Apart(p, q)
    requires Join(ps) + ([close] + s) == Join(qs) + ([close] + t)
    ensures ps == qs && s == t
    decreases |ps|, 1
  {
    JoinHead(ps, close, s);
    JoinHead(qs, close, t);
    if ps == [] {
      CutPrefix([close], s, t);
    } else {
      JoinSplits(ps, [close] + s);
      JoinSplits(qs, [close] + t);
      var rx, ry := Rest(ps[1..], [close] + s), Rest(qs[1..], [close] + t);
      assert ps[0] in ps && qs[0] in qs && Apart(ps[0], qs[0]);
      assert Delimited(rx) && Delimited(ry);
      CutPrefix(ps[0], rx, ry);
      RestsApart(ps, qs, close, s, t);
    }
  }

  lemma {:induction false} RestsApart(ps: seq<string>, qs: seq<string>, close: char, s: string, t: string)
    requires ps != [] && qs != [] && ps[0] == qs[0]
    requires close == ']' || close == '}'
    requires forall p :: p in ps || p in qs ==> Starts(p)
    requires forall p, q :: p in ps && q in qs ==> Apart(p, q)
    requires Rest(ps[1..], [close] + s) == Rest(qs[1..], [close] + t)
    ensures ps == qs && s == t
    decreases |ps|, 0
  {
    var x, y := [close] + s, [close] + t;
    assert Rest(ps[1..], x)[0] == Rest(qs[1..], y)[0];
    if ps[1..] == [] {
      CutPrefix([close], s, t);
    } else {
      assert Rest(ps[1..], x) == "," + (Join(ps[1..]) + x) && Rest(qs[1..], y) == "," + (Join(qs[1..]) + y);
      CutPrefix(",", Join(ps[1..]) + x, Join(qs[1..]) + y);
      forall p | p in ps[1..] ensures p in ps {}
      forall q | q in qs[1..] ensures q in qs {}
      JoinsApart(ps[1..], qs[1..], close, s, t);
    }
    assert ps == [ps[0]] + ps[1..] && qs == [qs[0]] + qs[1..];
  }

  // ---- printed values are apart ----

  lemma HeadsApart(x: string, y: string)
    requires x != "" && y != "" && x[0] != y[0]
    ensures Apart(x, y)
  {
    forall s, t ensures x + s != y + t { assert (x + s)[0] == x[0] && (y + t)[0] == y[0]; }
  }

  predicate NumberHead(c: char) { Decimal.IsDigit(c) || c == '-' }

  lemma Head(j: Json)
    requires WellFormed(j)
    ensures Text(j) != "" && Starts(Text(j))
    ensures j.Null? ==> Text(j)[0] == 'n'
    ensures j.Bool? ==> Text(j)[0] == if j.b then 't' else 'f'
    ensures j.Num? ==> NumberHead(Text(j)[0]) && forall c :: c in Text(j) ==> NumberChar(c)
    ensures j.Str? ==> Text(j)[0] == '"'
    ensures j.Arr? ==> Text(j)[0] == '['
    ensures j.Obj? ==> Text(j)[0] == '{'
  {
    if j.Num? && j.n.Int? { assert Decimal.Print(j.n.i)[0] in Decimal.Print(j.n.i); }
  }

  predicate SameKind(a: Json, b: Json) {
    || (a.Null? && b.Null?) || (a.Bool? && b.Bool? && a.b == b.b) || (a.Num? && b.Num?)
    || (a.Str? && b.Str?) || (a.Arr? && b.Arr?) || (a.Obj? && b.Obj?)
  }

  lemma KindsApart(a: Json, b: Json)
    requires WellFormed(a) && WellFormed(b) && !SameKind(a, b)
    ensures Text(a) != Text(b) && Apart(Text(a), Text(b))
  {
    Head(a);
    Head(b);
    HeadsApart(Text(a), Text(b));
  }

  lemma {:induction false} TextsAt(items: seq<Json>, i: nat)
    requires i < |items|
    ensures Texts(items)[i] == Text(items[i])
  {
    if i > 0 { TextsAt(items[1..], i - 1); }
  }

  lemma {:induction false} EntriesAt(ms: seq<Member>, i: nat)
    requires i < |ms|
    ensures Entries(ms)[i] == Entry(ms[i].key, Text(ms[i].value))
  {
    if i > 0 { EntriesAt(ms[1..], i - 1); }
  }

  function Sorted(ms: seq<Member>): (es: seq<Entry>)
    ensures multiset(es) == multiset(Entries(ms))
  {
    Sort(KeyOf, Entries(ms))
  }

  /** Each sorted entry is some member's key and text. */
  lemma SortedEntryOf(ms: seq<Member>, e: Entry) returns (i: nat)
    requires e in Sorted(ms)
    ensures i < |ms| && e == Entry(ms[i].key, Text(ms[i].value))
  {
    SameElements(Sorted(ms), Entries(ms), e);
    i :| 0 <= i < |Entries(ms)| && Entries(ms)[i] == e;
    EntriesAt(ms, i);
  }

  lemma MemberEntry(ms: seq<Member>, i: nat)
    requires i < |ms|
    ensures Entry(ms[i].key, Text(ms[i].value)) in Sorted(ms)
  {
    EntriesAt(ms, i);
    assert Entries(ms)[i] in Entries(ms);
    SameElements(Sorted(ms), Entries(ms), Entries(ms)[i]);
  }

  lemma PartThen(e: Entry, s: string)
    ensures PartOf(e) + s == Quote(e.key) + (":" + (e.text + s))
  {
    assert Quote(e.key) + (":" + e.text) + s == Quote(e.key) + (":" + (e.text + s));
    assert PartOf(e) == Quote(e.key) + (":" + e.text);
  }

  lemma PartsSplit(e: Entry, f: Entry, s: string, t: string)
    requires PartOf(e) + s == PartOf(f) + t
    ensures e.key == f.key && e.text + s == f.text + t
  {
    PartThen(e, s);
    PartThen(f, t);
    QuotedApart(e.key, f.key, ":" + (e.text + s), ":" + (f.text + t));
    CutPrefix(":", e.text + s, f.text + t);
  }

  lemma PartsApart(e: Entry, f: Entry)
    requires Apart(e.text, f.text)
    ensures Apart(PartOf(e), PartOf(f))
    ensures PartOf(e) == PartOf(f) ==> e == f
  {
    forall s, t | Delimited(s) && Delimited(t) && PartOf(e) + s == PartOf(f) + t ensures e == f {
      PartsSplit(e, f, s, t);
    }
    if PartOf(e) == PartOf(f) {
      PartsSplit(e, f, "", "");
      assert e.text + "" == e.text && f.text + "" == f.text;
    }
  }

  lemma ItemTexts(items: seq<Json>)
    requires WellFormed(Arr(items))
    ensures forall p :: p in Texts(items) ==> Starts(p)
  {
    forall i | 0 <= i < |items| ensures Starts(Texts(items)[i]) { TextsAt(items, i); Head(items[i]); }
  }

  function Parts(ms: seq<Member>): (ps: seq<string>) { Map(PartOf, Sorted(ms)) }

  lemma PartsStart(ms: seq<Member>)
    ensures forall p :: p in Parts(ms) ==> Starts(p)
  {}

  lemma {:induction false} ItemsApart(xs: seq<Json>, ys: seq<Json>)
    requires WellFormed(Arr(xs)) && WellFormed(Arr(ys))
    ensures forall p, q :: p in Texts(xs) && q in Texts(ys) ==> Apart(p, q)
    decreases xs, 0
  {
    forall i, k | 0 <= i < |xs| && 0 <= k < |ys| ensures Apart(Texts(xs)[i], Texts(ys)[k]) {
      TextsAt(xs, i);
      TextsAt(ys, k);
      TextsApart(xs[i], ys[k]);
    }
  }

  lemma {:induction false} MembersApart(ms: seq<Member>, ns: seq<Member>)
    requires WellFormed(Obj(ms)) && WellFormed(Obj(ns))
    ensures forall e, f :: e in Sorted(ms) && f in Sorted(ns) ==> Apart(e.text, f.text)
    decreases ms, 0
  {
    forall e, f | e in Sorted(ms) && f in Sorted(ns) ensures Apart(e.text, f.text) {
      var i := SortedEntryOf(ms, e);
      var k := SortedEntryOf(ns, f);
      TextsApart(ms[i].value, ns[k].value);
    }
  }

  lemma {:induction false} AllPartsApart(ms: seq<Member>, ns: seq<Member>)
    requires forall e, f :: e in Sorted(ms) && f in Sorted(ns) ==> Apart(e.text, f.text)
    ensures forall p, q :: p in Parts(ms) && q in Parts(ns) ==> Apart(p, q)
  {
    forall i, k | 0 <= i < |Parts(ms)| && 0 <= k < |Parts(ns)| ensures Apart(Parts(ms)[i], Parts(ns)[k]) {
      assert Sorted(ms)[i] in Sorted(ms) && Sorted(ns)[k] in Sorted(ns);
      PartsApart(Sorted(ms)[i], Sorted(ns)[k]);
    }
  }

  lemma ArraysApart(xs: seq<Json>, ys: seq<Json>)
    requires WellFormed(Arr(xs)) && WellFormed(Arr(ys))
    requires forall p, q :: p in Texts(xs) && q in Texts(ys) ==> Apart(p, q)
    ensures Apart(Text(Arr(xs)), Text(Arr(ys)))
    ensures Text(Arr(xs)) == Text(Arr(ys)) ==> Texts(xs) == Texts(ys)
  {
    ItemTexts(xs);
    ItemTexts(ys);
    var x, y := Text(Arr(xs)), Text(Arr(ys));
    forall s, t | x + s == y + t ensures Texts(xs) == Texts(ys) {
      assert x + s == "[" + (Join(Texts(xs)) + ("]" + s)) && y + t == "[" + (Join(Texts(ys)) + ("]" + t));
      CutPrefix("[", Join(Texts(xs)) + ("]" + s), Join(Texts(ys)) + ("]" + t));
      JoinsApart(Texts(xs), Texts(ys), ']', s, t);
    }
    if x == y { assert x + "" == y + ""; }
  }

  lemma CutBraces(x: string, y: string, s: string, t: string)
    requires "{" + x + "}" + s == "{" + y + "}" + t
    ensures x + ("}" + s) == y + ("}" + t)
  {
    assert "{" + x + "}" + s == "{" + (x + ("}" + s)) && "{" + y + "}" + t == "{" + (y + ("}" + t));
    CutPrefix("{", x + ("}" + s), y + ("}" + t));
  }

  lemma ObjectBodies(ms: seq<Member>, ns: seq<Member>, s: string, t: string)
    requires forall e, f :: e in Sorted(ms) && f in Sorted(ns) ==> Apart(e.text, f.text)
    requires Text(Obj(ms)) + s == Text(Obj(ns)) + t
    ensures Parts(ms) == Parts(ns)
  {
    PartsStart(ms);
    PartsStart(ns);
    AllPartsApart(ms, ns);
    CutBraces(Join(Parts(ms)), Join(Parts(ns)), s, t);
    JoinsApart(Parts(ms), Parts(ns), '}', s, t);
  }

  lemma ObjectsApart(ms: seq<Member>, ns: seq<Member>)
    requires forall e, f :: e in Sorted(ms) && f in Sorted(ns) ==> Apart(e.text, f.text)
    ensures Apart(Text(Obj(ms)), Text(Obj(ns)))
    ensures Text(Obj(ms)) == Text(Obj(ns)) ==> Parts(ms) == Parts(ns)
  {
    var x, y := Text(Obj(ms)), Text(Obj(ns));
    forall s, t | Delimited(s) && Delimited(t) && x + s == y + t ensures x == y { ObjectBodies(ms, ns, s, t); }
    if x == y { ObjectBodies(ms, ns, "", ""); }
  }

  /** Printed values delimit themselves: followed by a comma, a bracket or nothing, two of them agree only if equal. */
  lemma {:induction false} TextsApart(a: Json, b: Json)
    requires WellFormed(a) && WellFormed(b)
    ensures Apart(Text(a), Text(b))
    decreases a, 1
  {
    if !SameKind(a, b) {
      KindsApart(a, b);
    } else if a.Num? {
      Head(a);
      Head(b);
      forall s, t | Delimited(s) && Delimited(t) && Text(a) + s == Text(b) + t ensures Text(a) == Text(b) {
        TokensApart(Text(a), Text(b), s, t);
      }
    } else if a.Str? {
      forall s, t | Text(a) + s == Text(b) + t ensures Text(a) == Text(b) { QuotedApart(a.s, b.s, s, t); }
    } else if a.Arr? {
      ItemsApart(a.items, b.items);
      ArraysApart(a.items, b.items);
    } else if a.Obj? {
      MembersApart(a.members, b.members);
      ObjectsApart(a.members, b.members);
    }
  }

  // ---- text and meaning ----

  lemma {:induction false} FieldOf(ms: seq<Member>, i: nat)
    requires i < |ms| && DistinctKeys(ms)
    ensures ms[i].key in DenoteMembers(ms) && DenoteMembers(ms)[ms[i].key] == Denote(ms[i].value)
  {
    if i > 0 {
      assert DistinctKeys(ms[1..]);
      FieldOf(ms[1..], i - 1);
    }
  }

  lemma {:induction false} MemberOf(ms: seq<Member>, key: string) returns (i: nat)
    requires DistinctKeys(ms) && key in DenoteMembers(ms)
    ensures i < |ms| && ms[i].key == key && DenoteMembers(ms)[key] == Denote(ms[i].value)
  {
    if ms[0].key == key { i := 0; }
    else {
      assert DistinctKeys(ms[1..]);
      var k := MemberOf(ms[1..], key);
      i := k + 1;
    }
  }

  /** The members of each object are matched, key by key, with members of the same value in the other. */
  ghost predicate Covered(ms: seq<Member>, ns: seq<Member>) {
    forall i :: 0 <= i < |ms| ==> ms[i].key in DenoteMembers(ns) && DenoteMembers(ns)[ms[i].key] == Denote(ms[i].value)
  }

  lemma CoveredBothWays(ms: seq<Member>, ns: seq<Member>)
    requires DistinctKeys(ms) && DistinctKeys(ns) && Covered(ms, ns) && Covered(ns, ms)
    ensures DenoteMembers(ms) == DenoteMembers(ns)
  {
    forall k ensures k in DenoteMembers(ms) <==> k in DenoteMembers(ns) {
      if k in DenoteMembers(ms) { var i := MemberOf(ms, k); }
      if k in DenoteMembers(ns) { var i := MemberOf(ns, k); }
    }
    forall k | k in DenoteMembers(ms) ensures DenoteMembers(ms)[k] == DenoteMembers(ns)[k] { var i := MemberOf(ms, k); }
  }

  lemma PartsDetermineEntries(ms: seq<Member>, ns: seq<Member>)
    requires forall e, f :: e in Sorted(ms) && f in Sorted(ns) ==> Apart(e.text, f.text)
    requires Parts(ms) == Parts(ns)
    ensures Sorted(ms) == Sorted(ns)
  {
    assert |Sorted(ms)| == |Parts(ms)| == |Sorted(ns)|;
    forall i | 0 <= i < |Sorted(ms)| ensures Sorted(ms)[i] == Sorted(ns)[i] {
      assert Parts(ms)[i] == PartOf(Sorted(ms)[i]) && Parts(ns)[i] == PartOf(Sorted(ns)[i]);
      assert Sorted(ms)[i] in Sorted(ms) && Sorted(ns)[i] in Sorted(ns);
      PartsApart(Sorted(ms)[i], Sorted(ns)[i]);
    }
  }

  lemma {:induction false} SameEntriesCover(ms: seq<Member>, ns: seq<Member>)
    requires WellFormed(Obj(ms)) && WellFormed(Obj(ns)) && Sorted(ms) == Sorted(ns)
    ensures Covered(ms, ns) && Covered(ns, ms)
    decreases ms, 0
  {
    forall i | 0 <= i < |ms|
      ensures ms[i].key in DenoteMembers(ns) && DenoteMembers(ns)[ms[i].key] == Denote(ms[i].value)
    {
      MemberEntry(ms, i);
      var k := SortedEntryOf(ns, Entry(ms[i].key, Text(ms[i].value)));
      TextDetermines(ms[i].value, ns[k].value);
      FieldOf(ns, k);
    }
    forall i | 0 <= i < |ns|
      ensures ns[i].key in DenoteMembers(ms) && DenoteMembers(ms)[ns[i].key] == Denote(ns[i].value)
    {
      MemberEntry(ns, i);
      var k := SortedEntryOf(ms, Entry(ns[i].key, Text(ns[i].value)));
      TextDetermines(ms[k].value, ns[i].value);
      FieldOf(ms, k);
    }
  }

  lemma EqualNumbers(m: Number, n: Number)
    requires WellFormed(Num(m)) && WellFormed(Num(n)) && NumberText(m) == NumberText(n)
    ensures m == n
  {
    if m.Int? && n.Int? { Decimal.PrintInjective(m.i, n.i); }
  }

  /** Two values that print alike are equal as JSON. */
  lemma {:induction false} TextDetermines(a: Json, b: Json)
    requires WellFormed(a) && WellFormed(b) && Text(a) == Text(b)
    ensures Denote(a) == Denote(b)
    decreases a, 1
  {
    if !SameKind(a, b) {
      KindsApart(a, b);
    } else if a.Num? {
      EqualNumbers(a.n, b.n);
    } else if a.Str? {
      QuotedApart(a.s, b.s, "", "");
    } else if a.Arr? {
      ItemsApart(a.items, b.items);
      ArraysApart(a.items, b.items);
      assert |a.items| == |Texts(a.items)| == |b.items|;
      forall i | 0 <= i < |a.items| ensures Denote(a.items[i]) == Denote(b.items[i]) {
        TextsAt(a.items, i);
        TextsAt(b.items, i);
        TextDetermines(a.items[i], b.items[i]);
      }
    } else if a.Obj? {
      MembersApart(a.members, b.members);
      ObjectsApart(a.members, b.members);
      PartsDetermineEntries(a.members, b.members);
      SameEntriesCover(a.members, b.members);
      CoveredBothWays(a.members, b.members);
    }
  }

  lemma {:induction false} AtMostOnce(ms: seq<Member>, e: Entry)
    requires DistinctKeys(ms)
    ensures multiset(Entries(ms))[e] <= 1
    ensures forall x :: x in Entries(ms) ==> exists i :: 0 <= i < |ms| && ms[i].key == x.key
  {
    if ms != [] {
      assert DistinctKeys(ms[1..]);
      AtMostOnce(ms[1..], e);
      var first := Entry(ms[0].key, Text(ms[0].value));
      assert Entries(ms) == [first] + Entries(ms[1..]);
      forall x | x in Entries(ms) ensures exists i :: 0 <= i < |ms| && ms[i].key == x.key {
        if x in Entries(ms[1..]) {
          var i :| 0 <= i < |ms[1..]| && ms[1..][i].key == x.key;
          assert ms[i + 1].key == x.key;
        } else {
          assert ms[0].key == x.key;
        }
      }
      assert forall i :: 0 <= i < |ms[1..]| ==> ms[1..][i].key != first.key;
    }
  }

  lemma {:induction false} EntriesAgree(ms: seq<Member>, ns: seq<Member>, e: Entry)
    requires WellFormed(Obj(ms)) && WellFormed(Obj(ns)) && DenoteMembers(ms) == DenoteMembers(ns)
    ensures e in Sorted(ms) ==> e in Sorted(ns)
    ensures e in Sorted(ns) ==> e in Sorted(ms)
    decreases ms, 0
  {
    if e in Sorted(ms) {
      var i := SortedEntryOf(ms, e);
      FieldOf(ms, i);
      var k := MemberOf(ns, e.key);
      MeaningDetermines(ms[i].value, ns[k].value);
      MemberEntry(ns, k);
    }
    if e in Sorted(ns) {
      var k := SortedEntryOf(ns, e);
      FieldOf(ns, k);
      var i := MemberOf(ms, e.key);
      MeaningDetermines(ms[i].value, ns[k].value);
      MemberEntry(ms, i);
    }
  }

  lemma SameCounts(ms: seq<Member>, ns: seq<Member>, e: Entry)
    requires DistinctKeys(ms) && DistinctKeys(ns)
    requires e in Sorted(ms) <==> e in Sorted(ns)
    ensures multiset(Entries(ms))[e] == multiset(Entries(ns))[e]
  {
    AtMostOnce(ms, e);
    AtMostOnce(ns, e);
    SameElements(Sorted(ms), Entries(ms), e);
    SameElements(Sorted(ns), Entries(ns), e);
  }

  lemma {:induction false} ObjectsAgree(ms: seq<Member>, ns: seq<Member>)
    requires WellFormed(Obj(ms)) && WellFormed(Obj(ns)) && DenoteMembers(ms) == DenoteMembers(ns)
    ensures Sorted(ms) == Sorted(ns)
    decreases ms, 1
  {
    assert multiset(Entries(ms)) == multiset(Entries(ns)) by {
      forall e ensures multiset(Entries(ms))[e] == multiset(Entries(ns))[e] {
        EntriesAgree(ms, ns, e);
        SameCounts(ms, ns, e);
      }
    }
    KeysInjective(ms);
    SortForgetsOrder(KeyOf, Entries(ms), Entries(ns));
  }

  lemma KeysInjective(ms: seq<Member>)
    requires DistinctKeys(ms)
    ensures InjectiveOn(KeyOf, Entries(ms))
  {
    forall x, y | x in Entries(ms) && y in Entries(ms) && KeyOf(x) == KeyOf(y) ensures x == y {
      var i :| 0 <= i < |ms| && Entries(ms)[i] == x;
      var k :| 0 <= k < |ms| && Entries(ms)[k] == y;
      EntriesAt(ms, i);
      EntriesAt(ms, k);
    }
  }

  /** Values equal as JSON print alike: the order of an object's members leaves no trace. */
  lemma {:induction false} MeaningDetermines(a: Json, b: Json)
    requires WellFormed(a) && WellFormed(b) && Denote(a) == Denote(b)
    ensures Text(a) == Text(b)
    decreases a, 2
  {
    if a.Arr? {
      var x, y := Denote(a).items, Denote(b).items;
      assert |a.items| == |x| == |y| == |b.items|;
      forall i | 0 <= i < |a.items| ensures Texts(a.items)[i] == Texts(b.items)[i] {
        assert Denote(a.items[i]) == x[i] == y[i] == Denote(b.items[i]);
        MeaningDetermines(a.items[i], b.items[i]);
        TextsAt(a.items, i);
        TextsAt(b.items, i);
      }
      assert Texts(a.items) == Texts(b.items);
    } else if a.Obj? {
      ObjectsAgree(a.members, b.members);
    }
  }

  /** The canonical text is the same for exactly the values that are equal with objects read as maps. */
  lemma {:induction false} CanonicalTextIff(a: Json, b: Json)
    requires WellFormed(a) && WellFormed(b)
    ensures Text(a) == Text(b) <==> Denote(a) == Denote(b)
  {
    if Text(a) == Text(b) { TextDetermines(a, b); }
    if Denote(a) == Denote(b) { MeaningDetermines(a, b); }
  }
}
