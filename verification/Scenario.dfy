/** The scenario timeline: conditions, `foreach` and post-step seeds, run over bindings and a shared counter state. */
module Scenario {
  import Decimal
  import opened JsonValue
  import opened Template
  import opened Wrappers

  datatype Condition = Condition(binding: string, equals: string)

  datatype Seed = Seed(name: string, value: string)

  datatype Foreach = Foreach(binding: string, asPrefix: string, indexVar: string, body: seq<TimelineStep>)

  datatype TimelineStep = TimelineStep(
    event: string, payloadJson: string, payloadTemplateJson: Option<string>, seedsAfter: seq<Seed>,
    condition: Option<Condition>, foreach_: Option<Foreach>)

  datatype Entry = Entry(inputCommand: string, stateSeeds: seq<Seed>, timeline: seq<TimelineStep>,
                         finalResponseJson: Option<string>)

  datatype State = State(seed: nat, sessionId: string, counter: nat)

  /** The JSON reader and writer, and the evaluation of one seed, which may move the counter. */
  datatype Env = Env(parse: string -> Option<Value>, text: Value -> string,
                     eval: (string, State, Value) -> (string, State))

  function ConditionMatches(c: Option<Condition>, b: Bindings): bool {
    c.None? || (if c.value.binding in b then b[c.value.binding] else "") == c.value.equals
  }

  function Notification(env: Env, method_: string, params: Value): string {
    env.text(VObj(map["jsonrpc" := VStr("2.0"), "method" := VStr(method_), "params" := params]))
  }

  function Response(env: Env, id: Value, result: Value): string {
    env.text(VObj(map["jsonrpc" := VStr("2.0"), "id" := id, "result" := result]))
  }

  /** Lines emitted, and the bindings and state left behind; `aborted` when some JSON did not parse. */
  datatype Effect = Effect(aborted: bool, lines: seq<string>, bindings: Bindings, state: State)

  /** First `e`, then, unless it aborted, what `next` does from where it ended; the lines are concatenated. */
  function Then(e: Effect, next: Effect): Effect {
    if e.aborted then e else Effect(next.aborted, e.lines + next.lines, next.bindings, next.state)
  }

  function Seeded(env: Env, seeds: seq<Seed>, b: Bindings, st: State, params: Value): (Bindings, State) {
    if seeds == [] then (b, st)
    else
      var (v, st') := env.eval(seeds[0].value, st, params);
      Seeded(env, seeds[1..], b[seeds[0].name := v], st', params)
  }

  function Payload(env: Env, step: TimelineStep, b: Bindings): Option<Value> {
    if step.payloadTemplateJson.Some? then env.parse(Render(step.payloadTemplateJson.value, b))
    else
      match env.parse(step.payloadJson)
      case None => None
      case Some(raw) => Some(RenderValue(raw, b))
  }

  /** A step that is no loop: skipped, aborted, or one line and then its seeds. */
  function Single(env: Env, step: TimelineStep, b: Bindings, st: State, params: Value): Effect {
    if !ConditionMatches(step.condition, b) then Effect(false, [], b, st)
    else
      match Payload(env, step, b)
      case None => Effect(true, [], b, st)
      case Some(v) =>
        var (b', st') := Seeded(env, step.seedsAfter, b, st, params);
        Effect(false, [Notification(env, step.event, v)], b', st')
  }

  /** What runs one element at its index, from given bindings and state. */
  type Runner<-T> = (nat, T, Bindings, State) -> Effect

  /** The elements in order, each from where the one before ended; the lines are concatenated, an abort ends it. */
  function InOrder<T>(run: Runner<T>, xs: seq<T>, from: nat, b: Bindings, st: State): Effect {
    if xs == [] then Effect(false, [], b, st)
    else
      var e := run(from, xs[0], b, st);
      Then(e, InOrder(run, xs[1..], from + 1, e.bindings, e.state))
  }

  function Singles(env: Env, params: Value): Runner<TimelineStep> {
    (i: nat, step: TimelineStep, b: Bindings, st: State) => Single(env, step, b, st, params)
  }

  /** The body of a loop, once: its steps in order, each seeing the seeds of those before. */
  function Body(env: Env, steps: seq<TimelineStep>, b: Bindings, st: State, params: Value): Effect {
    InOrder(Singles(env, params), steps, 0, b, st)
  }

  function FieldText(env: Env, v: Value): string { if v.VStr? then v.s else env.text(v) }

  function FieldBindings(env: Env, prefix: string, fields: map<string, Value>): (r: Bindings)
    ensures forall k :: k in fields ==> prefix + "." + k in r && r[prefix + "." + k] == FieldText(env, fields[k])
  {
    assert forall k :: (prefix + "." + k)[|prefix| + 1..] == k;
    map k | k in fields :: prefix + "." + k := FieldText(env, fields[k])
  }

  /** What an iteration sees beside the outer bindings: its index and the fields of its item. */
  function ItemBindings(env: Env, fe: Foreach, b: Bindings, index: nat, item: Value): Bindings {
    (if fe.indexVar != "" then b[fe.indexVar := Decimal.Print(index)] else b)
    + (if item.VObj? then FieldBindings(env, fe.asPrefix, item.fields) else map[])
  }

  /** One iteration: it starts from the outer bindings and leaves them, and only the state moves on. */
  function Iteration(env: Env, fe: Foreach, index: nat, item: Value, b: Bindings, st: State, params: Value): Effect {
    Body(env, fe.body, ItemBindings(env, fe, b, index, item), st, params).(bindings := b)
  }

  function Items(env: Env, fe: Foreach, params: Value): Runner<Value> {
    (i: nat, item: Value, b: Bindings, st: State) => Iteration(env, fe, i, item, b, st, params)
  }

  /** A missing binding or one that is no JSON array gives no items. */
  function ItemsOf(env: Env, fe: Foreach, b: Bindings): seq<Value> {
    var parsed := env.parse(if fe.binding in b then b[fe.binding] else "[]");
    if parsed.Some? && parsed.value.VArr? then parsed.value.items else []
  }

  function One(env: Env, step: TimelineStep, b: Bindings, st: State, params: Value): Effect {
    match step.foreach_
    case None => Single(env, step, b, st, params)
    case Some(fe) =>
      if !ConditionMatches(step.condition, b) then Effect(false, [], b, st)
      else InOrder(Items(env, fe, params), ItemsOf(env, fe, b), 0, b, st)
  }

  function Ones(env: Env, params: Value): Runner<TimelineStep> {
    (i: nat, step: TimelineStep, b: Bindings, st: State) => One(env, step, b, st, params)
  }

  function Timeline(env: Env, steps: seq<TimelineStep>, b: Bindings, st: State, params: Value): Effect {
    InOrder(Ones(env, params), steps, 0, b, st)
  }

  /** The first entry for the method. */
  function FindEntry(catalog: seq<Entry>, method_: string): Option<Entry> {
    if catalog == [] then None
    else if catalog[0].inputCommand == method_ then Some(catalog[0]) else FindEntry(catalog[1..], method_)
  }

  function FinalResult(env: Env, entry: Entry, b: Bindings): Option<Value> {
    if entry.finalResponseJson.None? then Some(VObj(map["ok" := VBool(true)]))
    else
      match env.parse(entry.finalResponseJson.value)
      case None => None
      case Some(raw) => Some(RenderValue(raw, b))
  }

  /** A whole dispatch: seeds, timeline, response; an abort gives nothing, but the state has moved. */
  function Dispatch(env: Env, entry: Entry, id: Value, params: Value, st: State): (Option<seq<string>>, State) {
    var (b, st') := Seeded(env, entry.stateSeeds, map[], st, params);
    var e := Timeline(env, entry.timeline, b, st', params);
    if e.aborted then (None, e.state)
    else
      match FinalResult(env, entry, e.bindings)
      case None => (None, e.state)
      case Some(result) => (Some(e.lines + [Response(env, id, result)]), e.state)
  }

  function DispatchLine(env: Env, catalog: seq<Entry>, line: string, st: State): (Option<seq<string>>, State) {
    match env.parse(line)
    case None => (None, st)
    case Some(v) =>
      match StrAt(v, "method")
      case None => (None, st)
      case Some(m) =>
        match FindEntry(catalog, m)
        case None => (None, st)
        case Some(entry) => Dispatch(env, entry, OrDefault(Get(v, "id"), VNull), OrDefault(Get(v, "params"), VNull), st)
  }

  // ---- laws of the timeline ----

  lemma ThenAssoc(a: Effect, b: Effect, c: Effect)
    ensures Then(Then(a, b), c) == Then(a, Then(b, c))
  {
    assert a.lines + b.lines + c.lines == a.lines + (b.lines + c.lines);
  }

  lemma ThenNothing(e: Effect)
    ensures Then(e, Effect(false, [], e.bindings, e.state)) == e
    ensures forall next: Effect :: Then(Effect(false, [], e.bindings, e.state), next) == next
  {
    forall next: Effect ensures Then(Effect(false, [], e.bindings, e.state), next) == next {
      assert [] + next.lines == next.lines;
    }
  }

  /** Two parts in order: the second starts in the bindings and state the first leaves; lines are concatenated. */
  lemma {:induction false} InOrderConcat<T>(run: Runner<T>, xs: seq<T>, ys: seq<T>, from: nat, b: Bindings, st: State)
    ensures var e := InOrder(run, xs, from, b, st);
      InOrder(run, xs + ys, from, b, st) == Then(e, InOrder(run, ys, from + |xs|, e.bindings, e.state))
    decreases |xs|
  {
    if xs == [] {
      assert xs + ys == ys;
      ThenNothing(Effect(false, [], b, st));
    } else {
      assert (xs + ys)[1..] == xs[1..] + ys;
      var first := run(from, xs[0], b, st);
      InOrderConcat(run, xs[1..], ys, from + 1, first.bindings, first.state);
      var middle := InOrder(run, xs[1..], from + 1, first.bindings, first.state);
      ThenAssoc(first, middle, InOrder(run, ys, from + |xs|, middle.bindings, middle.state));
    }
  }

  lemma NextInOrder<T>(run: Runner<T>, xs: seq<T>, i: nat, b: Bindings, st: State)
    requires i < |xs|
    ensures var e := run(i, xs[i], b, st);
      InOrder(run, xs[i..], i, b, st) == Then(e, InOrder(run, xs[i + 1..], i + 1, e.bindings, e.state))
  {
    assert xs[i..][0] == xs[i] && xs[i..][1..] == xs[i + 1..];
  }

  /** Elements run without regard to their index may be numbered from anywhere. */
  lemma {:induction false} InOrderFromAnywhere(env: Env, steps: seq<TimelineStep>, from: nat, other: nat,
        b: Bindings, st: State, params: Value)
    ensures InOrder(Ones(env, params), steps, from, b, st) == InOrder(Ones(env, params), steps, other, b, st)
    decreases |steps|
  {
    if steps != [] {
      var e := One(env, steps[0], b, st, params);
      InOrderFromAnywhere(env, steps[1..], from + 1, other + 1, e.bindings, e.state, params);
    }
  }

  lemma InOrderThen<T>(run: Runner<T>, xs: seq<T>, ys: seq<T>, b: Bindings, st: State, rest: Effect)
    requires var e := InOrder(run, xs, 0, b, st); rest == InOrder(run, ys, |xs|, e.bindings, e.state)
    ensures InOrder(run, xs + ys, 0, b, st) == Then(InOrder(run, xs, 0, b, st), rest)
  {
    InOrderConcat(run, xs, ys, 0, b, st);
  }

  /** A timeline in two parts. */
  lemma TimelineConcat(env: Env, xs: seq<TimelineStep>, ys: seq<TimelineStep>, b: Bindings, st: State, params: Value)
    ensures var e := Timeline(env, xs, b, st, params);
      Timeline(env, xs + ys, b, st, params) == Then(e, Timeline(env, ys, e.bindings, e.state, params))
  {
    var e := Timeline(env, xs, b, st, params);
    InOrderFromAnywhere(env, ys, |xs|, 0, e.bindings, e.state, params);
    InOrderThen(Ones(env, params), xs, ys, b, st, Timeline(env, ys, e.bindings, e.state, params));
  }

  /** A loop leaves the outer bindings as they were, so every iteration starts from them. */
  lemma {:induction false} LoopKeepsBindings(env: Env, fe: Foreach, items: seq<Value>, from: nat, b: Bindings, st: State, params: Value)
    ensures InOrder(Items(env, fe, params), items, from, b, st).bindings == b
    decreases |items|
  {
    if items != [] {
      LoopKeepsBindings(env, fe, items[1..], from + 1, b, Iteration(env, fe, from, items[0], b, st, params).state, params);
    }
  }

  lemma InOrderAt<T>(run: Runner<T>, xs: seq<T>, k: nat, b: Bindings, st: State)
    requires k < |xs|
    ensures var before := InOrder(run, xs[..k], 0, b, st);
      var here := run(k, xs[k], before.bindings, before.state);
      InOrder(run, xs, 0, b, st) == Then(before, Then(here, InOrder(run, xs[k + 1..], k + 1, here.bindings, here.state)))
  {
    var before := InOrder(run, xs[..k], 0, b, st);
    assert xs == xs[..k] + xs[k..];
    InOrderConcat(run, xs[..k], xs[k..], 0, b, st);
    NextInOrder(run, xs, k, before.bindings, before.state);
  }

  /** The loop unrolled: its lines up to any item, then that item's body in the outer bindings, then the others'. */
  lemma LoopUnrolls(env: Env, fe: Foreach, items: seq<Value>, k: nat, b: Bindings, st: State, params: Value)
    requires k < |items|
    ensures var run := Items(env, fe, params);
      var before := InOrder(run, items[..k], 0, b, st);
      var here := Iteration(env, fe, k, items[k], b, before.state, params);
      InOrder(run, items, 0, b, st) == Then(before, Then(here, InOrder(run, items[k + 1..], k + 1, b, here.state)))
  {
    InOrderAt(Items(env, fe, params), items, k, b, st);
    LoopKeepsBindings(env, fe, items[..k], 0, b, st, params);
  }

  /** Steps after a loop see the bindings from before it: nothing a loop body binds leaks out. */
  lemma {:induction false} LoopLeavesBindings(env: Env, xs: seq<TimelineStep>, loop: TimelineStep,
        ys: seq<TimelineStep>, b: Bindings, st: State, params: Value)
    requires loop.foreach_.Some?
    ensures var before := Timeline(env, xs, b, st, params);
      var inside := One(env, loop, before.bindings, before.state, params);
      && inside.bindings == before.bindings
      && Timeline(env, xs + [loop] + ys, b, st, params)
         == Then(before, Then(inside, Timeline(env, ys, before.bindings, inside.state, params)))
  {
    var before := Timeline(env, xs, b, st, params);
    var inside := One(env, loop, before.bindings, before.state, params);
    LoopKeepsBindings(env, loop.foreach_.value, ItemsOf(env, loop.foreach_.value, before.bindings), 0,
                      before.bindings, before.state, params);
    assert xs + [loop] + ys == xs + ([loop] + ys);
    TimelineConcat(env, xs, [loop] + ys, b, st, params);
    assert ([loop] + ys)[1..] == ys;
    InOrderFromAnywhere(env, ys, 1, 0, before.bindings, inside.state, params);
  }

  // ---- the lines of an answer ----

  ghost predicate IsNotification(env: Env, line: string) {
    exists event: string, params: Value :: line == Notification(env, event, params)
  }

  ghost predicate IsResponse(env: Env, line: string) {
    exists id: Value, result: Value :: line == Response(env, id, result)
  }

  /** Different values are written differently. */
  ghost predicate WritesApart(env: Env) {
    forall v, w :: env.text(v) == env.text(w) ==> v == w
  }

  lemma NotificationIsNoResponse(env: Env, line: string)
    requires WritesApart(env) && IsNotification(env, line)
    ensures !IsResponse(env, line)
  {
    var event: string, params: Value :| line == Notification(env, event, params);
    forall id: Value, result: Value ensures line != Response(env, id, result) {
      var n := VObj(map["jsonrpc" := VStr("2.0"), "method" := VStr(event), "params" := params]);
      var r := VObj(map["jsonrpc" := VStr("2.0"), "id" := id, "result" := result]);
      assert "method" in n.fields && "method" !in r.fields;
    }
  }

  ghost predicate AllNotifications(env: Env, lines: seq<string>) {
    forall k :: 0 <= k < |lines| ==> IsNotification(env, lines[k])
  }

  lemma {:induction false} InOrderNotifies<T(!new)>(env: Env, run: Runner<T>, xs: seq<T>, from: nat, b: Bindings, st: State)
    requires forall i, x, c, s :: AllNotifications(env, run(i, x, c, s).lines)
    ensures AllNotifications(env, InOrder(run, xs, from, b, st).lines)
    decreases |xs|
  {
    if xs != [] {
      var e := run(from, xs[0], b, st);
      InOrderNotifies(env, run, xs[1..], from + 1, e.bindings, e.state);
    }
  }

  lemma SingleNotifies(env: Env, step: TimelineStep, b: Bindings, st: State, params: Value)
    ensures AllNotifications(env, Single(env, step, b, st, params).lines)
  {
    if ConditionMatches(step.condition, b) && Payload(env, step, b).Some? {
      var line := Notification(env, step.event, Payload(env, step, b).value);
      assert IsNotification(env, line);
    }
  }

  lemma IterationNotifies(env: Env, fe: Foreach, index: nat, item: Value, b: Bindings, st: State, params: Value)
    ensures AllNotifications(env, Iteration(env, fe, index, item, b, st, params).lines)
  {
    forall i: nat, x: TimelineStep, c: Bindings, s: State ensures AllNotifications(env, Singles(env, params)(i, x, c, s).lines) {
      SingleNotifies(env, x, c, s, params);
    }
    InOrderNotifies(env, Singles(env, params), fe.body, 0, ItemBindings(env, fe, b, index, item), st);
  }

  lemma OneNotifies(env: Env, step: TimelineStep, b: Bindings, st: State, params: Value)
    ensures AllNotifications(env, One(env, step, b, st, params).lines)
  {
    match step.foreach_
    case None => SingleNotifies(env, step, b, st, params);
    case Some(fe) =>
      forall i: nat, x: Value, c: Bindings, s: State ensures AllNotifications(env, Items(env, fe, params)(i, x, c, s).lines) {
        IterationNotifies(env, fe, i, x, c, s, params);
      }
      InOrderNotifies(env, Items(env, fe, params), ItemsOf(env, fe, b), 0, b, st);
  }

  lemma TimelineNotifies(env: Env, steps: seq<TimelineStep>, b: Bindings, st: State, params: Value)
    ensures AllNotifications(env, Timeline(env, steps, b, st, params).lines)
  {
    forall i: nat, x: TimelineStep, c: Bindings, s: State ensures AllNotifications(env, Ones(env, params)(i, x, c, s).lines) {
      OneNotifies(env, x, c, s, params);
    }
    InOrderNotifies(env, Ones(env, params), steps, 0, b, st);
  }

  /** `es` are the effects of the elements one after another, each from where the one before ended, none aborted. */
  ghost predicate Unrolled<T>(run: Runner<T>, xs: seq<T>, from: nat, b: Bindings, st: State, es: seq<Effect>)
    decreases |xs|
  {
    && |es| == |xs|
    && (xs != [] ==>
        && es[0] == run(from, xs[0], b, st) && !es[0].aborted
        && Unrolled(run, xs[1..], from + 1, es[0].bindings, es[0].state, es[1..]))
  }

  function LinesOf(es: seq<Effect>): seq<string> { if es == [] then [] else es[0].lines + LinesOf(es[1..]) }

  /** What is not aborted unrolls into its elements' effects, and its lines are theirs, in order. */
  lemma {:induction false} InOrderUnrolls<T>(run: Runner<T>, xs: seq<T>, from: nat, b: Bindings, st: State) returns (es: seq<Effect>)
    requires !InOrder(run, xs, from, b, st).aborted
    ensures Unrolled(run, xs, from, b, st, es) && InOrder(run, xs, from, b, st).lines == LinesOf(es)
    decreases |xs|
  {
    if xs == [] {
      es := [];
    } else {
      var e := run(from, xs[0], b, st);
      var rest := InOrderUnrolls(run, xs[1..], from + 1, e.bindings, e.state);
      es := [e] + rest;
      assert es[1..] == rest;
    }
  }

  /**
   * An answer holds exactly one response, to the request, and it is the last line; the lines before it are those of
   * the timeline's steps, one step after another, and none of them is a response.
   */
  lemma AnswerEndsWithItsResponse(env: Env, entry: Entry, id: Value, params: Value, st: State) returns (es: seq<Effect>)
    requires WritesApart(env) && Dispatch(env, entry, id, params, st).0.Some?
    ensures var (b, st') := Seeded(env, entry.stateSeeds, map[], st, params);
      var out := Dispatch(env, entry, id, params, st).0.value;
      && out != [] && Unrolled(Ones(env, params), entry.timeline, 0, b, st', es)
      && out[..|out| - 1] == LinesOf(es)
      && (exists result :: out[|out| - 1] == Response(env, id, result))
      && forall k :: 0 <= k < |out| ==> (IsResponse(env, out[k]) <==> k == |out| - 1)
  {
    var (b, st') := Seeded(env, entry.stateSeeds, map[], st, params);
    var e := Timeline(env, entry.timeline, b, st', params);
    var out := Dispatch(env, entry, id, params, st).0.value;
    es := InOrderUnrolls(Ones(env, params), entry.timeline, 0, b, st');
    TimelineNotifies(env, entry.timeline, b, st', params);
    var result := FinalResult(env, entry, e.bindings).value;
    assert out == e.lines + [Response(env, id, result)] && out[..|out| - 1] == e.lines;
    assert IsResponse(env, out[|out| - 1]);
    forall k | 0 <= k < |e.lines| ensures !IsResponse(env, out[k]) { NotificationIsNoResponse(env, e.lines[k]); }
  }

  // ---- the interpreter's loops ----

  lemma OneMoreField(env: Env, prefix: string, fields: map<string, Value>, left: set<string>, k: string)
    requires left <= fields.Keys && k in left
    ensures FieldBindings(env, prefix, fields - (left - {k}))
         == FieldBindings(env, prefix, fields - left)[prefix + "." + k := FieldText(env, fields[k])]
  {
    var more, less := fields - (left - {k}), fields - left;
    assert more == less[k := fields[k]];
    assert more.Keys == less.Keys + {k};
    assert forall j :: (prefix + "." + j)[|prefix| + 1..] == j;
  }

  lemma UpdateRight(base: Bindings, m: Bindings, k: string, v: string)
    ensures base + m[k := v] == (base + m)[k := v]
  {}

  method BindFields(env: Env, prefix: string, fields: map<string, Value>, base: Bindings) returns (b: Bindings)
    ensures b == base + FieldBindings(env, prefix, fields)
  {
    b := base;
    var left := fields.Keys;
    ghost var set_ := FieldBindings(env, prefix, fields - left);
    while left != {}
      invariant left <= fields.Keys
      invariant set_ == FieldBindings(env, prefix, fields - left)
      invariant b == base + set_
    {
      var k :| k in left;
      OneMoreField(env, prefix, fields, left, k);
      UpdateRight(base, set_, prefix + "." + k, FieldText(env, fields[k]));
      b := b[prefix + "." + k := FieldText(env, fields[k])];
      left := left - {k};
      set_ := FieldBindings(env, prefix, fields - left);
    }
    assert fields - left == fields;
  }

  method BindItem(env: Env, fe: Foreach, b: Bindings, index: nat, item: Value) returns (ib: Bindings)
    ensures ib == ItemBindings(env, fe, b, index, item)
  {
    ib := b;
    if fe.indexVar != "" { ib := ib[fe.indexVar := Decimal.Print(index)]; }
    if item.VObj? { ib := BindFields(env, fe.asPrefix, item.fields, ib); }
  }

  /** The mock engine; `state` outlives a dispatch, whether it answers or aborts. */
  class MockEngine {
    var state: State
    const env: Env
    const catalog: seq<Entry>

    constructor (env: Env, catalog: seq<Entry>, state: State)
      ensures this.env == env && this.catalog == catalog && this.state == state
    {
      this.env, this.catalog, this.state := env, catalog, state;
    }

    method InsertSeeds(seeds: seq<Seed>, before: Bindings, params: Value) returns (b: Bindings)
      modifies this
      ensures (b, state) == Seeded(env, seeds, before, old(state), params)
    {
      b := before;
      for i := 0 to |seeds|
        invariant Seeded(env, seeds[i..], b, state, params) == Seeded(env, seeds, before, old(state), params)
      {
        assert seeds[i..][0] == seeds[i] && seeds[i..][1..] == seeds[i + 1..];
        var (v, moved) := env.eval(seeds[i].value, state, params);
        state := moved;
        b := b[seeds[i].name := v];
      }
    }

    method EmitSingleStep(step: TimelineStep, before: Bindings, params: Value, lines: seq<string>)
      returns (ok: bool, b: Bindings, out: seq<string>)
      modifies this
      ensures Effect(!ok, out, b, state)
           == Then(Effect(false, lines, before, old(state)), Single(env, step, before, old(state), params))
    {
      b, out := before, lines;
      if !ConditionMatches(step.condition, b) { return true, b, out; }
      var rendered: Option<Value>;
      if step.payloadTemplateJson.Some? {
        var substituted := RenderString(step.payloadTemplateJson.value, b);
        rendered := env.parse(substituted);
      } else {
        rendered := env.parse(step.payloadJson);
        if rendered.Some? { rendered := Some(RenderValue(rendered.value, b)); }
      }
      assert rendered == Payload(env, step, before);
      if rendered.None? { return false, b, out; }
      out := out + [Notification(env, step.event, rendered.value)];
      b := InsertSeeds(step.seedsAfter, b, params);
      return true, b, out;
    }

    method RunBody(steps: seq<TimelineStep>, before: Bindings, params: Value, lines: seq<string>)
      returns (ok: bool, b: Bindings, out: seq<string>)
      modifies this
      ensures Effect(!ok, out, b, state)
           == Then(Effect(false, lines, before, old(state)), Body(env, steps, before, old(state), params))
    {
      b, out := before, lines;
      ghost var run := Singles(env, params);
      ghost var all := Then(Effect(false, lines, before, state), Body(env, steps, before, state, params));
      assert steps[0..] == steps;
      for i := 0 to |steps|
        invariant Then(Effect(false, out, b, state), InOrder(run, steps[i..], i, b, state)) == all
      {
        ghost var here := Effect(false, out, b, state);
        ghost var e := Single(env, steps[i], b, state, params);
        NextInOrder(run, steps, i, b, state);
        ThenAssoc(here, e, InOrder(run, steps[i + 1..], i + 1, e.bindings, e.state));
        ok, b, out := EmitSingleStep(steps[i], b, params, out);
        if !ok { return false, b, out; }
      }
      assert steps[|steps|..] == [];
      return true, b, out;
    }

    method RunForeach(fe: Foreach, b: Bindings, params: Value, lines: seq<string>) returns (ok: bool, out: seq<string>)
      modifies this
      ensures Effect(!ok, out, b, state)
           == Then(Effect(false, lines, b, old(state)), InOrder(Items(env, fe, params), ItemsOf(env, fe, b), 0, b, old(state)))
    {
      out := lines;
      var items := ItemsOf(env, fe, b);
      ghost var run := Items(env, fe, params);
      ghost var all := Then(Effect(false, lines, b, state), InOrder(run, items, 0, b, state));
      assert items[0..] == items;
      for i := 0 to |items|
        invariant Then(Effect(false, out, b, state), InOrder(run, items[i..], i, b, state)) == all
      {
        ghost var here := Effect(false, out, b, state);
        ghost var e := Iteration(env, fe, i, items[i], b, state, params);
        NextInOrder(run, items, i, b, state);
        ThenAssoc(here, e, InOrder(run, items[i + 1..], i + 1, b, e.state));
        var ib := BindItem(env, fe, b, i, items[i]);
        var inner: Bindings;
        ok, inner, out := RunBody(fe.body, ib, params, out);
        assert Effect(!ok, out, b, state) == Then(here, e);
        if !ok { return false, out; }
      }
      assert items[|items|..] == [];
      return true, out;
    }

    method RunTimeline(steps: seq<TimelineStep>, before: Bindings, params: Value)
      returns (ok: bool, b: Bindings, out: seq<string>)
      modifies this
      ensures Effect(!ok, out, b, state) == Timeline(env, steps, before, old(state), params)
    {
      b, out := before, [];
      ghost var run := Ones(env, params);
      ghost var all := Timeline(env, steps, before, state, params);
      ThenNothing(Effect(false, [], before, state));
      assert steps[0..] == steps;
      for i := 0 to |steps|
        invariant Then(Effect(false, out, b, state), InOrder(run, steps[i..], i, b, state)) == all
      {
        var step := steps[i];
        ghost var here := Effect(false, out, b, state);
        ghost var e := One(env, step, b, state, params);
        NextInOrder(run, steps, i, b, state);
        ThenAssoc(here, e, InOrder(run, steps[i + 1..], i + 1, e.bindings, e.state));
        ok := true;
        if step.foreach_.Some? {
          LoopKeepsBindings(env, step.foreach_.value, ItemsOf(env, step.foreach_.value, b), 0, b, state, params);
          if ConditionMatches(step.condition, b) { ok, out := RunForeach(step.foreach_.value, b, params, out); }
        } else {
          ok, b, out := EmitSingleStep(step, b, params, out);
        }
        assert Effect(!ok, out, b, state) == Then(here, e);
        if !ok { return false, b, out; }
      }
      assert steps[|steps|..] == [];
      return true, b, out;
    }

    /** `try_runtime_dispatch`. */
    method TryRuntimeDispatch(line: string) returns (r: Option<seq<string>>)
      modifies this
      ensures (r, state) == DispatchLine(env, catalog, line, old(state))
    {
      var v := env.parse(line);
      if v.None? { return None; }
      var m := StrAt(v.value, "method");
      if m.None? { return None; }
      var entry := FindEntry(catalog, m.value);
      if entry.None? { return None; }
      var id := OrDefault(Get(v.value, "id"), VNull);
      var params := OrDefault(Get(v.value, "params"), VNull);
      var b := InsertSeeds(entry.value.stateSeeds, map[], params);
      var ok, after, out := RunTimeline(entry.value.timeline, b, params);
      if !ok { return None; }
      var result := FinalResult(env, entry.value, after);
      if result.None? { return None; }
      return Some(out + [Response(env, id, result.value)]);
    }
  }
}
