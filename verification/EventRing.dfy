/** The bounded per-session replay buffer, and the unbounded log it must agree with. */
module EventRing {

  datatype Replay<T> =
    | Stream(events: seq<(nat, T)>)
    | OutOfRange(oldest: nat, requested: nat)
    | UpToDate

  /** The full log with its sequence numbers, starting at 1. */
  function Numbered<T>(log: seq<T>): (r: seq<(nat, T)>)
    ensures |r| == |log| && forall i :: 0 <= i < |log| ==> r[i] == (i + 1, log[i])
  {
    seq(|log|, i requires 0 <= i < |log| => (i + 1, log[i]))
  }

  /** Number of entries a ring of this capacity has dropped. */
  function Evicted<T>(log: seq<T>, cap: nat): nat {
    if |log| > cap then |log| - cap else 0
  }

  /** The answer the whole log would give to a cursor, for a ring that keeps the last `cap` entries. */
  function Answer<T>(log: seq<T>, cap: nat, cursor: nat): Replay<T> {
    if cursor >= |log| then UpToDate
    else if cursor < Evicted(log, cap) then OutOfRange(Evicted(log, cap) + 1, cursor)
    else Stream(Numbered(log)[cursor..])
  }

  class EventRing<T> {
    var buf: seq<(nat, T)>
    const cap: nat
    var nextSeq: nat
    ghost var log: seq<T>

    /** The buffer holds exactly the last min(cap, n) entries of the log, numbered 1 to n. */
    ghost predicate Valid()
      reads this
    {
      cap > 0 && nextSeq == |log| + 1 && buf == Numbered(log)[Evicted(log, cap)..]
    }

    constructor (cap: nat)
      requires cap > 0
      ensures Valid() && log == [] && this.cap == cap
    {
      this.cap := cap;
      buf, nextSeq, log := [], 1, [];
    }

    method Push(ev: T) returns (seqNo: nat)
      requires Valid()
      modifies this
      ensures Valid() && log == old(log) + [ev] && seqNo == |log|
    {
      seqNo := nextSeq;
      nextSeq := nextSeq + 1;
      if |buf| == cap { buf := buf[1..]; }
      buf := buf + [(seqNo, ev)];
      log := log + [ev];
    }

    method ReplayAfter(lastEventId: nat) returns (r: Replay<T>)
      requires Valid()
      ensures r == Answer(log, cap, lastEventId)
    {
      if |buf| == 0 { return UpToDate; }
      var latest := buf[|buf| - 1].0;
      if lastEventId >= latest { return UpToDate; }
      var oldest := buf[0].0;
      if lastEventId + 1 < oldest { return OutOfRange(oldest, lastEventId); }
      ghost var from := lastEventId - Evicted(log, cap);
      assert 0 <= from < |buf| && forall i :: 0 <= i < |buf| ==> buf[i].0 == Evicted(log, cap) + i + 1;
      var stream := [];
      var i := 0;
      while i < |buf|
        invariant i <= |buf|
        invariant stream == if i <= from then [] else buf[from..i]
      {
        if buf[i].0 > lastEventId { stream := stream + [buf[i]]; }
        i := i + 1;
      }
      assert stream == buf[from..];
      assert stream == Numbered(log)[lastEventId..];
      return Stream(stream);
    }
  }

  // ---- a client that reconnects with its cursor ----

  datatype Action<T> = Push(ev: T) | Reconnect

  /** What the client has received, the cursor it will present, and the log so far. */
  datatype Client<T> = Client(log: seq<T>, cursor: nat, seen: seq<(nat, T)>)

  datatype Outcome<T> = Live(client: Client<T>) | MustResync(at: nat)

  function Act<T>(c: Client<T>, cap: nat, a: Action<T>): Outcome<T> {
    match a
    case Push(ev) => Live(c.(log := c.log + [ev]))
    case Reconnect =>
      match Answer(c.log, cap, c.cursor)
      case UpToDate => Live(c)
      case OutOfRange(_, _) => MustResync(c.cursor)
      case Stream(events) =>
        if events == [] then Live(c)
        else Live(c.(cursor := events[|events| - 1].0, seen := c.seen + events))
  }

  function Follow<T>(c: Client<T>, cap: nat, actions: seq<Action<T>>): Outcome<T>
    decreases |actions|
  {
    if actions == [] then Live(c)
    else
      match Act(c, cap, actions[0])
      case MustResync(at) => MustResync(at)
      case Live(d) => Follow(d, cap, actions[1..])
  }

  ghost predicate InStep<T>(c: Client<T>) {
    c.cursor <= |c.log| && c.seen == Numbered(c.log)[..c.cursor]
  }

  /** One action keeps the client in step with the log; a resync is demanded exactly when the next entry is gone. */
  lemma ActKeepsStep<T>(c: Client<T>, cap: nat, a: Action<T>)
    requires InStep(c)
    ensures Act(c, cap, a).Live? ==> InStep(Act(c, cap, a).client)
    ensures Act(c, cap, a).MustResync? <==> a.Reconnect? && |c.log| - c.cursor > cap && c.cursor < |c.log|
  {
    if a.Push? {
      var d := Act(c, cap, a).client;
      assert Numbered(d.log)[..c.cursor] == Numbered(c.log)[..c.cursor];
    } else if c.cursor < |c.log| && c.cursor >= Evicted(c.log, cap) {
      assert Numbered(c.log)[..c.cursor] + Numbered(c.log)[c.cursor..] == Numbered(c.log);
      assert Numbered(c.log)[..|c.log|] == Numbered(c.log);
    }
  }

  /** Any series of pushes and reconnects shows the client the log's own prefix: no gap, no duplicate. */
  lemma {:induction false} ReconnectsSeeTheLog<T>(c: Client<T>, cap: nat, actions: seq<Action<T>>)
    requires InStep(c)
    ensures Follow(c, cap, actions).Live? ==> InStep(Follow(c, cap, actions).client)
    decreases |actions|
  {
    if actions != [] {
      ActKeepsStep(c, cap, actions[0]);
      if Act(c, cap, actions[0]).Live? {
        ReconnectsSeeTheLog(Act(c, cap, actions[0]).client, cap, actions[1..]);
      }
    }
  }
}
