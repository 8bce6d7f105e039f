/** The relay's routing table: one entry per dialed-in bridge, with the client channels of each session. */
module Registry {

  datatype Direction = ToClient | ToBridge

  datatype Frame = Frame(session: string, seqNo: nat, payload: seq<bv8>, direction: Direction)

  /** A channel is named by a number; its queue is what was sent on it, and a closed one refuses sends. */
  type Channel = nat

  type Queues = map<Channel, seq<Frame>>

  datatype Device = Device(bridge: Channel, clients: map<string, seq<Channel>>)

  datatype Relay = Relay(devices: map<string, Device>, queues: Queues, closed: set<Channel>)

  const EMPTY := Relay(map[], map[], {})

  datatype Call =
    | Register(device: string, tx: Channel)
    | Unregister(device: string)
    | Attach(device: string, session: string, tx: Channel)
    | Detach(device: string, session: string)
    | ForwardToBridge(device: string, frame: Frame)
    | ForwardToClients(device: string, session: string, frame: Frame)
    | Close(tx: Channel)

  function Queue(q: Queues, c: Channel): seq<Frame> { if c in q then q[c] else [] }

  /** `tx.send`: appended to the queue unless the receiver is gone. */
  function Send(q: Queues, closed: set<Channel>, c: Channel, f: Frame): Queues {
    if c in closed then q else q[c := Queue(q, c) + [f]]
  }

  function Listed(d: Device, session: string): seq<Channel> {
    if session in d.clients then d.clients[session] else []
  }

  /** `list.retain(|tx| tx.send(..).is_ok())`, as the queues it leaves and the list it keeps. */
  function Deliver(q: Queues, closed: set<Channel>, list: seq<Channel>, f: Frame): Queues
    decreases |list|
  {
    if list == [] then q else Deliver(Send(q, closed, list[0], f), closed, list[1..], f)
  }

  function Retain(closed: set<Channel>, list: seq<Channel>): seq<Channel> {
    if list == [] then []
    else (if list[0] in closed then [] else [list[0]]) + Retain(closed, list[1..])
  }

  /** One channel further down the list. */
  lemma {:induction false} LastInList(q: Queues, closed: set<Channel>, list: seq<Channel>, c: Channel, f: Frame)
    ensures Deliver(q, closed, list + [c], f) == Send(Deliver(q, closed, list, f), closed, c, f)
    ensures Retain(closed, list + [c]) == Retain(closed, list) + if c in closed then [] else [c]
    decreases |list|
  {
    if list == [] {
      assert list + [c] == [c] && [c][1..] == [];
    } else {
      assert (list + [c])[1..] == list[1..] + [c];
      LastInList(Send(q, closed, list[0], f), closed, list[1..], c, f);
    }
  }

  function Step(s: Relay, call: Call): Relay {
    match call
    case Register(d, tx) => s.(devices := s.devices[d := Device(tx, map[])])
    case Unregister(d) => s.(devices := s.devices - {d})
    case Attach(d, session, tx) =>
      if d !in s.devices then s
      else
        var e := s.devices[d];
        s.(devices := s.devices[d := e.(clients := e.clients[session := Listed(e, session) + [tx]])])
    case Detach(d, session) =>
      if d !in s.devices then s
      else s.(devices := s.devices[d := s.devices[d].(clients := s.devices[d].clients - {session})])
    case ForwardToBridge(d, f) =>
      if d !in s.devices then s else s.(queues := Send(s.queues, s.closed, s.devices[d].bridge, f))
    case ForwardToClients(d, session, f) =>
      if d !in s.devices || session !in s.devices[d].clients then s
      else
        var e := s.devices[d];
        s.(queues := Deliver(s.queues, s.closed, e.clients[session], f),
           devices := s.devices[d := e.(clients := e.clients[session := Retain(s.closed, e.clients[session])])])
    case Close(tx) => s.(closed := s.closed + {tx})
  }

  /** The count `forward_to_clients` returns. */
  function Reached(s: Relay, d: string, session: string): nat {
    if d !in s.devices || session !in s.devices[d].clients then 0
    else |Retain(s.closed, s.devices[d].clients[session])|
  }

  function Run(h: seq<Call>): Relay {
    if h == [] then EMPTY else Step(Run(h[..|h| - 1]), h[|h| - 1])
  }

  // ---- the same history seen by one client ----

  /** A client is in the fan-out of one device and session, or outside; either way it has a queue. */
  datatype View = Outside(queue: seq<Frame>) | Inside(device: string, session: string, queue: seq<Frame>)

  function Registered(h: seq<Call>): set<string> {
    if h == [] then {}
    else
      var before := Registered(h[..|h| - 1]);
      match h[|h| - 1]
      case Register(d, _) => before + {d}
      case Unregister(d) => before - {d}
      case _ => before
  }

  predicate IsClosed(h: seq<Call>, c: Channel) { Close(c) in h }

  /** One call as client `c` sees it, given which devices are registered and whether `c` is closed. */
  function Observe(registered: set<string>, isClosed: bool, v: View, call: Call, c: Channel): View {
    match call
    case Attach(d, session, tx) =>
      if tx == c && d in registered then Inside(d, session, v.queue) else v
    case ForwardToClients(d, session, f) =>
      if v.Inside? && v.device == d && v.session == session then
        (if isClosed then Outside(v.queue) else v.(queue := v.queue + [f]))
      else v
    case Detach(d, session) => if v.Inside? && v.device == d && v.session == session then Outside(v.queue) else v
    case Register(d, _) => if v.Inside? && v.device == d then Outside(v.queue) else v
    case Unregister(d) => if v.Inside? && v.device == d then Outside(v.queue) else v
    case _ => v
  }

  /** What client `c` should have seen after a history of calls. */
  function ViewOf(h: seq<Call>, c: Channel): View {
    if h == [] then Outside([])
    else
      var p := h[..|h| - 1];
      Observe(Registered(p), IsClosed(p, c), ViewOf(p, c), h[|h| - 1], c)
  }

  function Bridges(h: seq<Call>): set<Channel> {
    set call | call in h && call.Register? :: call.tx
  }

  function Uses(h: seq<Call>): set<Channel> {
    set call | call in h && (call.Register? || call.Attach?) :: call.tx
  }

  /** Each register and attach brings a channel of its own, as the route handlers do. */
  ghost predicate FreshChannels(h: seq<Call>) {
    h == [] || (
      && FreshChannels(h[..|h| - 1])
      && ((h[|h| - 1].Register? || h[|h| - 1].Attach?) ==> h[|h| - 1].tx !in Uses(h[..|h| - 1])))
  }

  // ---- delivery ----

  predicate Distinct(list: seq<Channel>) { forall i, j :: 0 <= i < j < |list| ==> list[i] != list[j] }

  lemma {:induction false} DeliverQueue(q: Queues, closed: set<Channel>, list: seq<Channel>, f: Frame, c: Channel)
    requires Distinct(list)
    ensures Queue(Deliver(q, closed, list, f), c) == Queue(q, c) + if c in list && c !in closed then [f] else []
    decreases |list|
  {
    if list != [] {
      DeliverQueue(Send(q, closed, list[0], f), closed, list[1..], f, c);
      assert c in list <==> c == list[0] || c in list[1..];
      if c == list[0] { assert c !in list[1..]; }
    }
  }

  lemma {:induction false} RetainMembers(closed: set<Channel>, list: seq<Channel>, c: Channel)
    ensures c in Retain(closed, list) <==> c in list && c !in closed
  {
    if list != [] {
      RetainMembers(closed, list[1..], c);
      assert c in list <==> c == list[0] || c in list[1..];
    }
  }

  lemma {:induction false} RetainDistinct(closed: set<Channel>, list: seq<Channel>)
    requires Distinct(list)
    ensures Distinct(Retain(closed, list))
  {
    if list != [] {
      RetainDistinct(closed, list[1..]);
      RetainMembers(closed, list[1..], list[0]);
    }
  }

  // ---- the routing table agrees with every client's view ----

  predicate In(v: View, d: string, session: string) { v.Inside? && v.device == d && v.session == session }

  /** The client is listed exactly where its view says; a channel that is no bridge's has the queue of its view. */
  ghost predicate Placed(s: Relay, v: View, c: Channel, isBridge: bool) {
    && (v.Inside? ==> v.device in s.devices)
    && (forall d, session :: d in s.devices ==>
          (c in Listed(s.devices[d], session) <==> In(v, d, session)))
    && (!isBridge ==> Queue(s.queues, c) == v.queue && forall d :: d in s.devices ==> s.devices[d].bridge != c)
  }

  lemma FanOutPlaces(s: Relay, v: View, call: Call, c: Channel, isBridge: bool)
    requires Placed(s, v, c, isBridge) && call.ForwardToClients? && Tidy(s)
    ensures Placed(Step(s, call), Observe(s.devices.Keys, c in s.closed, v, call, c), c, isBridge)
  {
    var d, session := call.device, call.session;
    if d in s.devices {
      assert c in Listed(s.devices[d], session) <==> In(v, d, session);
      if session in s.devices[d].clients {
        DeliverQueue(s.queues, s.closed, s.devices[d].clients[session], call.frame, c);
        RetainMembers(s.closed, s.devices[d].clients[session], c);
      }
    }
    var t := Step(s, call);
    var w := Observe(s.devices.Keys, c in s.closed, v, call, c);
    forall d, x | d in t.devices ensures c in Listed(t.devices[d], x) <==> In(w, d, x) {
      if d in s.devices { assert c in Listed(s.devices[d], x) <==> In(v, d, x); }
    }
  }

  lemma TableCallPlaces(s: Relay, v: View, call: Call, c: Channel, isBridge: bool)
    requires Placed(s, v, c, isBridge)
    requires call.Register? || call.Unregister? || call.Detach?
    requires call.Register? && call.tx == c ==> isBridge
    ensures Placed(Step(s, call), Observe(s.devices.Keys, c in s.closed, v, call, c), c, isBridge)
  {
    var t := Step(s, call);
    var w := Observe(s.devices.Keys, c in s.closed, v, call, c);
    forall d, x | d in t.devices ensures c in Listed(t.devices[d], x) <==> In(w, d, x) {
      if d in s.devices { assert c in Listed(s.devices[d], x) <==> In(v, d, x); }
    }
  }

  lemma AttachPlaces(s: Relay, v: View, call: Call, c: Channel, isBridge: bool)
    requires Placed(s, v, c, isBridge) && call.Attach? && (call.tx == c ==> v.Outside?)
    ensures Placed(Step(s, call), Observe(s.devices.Keys, c in s.closed, v, call, c), c, isBridge)
  {
    if call.device in s.devices {
      var e := s.devices[call.device];
      assert c in Listed(e, call.session) + [call.tx] <==> c in Listed(e, call.session) || c == call.tx;
    }
    var t := Step(s, call);
    var w := Observe(s.devices.Keys, c in s.closed, v, call, c);
    forall d, x | d in t.devices ensures c in Listed(t.devices[d], x) <==> In(w, d, x) {
      if d in s.devices { assert c in Listed(s.devices[d], x) <==> In(v, d, x); }
    }
  }

  lemma StepPlaces(s: Relay, v: View, call: Call, c: Channel, isBridge: bool)
    requires Placed(s, v, c, isBridge) && Tidy(s)
    requires call.Register? && call.tx == c ==> isBridge
    requires call.Attach? && call.tx == c ==> v.Outside?
    ensures Placed(Step(s, call), Observe(s.devices.Keys, c in s.closed, v, call, c), c, isBridge)
  {
    match call {
      case ForwardToClients(_, _, _) => FanOutPlaces(s, v, call, c, isBridge);
      case Attach(_, _, _) => AttachPlaces(s, v, call, c, isBridge);
      case Register(_, _) => TableCallPlaces(s, v, call, c, isBridge);
      case Unregister(_) => TableCallPlaces(s, v, call, c, isBridge);
      case Detach(_, _) => TableCallPlaces(s, v, call, c, isBridge);
      case ForwardToBridge(_, _) =>
      case Close(_) =>
    }
  }

  /** No client is listed twice for a session. */
  ghost predicate Tidy(s: Relay) {
    forall d, session :: d in s.devices && session in s.devices[d].clients ==> Distinct(s.devices[d].clients[session])
  }

  lemma StepTidy(s: Relay, call: Call)
    requires Tidy(s)
    requires call.Attach? && call.device in s.devices ==> call.tx !in Listed(s.devices[call.device], call.session)
    ensures Tidy(Step(s, call))
  {
    if call.ForwardToClients? && call.device in s.devices && call.session in s.devices[call.device].clients {
      RetainDistinct(s.closed, s.devices[call.device].clients[call.session]);
    }
  }

  lemma RunTracks(p: seq<Call>, call: Call)
    requires Run(p).devices.Keys == Registered(p) && forall c :: c in Run(p).closed <==> IsClosed(p, c)
    ensures Run(p + [call]).devices.Keys == Registered(p + [call])
    ensures forall c :: c in Run(p + [call]).closed <==> IsClosed(p + [call], c)
  {
    LastOf(p, call);
  }

  lemma LastOf(p: seq<Call>, call: Call)
    ensures (p + [call])[..|p|] == p && (p + [call])[|p|] == call
    ensures forall x :: x in p + [call] <==> x in p || x == call
    ensures Bridges(p + [call]) == Bridges(p) + if call.Register? then {call.tx} else {}
    ensures Uses(p + [call]) == Uses(p) + if call.Register? || call.Attach? then {call.tx} else {}
  {
    var h := p + [call];
    forall x | x in h ensures x in p || x == call {}
    forall x | x in p ensures x in h { var i :| 0 <= i < |p| && p[i] == x; assert h[i] == x; }
    assert h[|p|] == call;
  }

  lemma UnusedIsOutside(h: seq<Call>, c: Channel)
    requires c !in Uses(h)
    ensures ViewOf(h, c).Outside?
  {
    if h != [] {
      var p, call := h[..|h| - 1], h[|h| - 1];
      assert h == p + [call];
      LastOf(p, call);
      UnusedIsOutside(p, c);
    }
  }

  ghost predicate Agrees(h: seq<Call>) {
    && Run(h).devices.Keys == Registered(h)
    && (forall c :: c in Run(h).closed <==> IsClosed(h, c))
    && Tidy(Run(h))
    && forall c :: Placed(Run(h), ViewOf(h, c), c, c in Bridges(h))
  }

  lemma ExtendAgrees(p: seq<Call>, call: Call)
    requires Agrees(p)
    requires call.Attach? || call.Register? ==> call.tx !in Uses(p)
    ensures Agrees(p + [call])
  {
    var s, h := Run(p), p + [call];
    LastOf(p, call);
    RunTracks(p, call);
    if call.Attach? {
      UnusedIsOutside(p, call.tx);
      assert Placed(s, ViewOf(p, call.tx), call.tx, call.tx in Bridges(p));
    }
    StepTidy(s, call);
    forall c ensures Placed(Run(h), ViewOf(h, c), c, c in Bridges(h)) {
      assert Placed(s, ViewOf(p, c), c, c in Bridges(p));
      StepPlaces(s, ViewOf(p, c), call, c, c in Bridges(h));
    }
  }

  lemma {:induction false} RunAgrees(h: seq<Call>)
    requires FreshChannels(h)
    ensures Agrees(h)
  {
    if h != [] {
      var p, call := h[..|h| - 1], h[|h| - 1];
      assert h == p + [call];
      RunAgrees(p);
      ExtendAgrees(p, call);
    }
  }

  // ---- main results ----

  /**
   * After any calls, a client's queue from the fan-out is exactly, in order, the frames forwarded to its own device
   * and session between its attach and its detach, its device entry's removal or replacement, or its own closing.
   */
  lemma QueueIsItsView(h: seq<Call>, c: Channel)
    requires FreshChannels(h) && c !in Bridges(h)
    ensures Queue(Run(h).queues, c) == ViewOf(h, c).queue
  {
    RunAgrees(h);
    assert Placed(Run(h), ViewOf(h, c), c, false);
  }

  /** The clients a fan-out to this device and session reaches. */
  ghost predicate Reachable(h: seq<Call>, d: string, session: string, c: Channel) {
    && ViewOf(h, c).Inside? && ViewOf(h, c).device == d && ViewOf(h, c).session == session
    && !IsClosed(h, c)
  }

  lemma {:induction false} DistinctCount(list: seq<Channel>, members: set<Channel>)
    requires Distinct(list) && forall c :: c in members <==> c in list
    ensures |list| == |members|
  {
    if list == [] {
      assert members == {};
    } else {
      forall c ensures c in members - {list[0]} <==> c in list[1..] {
        assert c in list <==> c == list[0] || c in list[1..];
      }
      DistinctCount(list[1..], members - {list[0]});
      assert list[0] in members;
    }
  }

  /** The count returned by a fan-out is the number of live clients it reaches. */
  lemma CountIsClientsReached(h: seq<Call>, d: string, session: string, reached: set<Channel>)
    requires FreshChannels(h)
    requires forall c :: c in reached <==> Reachable(h, d, session, c)
    ensures Reached(Run(h), d, session) == |reached|
  {
    RunAgrees(h);
    var s := Run(h);
    if d in s.devices && session in s.devices[d].clients {
      var list := s.devices[d].clients[session];
      var kept := Retain(s.closed, list);
      RetainDistinct(s.closed, list);
      forall c ensures c in reached <==> c in kept {
        RetainMembers(s.closed, list, c);
        assert Placed(s, ViewOf(h, c), c, c in Bridges(h));
        assert c in Listed(s.devices[d], session) <==> c in list;
      }
      DistinctCount(kept, reached);
    } else {
      forall c ensures c !in reached {
        assert Placed(s, ViewOf(h, c), c, c in Bridges(h));
        if d in s.devices { assert c !in Listed(s.devices[d], session); }
      }
      assert reached == {};
    }
  }

  // ---- the registry object ----

  class DeviceRegistry {
    var devices: map<string, Device>
    var queues: Queues
    var closed: set<Channel>

    function State(): Relay
      reads this
    {
      Relay(devices, queues, closed)
    }

    constructor ()
      ensures State() == EMPTY
    {
      devices, queues, closed := map[], map[], {};
    }

    method RegisterBridge(device: string, tx: Channel)
      modifies this
      ensures State() == Step(old(State()), Register(device, tx))
    {
      devices := devices[device := Device(tx, map[])];
    }

    method UnregisterBridge(device: string)
      modifies this
      ensures State() == Step(old(State()), Unregister(device))
    {
      devices := devices - {device};
    }

    method AttachClient(device: string, session: string, tx: Channel) returns (attached: bool)
      modifies this
      ensures State() == Step(old(State()), Attach(device, session, tx))
      ensures attached <==> device in old(devices)
    {
      if device !in devices { return false; }
      var entry := devices[device];
      var list := if session in entry.clients then entry.clients[session] else [];
      devices := devices[device := entry.(clients := entry.clients[session := list + [tx]])];
      return true;
    }

    method DetachClientsFor(device: string, session: string)
      modifies this
      ensures State() == Step(old(State()), Detach(device, session))
    {
      if device in devices {
        devices := devices[device := devices[device].(clients := devices[device].clients - {session})];
      }
    }

    method SendOn(tx: Channel, f: Frame) returns (ok: bool)
      modifies this`queues
      ensures ok <==> tx !in closed
      ensures queues == Send(old(queues), closed, tx, f)
    {
      ok := tx !in closed;
      if ok { queues := queues[tx := Queue(queues, tx) + [f]]; }
    }

    method ForwardToBridge(device: string, f: Frame) returns (ok: bool)
      modifies this
      ensures State() == Step(old(State()), Call.ForwardToBridge(device, f))
      ensures ok <==> device in old(devices) && old(devices)[device].bridge !in closed
    {
      if device !in devices { return false; }
      ok := SendOn(devices[device].bridge, f);
    }

    /** Sends to each channel in turn and keeps those that are still open. */
    method SendAll(list: seq<Channel>, f: Frame) returns (kept: seq<Channel>)
      modifies this`queues
      ensures queues == Deliver(old(queues), closed, list, f)
      ensures kept == Retain(closed, list)
    {
      kept := [];
      for i := 0 to |list|
        invariant queues == Deliver(old(queues), closed, list[..i], f)
        invariant kept == Retain(closed, list[..i])
      {
        assert list[..i + 1] == list[..i] + [list[i]];
        LastInList(old(queues), closed, list[..i], list[i], f);
        var ok := SendOn(list[i], f);
        if ok { kept := kept + [list[i]]; }
      }
      assert list[..|list|] == list;
    }

    method ForwardToClients(device: string, session: string, f: Frame) returns (count: nat)
      modifies this
      ensures State() == Step(old(State()), Call.ForwardToClients(device, session, f))
      ensures count == Reached(old(State()), device, session)
    {
      if device !in devices || session !in devices[device].clients { return 0; }
      var entry := devices[device];
      var kept := SendAll(entry.clients[session], f);
      devices := devices[device := entry.(clients := entry.clients[session := kept])];
      count := |kept|;
    }
  }
}
