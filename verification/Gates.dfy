/** Release gates: snapshots, their event payloads, and the five command handlers over the live gate map. */
module Gates {
  import opened Clocks
  import Decimal
  import opened JsonValue
  import opened Strings
  import opened Wrappers

  datatype Criterion = Criterion(id: string, text: string, satisfied: bool)

  datatype Signer = Signer(name: string, signedAt: string)

  datatype Snapshot = Snapshot(
    id: string, state: string, summary: string, blockers: seq<string>, criteria: seq<Criterion>,
    signers: seq<Signer>, requiredSigners: nat, overridden: bool, lastChangedAt: string,
    overrideReason: Option<string>, overrideExpiresAt: Option<string>)

  datatype Event = Event(kind: string, payload: Value)

  datatype Ack = Accepted | Refused(code: string)

  const MUTATION_AUDIT := "MutationAuditClean"

  const KNOWN_GATES: seq<string> := ["DevComplete", "QAComplete", "ReadyForStaging", "ReadyToDeploy",
    "ReadyToPublish", "ReadyForGrowth", MUTATION_AUDIT]

  type GateMap = map<string, Snapshot>

  // ---- event payloads ----

  function StringValues(xs: seq<string>): seq<Value> {
    if xs == [] then [] else [VStr(xs[0])] + StringValues(xs[1..])
  }

  function CriterionValue(c: Criterion): Value {
    VObj(map["id" := VStr(c.id), "label" := VStr(c.text), "satisfied" := VBool(c.satisfied)])
  }

  function CriteriaValues(cs: seq<Criterion>): seq<Value> {
    if cs == [] then [] else [CriterionValue(cs[0])] + CriteriaValues(cs[1..])
  }

  function SignerValue(s: Signer): Value { VObj(map["name" := VStr(s.name), "signed_at" := VStr(s.signedAt)]) }

  function SignerValues(ss: seq<Signer>): seq<Value> {
    if ss == [] then [] else [SignerValue(ss[0])] + SignerValues(ss[1..])
  }

  function SnapshotValue(s: Snapshot): Value {
    VObj(map[
      "id" := VStr(s.id), "state" := VStr(s.state), "summary" := VStr(s.summary),
      "blockers" := VArr(StringValues(s.blockers)), "criteria" := VArr(CriteriaValues(s.criteria)),
      "signers" := VArr(SignerValues(s.signers)), "required_signers" := VNum(Int(s.requiredSigners)),
      "overridden" := VBool(s.overridden), "last_changed_at" := VStr(s.lastChangedAt),
      "override_reason" := OptStr(s.overrideReason), "override_expires_at" := OptStr(s.overrideExpiresAt)])
  }

  function GateEvent(s: Snapshot): Event { Event("gate.changed", SnapshotValue(s)) }

  /** Items that are not strings are dropped. */
  function ParseStrings(vs: seq<Value>): seq<string> {
    if vs == [] then [] else (if vs[0].VStr? then [vs[0].s] else []) + ParseStrings(vs[1..])
  }

  function ParseCriterion(v: Value): Option<Criterion> {
    match StrAt(v, "id")
    case None => None
    case Some(id) =>
      match StrAt(v, "label")
      case None => None
      case Some(text) => Some(Criterion(id, text, OrDefault(AsBool(Get(v, "satisfied")), false)))
  }

  function ParseCriteria(vs: seq<Value>): seq<Criterion> {
    if vs == [] then []
    else (match ParseCriterion(vs[0]) case Some(c) => [c] case None => []) + ParseCriteria(vs[1..])
  }

  function ParseSigner(v: Value): Option<Signer> {
    match StrAt(v, "name")
    case None => None
    case Some(name) =>
      match StrAt(v, "signed_at")
      case None => None
      case Some(signedAt) => Some(Signer(name, signedAt))
  }

  function ParseSigners(vs: seq<Value>): seq<Signer> {
    if vs == [] then []
    else (match ParseSigner(vs[0]) case Some(s) => [s] case None => []) + ParseSigners(vs[1..])
  }

  /** `snapshot_from_payload`; `nowText` stands in for a missing change time. */
  function ParseSnapshot(v: Value, nowText: string): Option<Snapshot> {
    match StrAt(v, "id")
    case None => None
    case Some(id) => Some(Snapshot(
      id, OrDefault(StrAt(v, "state"), "open"), OrDefault(StrAt(v, "summary"), ""),
      ParseStrings(OrDefault(AsArray(Get(v, "blockers")), [])),
      ParseCriteria(OrDefault(AsArray(Get(v, "criteria")), [])),
      ParseSigners(OrDefault(AsArray(Get(v, "signers")), [])),
      OrDefault(AsU64(Get(v, "required_signers")), 1),
      OrDefault(AsBool(Get(v, "overridden")), false),
      OrDefault(StrAt(v, "last_changed_at"), nowText),
      StrAt(v, "override_reason"), StrAt(v, "override_expires_at")))
  }

  lemma {:induction false} StringsReadBack(xs: seq<string>)
    ensures ParseStrings(StringValues(xs)) == xs
  {
    if xs != [] { StringsReadBack(xs[1..]); }
  }

  lemma {:induction false} CriteriaReadBack(cs: seq<Criterion>)
    ensures ParseCriteria(CriteriaValues(cs)) == cs
  {
    if cs != [] {
      CriteriaReadBack(cs[1..]);
      assert ParseCriterion(CriterionValue(cs[0])) == Some(cs[0]);
    }
  }

  lemma {:induction false} SignersReadBack(ss: seq<Signer>)
    ensures ParseSigners(SignerValues(ss)) == ss
  {
    if ss != [] {
      SignersReadBack(ss[1..]);
      assert ParseSigner(SignerValue(ss[0])) == Some(ss[0]);
    }
  }

  lemma TextFields(s: Snapshot)
    ensures var v := SnapshotValue(s);
      && StrAt(v, "id") == Some(s.id) && StrAt(v, "state") == Some(s.state) && StrAt(v, "summary") == Some(s.summary)
      && StrAt(v, "last_changed_at") == Some(s.lastChangedAt)
  {}

  lemma OverrideFields(s: Snapshot)
    ensures var v := SnapshotValue(s);
      && StrAt(v, "override_reason") == s.overrideReason && StrAt(v, "override_expires_at") == s.overrideExpiresAt
      && AsBool(Get(v, "overridden")) == Some(s.overridden)
  {}

  lemma ListFields(s: Snapshot)
    ensures var v := SnapshotValue(s);
      && AsArray(Get(v, "blockers")) == Some(StringValues(s.blockers))
      && AsArray(Get(v, "criteria")) == Some(CriteriaValues(s.criteria))
      && AsArray(Get(v, "signers")) == Some(SignerValues(s.signers))
      && Get(v, "required_signers") == Some(VNum(Int(s.requiredSigners)))
  {}

  /** A snapshot printed into an event is read back unchanged, whatever the clock says. */
  lemma SnapshotReadsBack(s: Snapshot, nowText: string)
    requires s.requiredSigners < 0x1_0000_0000_0000_0000
    ensures ParseSnapshot(SnapshotValue(s), nowText) == Some(s)
  {
    TextFields(s);
    OverrideFields(s);
    ListFields(s);
    StringsReadBack(s.blockers);
    CriteriaReadBack(s.criteria);
    SignersReadBack(s.signers);
  }

  // ---- snapshots ----

  function RequiredFor(id: string): nat {
    if id == MUTATION_AUDIT then 0 else if id == "ReadyToDeploy" || id == "ReadyToPublish" then 2 else 1
  }

  function OverrideInstant(clock: Clock, s: Snapshot): Option<int> {
    if s.overrideExpiresAt.Some? then clock.parse(s.overrideExpiresAt.value) else None
  }

  /** `gate_is_effectively_pass`. */
  predicate EffectivelyPasses(clock: Clock, s: Snapshot, now: int) {
    if s.overridden then
      s.overrideExpiresAt.None? || (OverrideInstant(clock, s).Some? && OverrideInstant(clock, s).value > now)
    else s.state == "pass"
  }

  predicate OverrideIsExpired(clock: Clock, s: Snapshot, now: int) {
    s.overridden && OverrideInstant(clock, s).Some? && OverrideInstant(clock, s).value <= now
  }

  function ClearOverride(s: Snapshot): Snapshot {
    s.(overridden := false, overrideReason := None, overrideExpiresAt := None)
  }

  function Max(a: nat, b: nat): nat { if a < b then b else a }

  function Monus(a: nat, b: nat): nat { if a < b then 0 else a - b }

  function Summary(s: Snapshot, satisfied: bool, required: nat): string {
    var signed := |s.signers|;
    if s.overridden then
      if s.overrideReason.Some? && Trim(s.overrideReason.value) != "" then "override: " + s.overrideReason.value
      else "override active"
    else if satisfied then
      if signed == 0 then "Gate approved" else "Approved with " + Decimal.Print(signed) + " sign-off(s)"
    else if required == 1 then "Awaiting sign-off"
    else "Awaiting " + Decimal.Print(Monus(required, signed)) + " sign-off(s)"
  }

  function Blockers(satisfied: bool, required: nat, signed: nat): seq<string> {
    if satisfied then []
    else if required == 1 then ["Awaiting 1 sign-off"]
    else ["Awaiting " + Decimal.Print(Monus(required, signed)) + " more sign-off(s)"]
  }

  function SignoffCriterion(satisfied: bool, required: nat): Criterion {
    Criterion("signoffs_complete",
              if required == 1 then "1 sign-off required" else Decimal.Print(required) + " sign-offs required", satisfied)
  }

  /** What `touch_gate` writes once an expired override is gone. */
  function Recomputed(s: Snapshot, nowText: string): Snapshot {
    var required := Max(s.requiredSigners, 1);
    var satisfied := s.overridden || |s.signers| >= required;
    Snapshot(s.id, if satisfied then "pass" else "open", Summary(s, satisfied, required),
             Blockers(satisfied, required, |s.signers|), [SignoffCriterion(satisfied, required)],
             s.signers, s.requiredSigners, s.overridden, nowText, s.overrideReason, s.overrideExpiresAt)
  }

  /** `touch_gate`. */
  function Touch(clock: Clock, s: Snapshot, now: int): Snapshot {
    if s.id == MUTATION_AUDIT then s.(lastChangedAt := clock.show(now))
    else if OverrideInstant(clock, s).Some? && OverrideInstant(clock, s).value <= now
    then Recomputed(ClearOverride(s), clock.show(now))
    else Recomputed(s, clock.show(now))
  }

  function DefaultSnapshot(clock: Clock, id: string, now: int): Snapshot {
    if id == MUTATION_AUDIT then
      Snapshot(id, "pass", "No blocking mutations", [],
               [Criterion("no_blocking_mutations", "No blocking mutations", true)],
               [], 0, false, clock.show(now), None, None)
    else Touch(clock, Snapshot(id, "open", "", [], [], [], RequiredFor(id), false, clock.show(now), None, None), now)
  }

  function Names(ss: seq<Signer>): set<string> { set i | 0 <= i < |ss| :: ss[i].name }

  function Plural(n: nat): string { if n == 1 then "" else "s" }

  /** The mutation audit gate after a reported count of blocking mutations. */
  function Synced(s: Snapshot, count: nat, nowText: string): Snapshot {
    Snapshot(s.id, if count == 0 then "pass" else "open",
             if count == 0 then "No blocking mutations"
             else Decimal.Print(count) + " blocking mutation" + Plural(count) + " pending review",
             if count == 0 then []
             else ["Awaiting review of " + Decimal.Print(count) + " blocking mutation" + Plural(count)],
             [Criterion("no_blocking_mutations", "No blocking mutations", count == 0)],
             s.signers, s.requiredSigners, s.overridden, nowText, s.overrideReason, s.overrideExpiresAt)
  }

  // ---- commands ----

  datatype Kind = Evaluate | SignOff | Override | RevokeOverride | SyncAudit

  datatype Act = Look | Sign(name: string) | Cover(reason: string, until: int) | Uncover | Report(count: nat)

  /** An accepted command: the gate it is about and what it does there. */
  datatype Action = Action(gate: string, act: Act)

  /** `evaluate` reads `gate` and falls back on `id`; the others read `id` and fall back on `gate_id`. */
  function GateId(kind: Kind, payload: Value): string {
    Trim(OrDefault(
      if kind.Evaluate? then if StrAt(payload, "gate").Some? then StrAt(payload, "gate") else StrAt(payload, "id")
      else AsStr(GetEither(payload, "id", "gate_id")), ""))
  }

  function Actor(principal: Option<string>): Option<string> {
    if principal.Some? && Trim(principal.value) != "" then Some(Trim(principal.value)) else None
  }

  /** `parse_expiry`: the instant an override ends. */
  function ParseExpiry(clock: Clock, raw: Option<string>, now: int): Result<int, string> {
    if raw.None? || Trim(raw.value) == "" then Ok(now + SEVEN_DAYS)
    else
      match clock.parse(raw.value)
      case None => Err("gate.expiry_required")
      case Some(t) => if t <= now then Err("gate.expiry_in_past") else Ok(t)
  }

  function OverrideAct(clock: Clock, payload: Value, now: int): Result<Act, string> {
    var reason := Trim(OrDefault(StrAt(payload, "reason"), ""));
    if reason == "" then Err("gate.reason_required")
    else
      match ParseExpiry(clock, AsStr(GetEither(payload, "expires_at", "expiresAt")), now)
      case Err(code) => Err(code)
      case Ok(until) => Ok(Cover(reason, until))
  }

  function OnKnown(id: string, act: Act): Result<Action, string> {
    if id in KNOWN_GATES then Ok(Action(id, act)) else Err("gate.not_found")
  }

  /** The checks a command passes before it touches the map, in the order they are made. */
  function Decide(clock: Clock, kind: Kind, payload: Value, principal: Option<string>, now: int): Result<Action, string> {
    var id := GateId(kind, payload);
    if kind.SyncAudit? then
      if Actor(principal).None? then Err("gate.signer_required")
      else Ok(Action(MUTATION_AUDIT, Report(OrDefault(AsU64(Get(payload, "blocking_count")), 0))))
    else if id == "" then Err("gate.not_found")
    else if kind.Evaluate? then OnKnown(id, Look)
    else if Actor(principal).None? then Err("gate.signer_required")
    else if kind.SignOff? then OnKnown(id, Sign(Actor(principal).value))
    else if kind.RevokeOverride? then OnKnown(id, Uncover)
    else
      match OverrideAct(clock, payload, now)
      case Err(code) => Err(code)
      case Ok(act) => OnKnown(id, act)
  }

  function AddSigner(s: Snapshot, name: string, nowText: string): Snapshot {
    if name in Names(s.signers) then s else s.(signers := s.signers + [Signer(name, nowText)])
  }

  function SetOverride(s: Snapshot, reason: string, untilText: string): Snapshot {
    s.(overridden := true, overrideReason := Some(reason), overrideExpiresAt := Some(untilText))
  }

  /** The gate's snapshot after an accepted command. */
  function Apply(clock: Clock, s: Snapshot, act: Act, now: int): Snapshot {
    match act
    case Look => if OverrideIsExpired(clock, s, now) then Touch(clock, ClearOverride(s), now) else s
    case Sign(name) => Touch(clock, AddSigner(s, name, clock.show(now)), now)
    case Cover(reason, until) => Touch(clock, SetOverride(s, reason, clock.show(until)), now)
    case Uncover => Touch(clock, ClearOverride(s), now)
    case Report(count) => Synced(s, count, clock.show(now))
  }

  function SnapshotOf(clock: Clock, gates: GateMap, id: string, now: int): Snapshot {
    if id in gates then gates[id] else DefaultSnapshot(clock, id, now)
  }

  datatype Handled = Handled(gates: GateMap, ack: Ack, event: Option<Event>)

  /** One gate command: a refusal leaves the map alone; an accepted one stores and emits the gate's new snapshot. */
  function Handle(clock: Clock, gates: GateMap, kind: Kind, payload: Value, principal: Option<string>, now: int): Handled {
    match Decide(clock, kind, payload, principal, now)
    case Err(code) => Handled(gates, Refused(code), None)
    case Ok(Action(id, act)) =>
      var s := Apply(clock, SnapshotOf(clock, gates, id, now), act, now);
      Handled(gates[id := s], Accepted, Some(GateEvent(s)))
  }

  // ---- readiness ----

  function RequiredGates(environment: string): seq<string> {
    if environment == "staging" then ["DevComplete", "ReadyToDeploy", "ReadyForStaging", MUTATION_AUDIT]
    else ["DevComplete", "ReadyToDeploy", MUTATION_AUDIT]
  }

  const PUBLISH_GATES: seq<string> := ["ReadyToPublish"]

  predicate Holds(clock: Clock, gates: GateMap, id: string, now: int) {
    id in gates && EffectivelyPasses(clock, gates[id], now)
  }

  /** `missing_gate_ids`: the required gates that do not hold, in order. */
  function Missing(clock: Clock, gates: GateMap, required: seq<string>, now: int): (r: seq<string>)
    ensures forall g :: g in r <==> g in required && !Holds(clock, gates, g, now)
  {
    if required == [] then []
    else
      assert forall g :: g in required <==> g == required[0] || g in required[1..];
      (if Holds(clock, gates, required[0], now) then [] else [required[0]]) + Missing(clock, gates, required[1..], now)
  }

  /** `SessionGateState` behind its lock; each handler is one critical section. */
  class SessionGates {
    var gates: GateMap
    const clock: Clock

    constructor (clock: Clock)
      ensures this.clock == clock && gates == map[]
    {
      this.clock := clock;
      gates := map[];
    }

    method EnsureKnown(id: string, now: int) returns (snapshot: Option<Snapshot>)
      modifies this
      ensures snapshot.Some? <==> id in KNOWN_GATES
      ensures snapshot.None? ==> gates == old(gates)
      ensures snapshot.Some? ==> snapshot.value == SnapshotOf(clock, old(gates), id, now)
      ensures snapshot.Some? ==> gates == old(gates)[id := snapshot.value]
    {
      if id !in KNOWN_GATES { return None; }
      if id !in gates { gates := gates[id := DefaultSnapshot(clock, id, now)]; }
      snapshot := Some(gates[id]);
    }

    /** The handlers' critical sections: look the gate up, change its snapshot in place, take a copy. */
    method Reevaluate(id: string, now: int) returns (r: Option<Snapshot>)
      modifies this
      ensures Stored(r, old(gates), id, Look, now)
    {
      r := EnsureKnown(id, now);
      if r.Some? && OverrideIsExpired(clock, r.value, now) {
        r := Some(Touch(clock, ClearOverride(r.value), now));
        gates := gates[id := r.value];
      }
    }

    method AddSignoff(id: string, signer: string, now: int) returns (r: Option<Snapshot>)
      modifies this
      ensures Stored(r, old(gates), id, Sign(signer), now)
    {
      r := EnsureKnown(id, now);
      if r.Some? {
        var s := r.value;
        if signer !in Names(s.signers) {
          s := s.(signers := s.signers + [Signer(signer, clock.show(now))]);
        }
        r := Some(Touch(clock, s, now));
        gates := gates[id := r.value];
      }
    }

    method AddOverride(id: string, reason: string, until: int, now: int) returns (r: Option<Snapshot>)
      modifies this
      ensures Stored(r, old(gates), id, Cover(reason, until), now)
    {
      r := EnsureKnown(id, now);
      if r.Some? {
        r := Some(Touch(clock, SetOverride(r.value, reason, clock.show(until)), now));
        gates := gates[id := r.value];
      }
    }

    method DropOverride(id: string, now: int) returns (r: Option<Snapshot>)
      modifies this
      ensures Stored(r, old(gates), id, Uncover, now)
    {
      r := EnsureKnown(id, now);
      if r.Some? {
        r := Some(Touch(clock, ClearOverride(r.value), now));
        gates := gates[id := r.value];
      }
    }

    /** An unknown id changes nothing; a known one gets, and returns, the snapshot the act makes of it. */
    ghost predicate Stored(r: Option<Snapshot>, before: GateMap, id: string, act: Act, now: int)
      reads this
    {
      && (r.Some? <==> id in KNOWN_GATES)
      && (r.None? ==> gates == before)
      && (r.Some? ==> r.value == Apply(clock, SnapshotOf(clock, before, id, now), act, now))
      && (r.Some? ==> gates == before[id := r.value])
    }

    method HandleEvaluate(payload: Value, now: int) returns (ack: Ack, event: Option<Event>)
      modifies this
      ensures Handled(gates, ack, event) == Handle(clock, old(gates), Evaluate, payload, None, now)
    {
      var id := GateId(Evaluate, payload);
      if id == "" { return Refused("gate.not_found"), None; }
      var s := Reevaluate(id, now);
      if s.None? { return Refused("gate.not_found"), None; }
      return Accepted, Some(GateEvent(s.value));
    }

    method HandleSignoff(payload: Value, principal: Option<string>, now: int) returns (ack: Ack, event: Option<Event>)
      modifies this
      ensures Handled(gates, ack, event) == Handle(clock, old(gates), SignOff, payload, principal, now)
    {
      var id := GateId(SignOff, payload);
      if id == "" { return Refused("gate.not_found"), None; }
      var signer := Actor(principal);
      if signer.None? { return Refused("gate.signer_required"), None; }
      var s := AddSignoff(id, signer.value, now);
      if s.None? { return Refused("gate.not_found"), None; }
      return Accepted, Some(GateEvent(s.value));
    }

    method HandleOverride(payload: Value, principal: Option<string>, now: int) returns (ack: Ack, event: Option<Event>)
      modifies this
      ensures Handled(gates, ack, event) == Handle(clock, old(gates), Override, payload, principal, now)
    {
      var id := GateId(Override, payload);
      if id == "" { return Refused("gate.not_found"), None; }
      var actor := Actor(principal);
      if actor.None? { return Refused("gate.signer_required"), None; }
      var reason := Trim(OrDefault(StrAt(payload, "reason"), ""));
      if reason == "" { return Refused("gate.reason_required"), None; }
      var until := ParseExpiry(clock, AsStr(GetEither(payload, "expires_at", "expiresAt")), now);
      if until.Err? { return Refused(until.error), None; }
      var s := AddOverride(id, reason, until.value, now);
      if s.None? { return Refused("gate.not_found"), None; }
      return Accepted, Some(GateEvent(s.value));
    }

    method HandleRevokeOverride(payload: Value, principal: Option<string>, now: int)
      returns (ack: Ack, event: Option<Event>)
      modifies this
      ensures Handled(gates, ack, event) == Handle(clock, old(gates), RevokeOverride, payload, principal, now)
    {
      var id := GateId(RevokeOverride, payload);
      if id == "" { return Refused("gate.not_found"), None; }
      if Actor(principal).None? { return Refused("gate.signer_required"), None; }
      var s := DropOverride(id, now);
      if s.None? { return Refused("gate.not_found"), None; }
      return Accepted, Some(GateEvent(s.value));
    }

    method HandleSyncMutationAudit(payload: Value, principal: Option<string>, now: int)
      returns (ack: Ack, event: Option<Event>)
      modifies this
      ensures Handled(gates, ack, event) == Handle(clock, old(gates), SyncAudit, payload, principal, now)
    {
      if Actor(principal).None? { return Refused("gate.signer_required"), None; }
      var count := OrDefault(AsU64(Get(payload, "blocking_count")), 0);
      var s := SnapshotOf(clock, gates, MUTATION_AUDIT, now);
      s := Synced(s, count, clock.show(now));
      gates := gates[MUTATION_AUDIT := s];
      return Accepted, Some(GateEvent(s));
    }
  }
}
