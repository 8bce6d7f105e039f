/** The release plane: targets, deploys and notes drafts, their events, and the guarded commands. */
module Releases {
  import opened Clocks
  import opened Gates
  import opened JsonValue
  import opened Wrappers

  datatype Target = Target(
    id: string, name: string, environment: string, region: Option<string>,
    lastStatus: string, lastCommit: Option<string>, lastDeployedAt: Option<string>)

  datatype Deploy = Deploy(
    id: string, targetId: string, commit: string, status: string, startedAt: string,
    finishedAt: Option<string>, packetId: Option<string>)

  datatype SourceRef = SourceRef(kind: string, ref: string)

  datatype Draft = Draft(
    id: string, targetId: string, commitRange: string, markdown: string,
    sourceRefs: seq<SourceRef>, generatedAt: string)

  type TargetMap = map<string, Target>

  /** `SessionReleaseState`, without the observations. */
  datatype Release = Release(targets: TargetMap, deploys: map<string, Deploy>, notes: map<string, Draft>)

  datatype Provider = NotWired | DryRun

  function IdleTarget(id: string, name: string, environment: string): Target {
    Target(id, name, environment, None, "idle", None, None)
  }

  const DEFAULT_TARGETS: TargetMap :=
    map["staging" := IdleTarget("staging", "Staging", "staging"), "prod" := IdleTarget("prod", "Production", "production")]

  function Seeded(targets: TargetMap): TargetMap { if targets == map[] then DEFAULT_TARGETS else targets }

  function Deployed(t: Target, d: Deploy): Target {
    t.(lastStatus := d.status, lastCommit := Some(d.commit),
       lastDeployedAt := if d.finishedAt.Some? then d.finishedAt else t.lastDeployedAt)
  }

  /** `apply_deploy`: the deploy is stored and its target, when known, shows it. */
  function ApplyDeploy(r: Release, d: Deploy): Release {
    Release(if d.targetId in r.targets then r.targets[d.targetId := Deployed(r.targets[d.targetId], d)] else r.targets,
            r.deploys[d.id := d], r.notes)
  }

  // ---- event payloads ----

  function DeployValue(d: Deploy): Value {
    VObj(map["deploy_id" := VStr(d.id), "target_id" := VStr(d.targetId), "commit" := VStr(d.commit),
             "status" := VStr(d.status), "started_at" := VStr(d.startedAt), "finished_at" := OptStr(d.finishedAt),
             "packet_id" := OptStr(d.packetId), "provider" := VStr("dry_run"), "dry_run" := VBool(true)])
  }

  function SourceRefValue(s: SourceRef): Value { VObj(map["kind" := VStr(s.kind), "ref_" := VStr(s.ref)]) }

  function SourceRefValues(ss: seq<SourceRef>): seq<Value> {
    if ss == [] then [] else [SourceRefValue(ss[0])] + SourceRefValues(ss[1..])
  }

  function DraftValue(d: Draft): Value {
    VObj(map["id" := VStr(d.id), "target_id" := VStr(d.targetId), "commit_range" := VStr(d.commitRange),
             "markdown" := VStr(d.markdown), "source_refs" := VArr(SourceRefValues(d.sourceRefs)),
             "generated_at" := VStr(d.generatedAt)])
  }

  /** `region`, `last_commit` and `last_deployed_at` are left out of the object when they are absent. */
  function TargetValue(t: Target): Value {
    VObj(map["id" := VStr(t.id), "label" := VStr(t.name), "environment" := VStr(t.environment),
             "last_status" := VStr(t.lastStatus)]
         + (if t.region.Some? then map["region" := VStr(t.region.value)] else map[])
         + (if t.lastCommit.Some? then map["last_commit" := VStr(t.lastCommit.value)] else map[])
         + (if t.lastDeployedAt.Some? then map["last_deployed_at" := VStr(t.lastDeployedAt.value)] else map[]))
  }

  function ParseDeploy(v: Value): Option<Deploy> {
    var id, targetId, commit := StrAt(v, "deploy_id"), StrAt(v, "target_id"), StrAt(v, "commit");
    var status, startedAt := StrAt(v, "status"), StrAt(v, "started_at");
    if id.None? || targetId.None? || commit.None? || status.None? || startedAt.None? then None
    else Some(Deploy(id.value, targetId.value, commit.value, status.value, startedAt.value,
                     StrAt(v, "finished_at"), StrAt(v, "packet_id")))
  }

  function ParseSourceRef(v: Value): Option<SourceRef> {
    var kind, ref := StrAt(v, "kind"), AsStr(GetEither(v, "ref", "ref_"));
    if kind.None? || ref.None? then None else Some(SourceRef(kind.value, ref.value))
  }

  function ParseSourceRefs(vs: seq<Value>): seq<SourceRef> {
    if vs == [] then []
    else (match ParseSourceRef(vs[0]) case Some(s) => [s] case None => []) + ParseSourceRefs(vs[1..])
  }

  function ParseDraft(v: Value): Option<Draft> {
    var id, targetId, range := StrAt(v, "id"), StrAt(v, "target_id"), StrAt(v, "commit_range");
    var markdown, generatedAt := StrAt(v, "markdown"), StrAt(v, "generated_at");
    if id.None? || targetId.None? || range.None? || markdown.None? || generatedAt.None? then None
    else Some(Draft(id.value, targetId.value, range.value, markdown.value,
                    ParseSourceRefs(OrDefault(AsArray(Get(v, "source_refs")), [])), generatedAt.value))
  }

  function ParseTarget(v: Value): Option<Target> {
    var id, name, environment := StrAt(v, "id"), StrAt(v, "label"), StrAt(v, "environment");
    if id.None? || name.None? || environment.None? then None
    else Some(Target(id.value, name.value, environment.value, StrAt(v, "region"),
                     OrDefault(AsStr(GetEither(v, "last_status", "lastStatus")), "idle"),
                     AsStr(GetEither(v, "last_commit", "lastCommit")),
                     AsStr(GetEither(v, "last_deployed_at", "lastDeployedAt"))))
  }

  lemma DeployTexts(d: Deploy)
    ensures var v := DeployValue(d);
      && StrAt(v, "deploy_id") == Some(d.id) && StrAt(v, "target_id") == Some(d.targetId)
      && StrAt(v, "commit") == Some(d.commit) && StrAt(v, "status") == Some(d.status)
  {}

  lemma DeployTimes(d: Deploy)
    ensures var v := DeployValue(d);
      && StrAt(v, "started_at") == Some(d.startedAt) && StrAt(v, "finished_at") == d.finishedAt
      && StrAt(v, "packet_id") == d.packetId
  {}

  lemma DeployReadsBack(d: Deploy)
    ensures ParseDeploy(DeployValue(d)) == Some(d)
  {
    DeployTexts(d);
    DeployTimes(d);
  }

  lemma {:induction false} SourceRefsReadBack(ss: seq<SourceRef>)
    ensures ParseSourceRefs(SourceRefValues(ss)) == ss
  {
    if ss != [] {
      SourceRefsReadBack(ss[1..]);
      assert ParseSourceRef(SourceRefValue(ss[0])) == Some(ss[0]);
    }
  }

  /** The draft's references are printed under `ref_`, the name the parser tries second. */
  lemma DraftReadsBack(d: Draft)
    ensures ParseDraft(DraftValue(d)) == Some(d)
  {
    SourceRefsReadBack(d.sourceRefs);
  }

  lemma TargetTexts(t: Target)
    ensures var v := TargetValue(t);
      && StrAt(v, "id") == Some(t.id) && StrAt(v, "label") == Some(t.name) && StrAt(v, "environment") == Some(t.environment)
      && AsStr(GetEither(v, "last_status", "lastStatus")) == Some(t.lastStatus)
  {}

  lemma TargetOptions(t: Target)
    ensures var v := TargetValue(t);
      && StrAt(v, "region") == t.region
      && AsStr(GetEither(v, "last_commit", "lastCommit")) == t.lastCommit
      && AsStr(GetEither(v, "last_deployed_at", "lastDeployedAt")) == t.lastDeployedAt
  {}

  lemma TargetReadsBack(t: Target)
    ensures ParseTarget(TargetValue(t)) == Some(t)
  {
    TargetTexts(t);
    TargetOptions(t);
  }

  // ---- replay ----

  function ParseTargets(vs: seq<Value>, into: TargetMap): TargetMap
    decreases |vs|
  {
    if vs == [] then into
    else ParseTargets(vs[1..], match ParseTarget(vs[0]) case Some(t) => into[t.id := t] case None => into)
  }

  /** The live targets, in the order of the default list. */
  function ListTargets(targets: TargetMap): seq<Target> {
    (if "staging" in targets then [targets["staging"]] else []) + (if "prod" in targets then [targets["prod"]] else [])
  }

  function TargetValues(ts: seq<Target>): seq<Value> {
    if ts == [] then [] else [TargetValue(ts[0])] + TargetValues(ts[1..])
  }

  function TargetsEvent(r: Release, provider: Provider): Event {
    Event("release.targets", VObj(map[
      "targets" := VArr(TargetValues(ListTargets(r.targets))),
      "provider" := VStr(if provider.DryRun? then "dry_run" else "not_wired")]))
  }

  function ReplayOne(r: Release, e: Event): Release {
    if e.kind == "release.targets" then
      match AsArray(Get(e.payload, "targets"))
      case Some(vs) => r.(targets := ParseTargets(vs, map[]))
      case None => r
    else if e.kind == "release.deploy_progress" then
      match ParseDeploy(e.payload) case Some(d) => ApplyDeploy(r, d) case None => r
    else if e.kind == "release.notes_draft" then
      match ParseDraft(e.payload) case Some(d) => r.(notes := r.notes[d.id := d]) case None => r
    else r
  }

  const FRESH := Release(DEFAULT_TARGETS, map[], map[])

  /** `SessionReleaseState::from_events`. */
  function ReleaseFrom(log: seq<Event>): Release {
    if log == [] then FRESH else ReplayOne(ReleaseFrom(log[..|log| - 1]), log[|log| - 1])
  }

  predicate StartsWith(s: string, prefix: string) { prefix <= s }

  function ReplayGate(gates: GateMap, e: Event, nowText: string): GateMap {
    if StartsWith(e.kind, "gate.") then
      match ParseSnapshot(e.payload, nowText) case Some(s) => gates[s.id := s] case None => gates
    else gates
  }

  /** `SessionGateState::from_events`. */
  function GatesFrom(log: seq<Event>, nowText: string): GateMap {
    if log == [] then map[] else ReplayGate(GatesFrom(log[..|log| - 1], nowText), log[|log| - 1], nowText)
  }

  method RestoreGates(log: seq<Event>, nowText: string) returns (gates: GateMap)
    ensures gates == GatesFrom(log, nowText)
  {
    gates := map[];
    for i := 0 to |log|
      invariant gates == GatesFrom(log[..i], nowText)
    {
      assert log[..i + 1][..i] == log[..i];
      var e := log[i];
      if StartsWith(e.kind, "gate.") {
        var snapshot := ParseSnapshot(e.payload, nowText);
        if snapshot.Some? { gates := gates[snapshot.value.id := snapshot.value]; }
      }
    }
    assert log[..|log|] == log;
  }

  method RestoreTargets(vs: seq<Value>) returns (targets: TargetMap)
    ensures targets == ParseTargets(vs, map[])
  {
    targets := map[];
    for i := 0 to |vs|
      invariant ParseTargets(vs[i..], targets) == ParseTargets(vs, map[])
    {
      assert vs[i..][0] == vs[i] && vs[i..][1..] == vs[i + 1..];
      var t := ParseTarget(vs[i]);
      if t.Some? { targets := targets[t.value.id := t.value]; }
    }
    assert vs[|vs|..] == [];
  }

  // ---- commands ----

  datatype Released = Released(release: Release, ack: Ack, event: Option<Event>, blockedBy: seq<string>)

  /** What a deploy or publish command brings along: the command, the git head, a fresh id and the time. */
  datatype Request = Request(payload: Value, provider: Provider, cmdId: string, head: Option<string>, ulid: string, now: int)

  function NewDeploy(clock: Clock, q: Request, id: string, targetId: string): Deploy {
    Deploy(id, targetId, OrDefault(q.head, "unknown"), "dry_run", clock.show(q.now), Some(clock.show(q.now)), Some(q.cmdId))
  }

  function Record(r: Release, d: Deploy): Released {
    Released(ApplyDeploy(r, d), Accepted, Some(Event("release.deploy_progress", DeployValue(d))), [])
  }

  /** A deploy or publish past the provider check: the target must exist and every required gate must hold. */
  function Guarded(clock: Clock, r: Release, gates: GateMap, q: Request, required: seq<string>, d: Deploy): Released
    requires d.targetId in r.targets
  {
    var missing := Missing(clock, gates, required, q.now);
    if missing != [] then Released(r, Refused("release.gate_not_ready"), None, missing) else Record(r, d)
  }

  function HandleDeployFor(clock: Clock, r: Release, gates: GateMap, q: Request): Released {
    match StrAt(q.payload, "target_id")
    case None => Released(r, Refused("release.target_not_found"), None, [])
    case Some(targetId) =>
      if q.provider.NotWired? then Released(r, Refused("release.provider_not_wired"), None, [])
      else
        var r := r.(targets := Seeded(r.targets));
        if targetId !in r.targets then Released(r, Refused("release.target_not_found"), None, [])
        else Guarded(clock, r, gates, q, RequiredGates(r.targets[targetId].environment),
                     NewDeploy(clock, q, "dep_" + q.ulid, targetId))
  }

  function HandlePublishFor(clock: Clock, r: Release, gates: GateMap, q: Request): Released {
    match StrAt(q.payload, "target_id")
    case None => Released(r, Refused("release.target_not_found"), None, [])
    case Some(targetId) =>
      if q.provider.NotWired? then Released(r, Refused("release.provider_not_wired"), None, [])
      else
        var r := r.(targets := Seeded(r.targets));
        if targetId !in r.targets then Released(r, Refused("release.target_not_found"), None, [])
        else Guarded(clock, r, gates, q, PUBLISH_GATES,
                     NewDeploy(clock, q, "pub_" + targetId + "_" + q.ulid, targetId))
  }

  function NewDraft(clock: Clock, q: Request, t: Target, targetId: string, previous: Option<string>): Draft {
    var head := OrDefault(q.head, "unknown");
    var baseline := if t.lastCommit.Some? then t.lastCommit.value else OrDefault(previous, head);
    var range := baseline + ".." + head;
    Draft("notes_" + targetId + "_" + q.ulid, targetId, range,
          "## What changed\n\n- Release notes draft for " + t.name + " (" + targetId
            + ")\n- Generated from the bridge release plane\n- Commit range: " + range + "\n",
          [SourceRef("commit", baseline), SourceRef("packet", "release:" + targetId)], clock.show(q.now))
  }

  function HandleNotesFor(clock: Clock, r: Release, q: Request, previous: Option<string>): Released {
    match StrAt(q.payload, "target_id")
    case None => Released(r, Refused("release.target_not_found"), None, [])
    case Some(targetId) =>
      var r := r.(targets := Seeded(r.targets));
      if targetId !in r.targets then Released(r, Refused("release.target_not_found"), None, [])
      else
        var d := NewDraft(clock, q, r.targets[targetId], targetId, previous);
        Released(r.(notes := r.notes[d.id := d]), Accepted, Some(Event("release.notes_draft", DraftValue(d))), [])
  }

  /** `SessionReleaseState` behind its lock. */
  class SessionRelease {
    var targets: TargetMap
    var deploys: map<string, Deploy>
    var notes: map<string, Draft>
    const clock: Clock

    ghost function State(): Release
      reads this
    {
      Release(targets, deploys, notes)
    }

    constructor (clock: Clock)
      ensures this.clock == clock && State() == FRESH
    {
      this.clock := clock;
      targets, deploys, notes := DEFAULT_TARGETS, map[], map[];
    }

    method SeedDefaultTargets()
      modifies this
      ensures State() == old(State()).(targets := Seeded(old(targets)))
    {
      if targets == map[] { targets := DEFAULT_TARGETS; }
    }

    method Store(d: Deploy)
      modifies this
      ensures State() == ApplyDeploy(old(State()), d)
    {
      deploys := deploys[d.id := d];
      if d.targetId in targets {
        var t := targets[d.targetId].(lastStatus := d.status, lastCommit := Some(d.commit));
        if d.finishedAt.Some? { t := t.(lastDeployedAt := d.finishedAt); }
        targets := targets[d.targetId := t];
      }
    }

    /** After the deploy is stored its target's fields are written once more. */
    method RecordDryRun(d: Deploy, ts: string) returns (event: Event)
      requires d.targetId in targets && d.finishedAt == Some(ts) && d.status == "dry_run"
      modifies this
      ensures State() == ApplyDeploy(old(State()), d)
      ensures event == Event("release.deploy_progress", DeployValue(d))
    {
      Store(d);
      var t := targets[d.targetId].(lastStatus := "dry_run", lastCommit := Some(d.commit), lastDeployedAt := Some(ts));
      targets := targets[d.targetId := t];
      event := Event("release.deploy_progress", DeployValue(d));
    }

    method HandleDeploy(gates: SessionGates, q: Request) returns (ack: Ack, event: Option<Event>, blockedBy: seq<string>)
      modifies this
      ensures Released(State(), ack, event, blockedBy) == HandleDeployFor(clock, old(State()), gates.gates, q)
    {
      var targetId := StrAt(q.payload, "target_id");
      if targetId.None? { return Refused("release.target_not_found"), None, []; }
      if q.provider == NotWired { return Refused("release.provider_not_wired"), None, []; }
      SeedDefaultTargets();
      if targetId.value !in targets { return Refused("release.target_not_found"), None, []; }
      var required := RequiredGates(targets[targetId.value].environment);
      var missing := Missing(clock, gates.gates, required, q.now);
      if missing != [] { return Refused("release.gate_not_ready"), None, missing; }
      var d := NewDeploy(clock, q, "dep_" + q.ulid, targetId.value);
      var e := RecordDryRun(d, clock.show(q.now));
      return Accepted, Some(e), [];
    }

    method HandlePublish(gates: SessionGates, q: Request) returns (ack: Ack, event: Option<Event>, blockedBy: seq<string>)
      modifies this
      ensures Released(State(), ack, event, blockedBy) == HandlePublishFor(clock, old(State()), gates.gates, q)
    {
      var targetId := StrAt(q.payload, "target_id");
      if targetId.None? { return Refused("release.target_not_found"), None, []; }
      if q.provider == NotWired { return Refused("release.provider_not_wired"), None, []; }
      SeedDefaultTargets();
      if targetId.value !in targets { return Refused("release.target_not_found"), None, []; }
      var missing := Missing(clock, gates.gates, PUBLISH_GATES, q.now);
      if missing != [] { return Refused("release.gate_not_ready"), None, missing; }
      var d := NewDeploy(clock, q, "pub_" + targetId.value + "_" + q.ulid, targetId.value);
      var e := RecordDryRun(d, clock.show(q.now));
      return Accepted, Some(e), [];
    }

    method HandleGenerateNotes(q: Request, previous: Option<string>) returns (ack: Ack, event: Option<Event>)
      modifies this
      ensures Released(State(), ack, event, []) == HandleNotesFor(clock, old(State()), q, previous)
    {
      var targetId := StrAt(q.payload, "target_id");
      if targetId.None? { return Refused("release.target_not_found"), None; }
      SeedDefaultTargets();
      if targetId.value !in targets { return Refused("release.target_not_found"), None; }
      var draft := NewDraft(clock, q, targets[targetId.value], targetId.value, previous);
      notes := notes[draft.id := draft];
      return Accepted, Some(Event("release.notes_draft", DraftValue(draft)));
    }

    method FromEvents(log: seq<Event>)
      modifies this
      ensures State() == ReleaseFrom(log)
    {
      targets, deploys, notes := DEFAULT_TARGETS, map[], map[];
      for i := 0 to |log|
        invariant State() == ReleaseFrom(log[..i])
      {
        assert log[..i + 1][..i] == log[..i];
        ReplayInto(log[i]);
      }
      assert log[..|log|] == log;
    }

    method ReplayInto(e: Event)
      modifies this
      ensures State() == ReplayOne(old(State()), e)
    {
      if e.kind == "release.targets" {
        var listed := AsArray(Get(e.payload, "targets"));
        if listed.Some? { targets := RestoreTargets(listed.value); }
      } else if e.kind == "release.deploy_progress" {
        var d := ParseDeploy(e.payload);
        if d.Some? { Store(d.value); }
      } else if e.kind == "release.notes_draft" {
        var d := ParseDraft(e.payload);
        if d.Some? { notes := notes[d.value.id := d.value]; }
      }
    }
  }
}
