/** Whole runs of gate and release commands over one session: replay, and what a recorded deploy implies. */
module ReleaseRuns {
  import opened Clocks
  import opened Gates
  import opened Releases
  import opened JsonValue
  import opened Wrappers

  datatype Call =
    | GateCall(kind: Kind, payload: Value, principal: Option<string>, now: int)
    | DeployCall(q: Request)
    | PublishCall(q: Request)
    | NotesCall(q: Request, previous: Option<string>)
    | ListCall(provider: Provider)

  /** One session: both maps, and every event emitted so far. */
  datatype Session = Session(gates: GateMap, release: Release, log: seq<Event>)

  const EMPTY := Session(map[], FRESH, [])

  function Emitted(log: seq<Event>, e: Option<Event>): seq<Event> { if e.Some? then log + [e.value] else log }

  function Outcome(clock: Clock, s: Session, c: Call): Released
    requires c.DeployCall? || c.PublishCall? || c.NotesCall?
  {
    match c
    case DeployCall(q) => HandleDeployFor(clock, s.release, s.gates, q)
    case PublishCall(q) => HandlePublishFor(clock, s.release, s.gates, q)
    case NotesCall(q, previous) => HandleNotesFor(clock, s.release, q, previous)
  }

  /** A command that only lists the targets answers its caller and records nothing. */
  function Step(clock: Clock, s: Session, c: Call): Session {
    match c
    case GateCall(kind, payload, principal, now) =>
      var h := Handle(clock, s.gates, kind, payload, principal, now);
      Session(h.gates, s.release, Emitted(s.log, h.event))
    case ListCall(_) => s
    case _ =>
      var o := Outcome(clock, s, c);
      Session(s.gates, o.release, Emitted(s.log, o.event))
  }

  function Run(clock: Clock, calls: seq<Call>): Session {
    if calls == [] then EMPTY else Step(clock, Run(clock, calls[..|calls| - 1]), calls[|calls| - 1])
  }

  // ---- replaying the emitted events rebuilds the live state ----

  ghost predicate TargetsKnown(targets: TargetMap) {
    && targets.Keys == {"staging", "prod"}
    && targets["staging"].id == "staging" && targets["staging"].environment == "staging"
    && targets["prod"].id == "prod" && targets["prod"].environment == "production"
  }

  ghost predicate SmallGates(gates: GateMap) { forall g :: g in gates ==> gates[g].id == g && gates[g].requiredSigners <= 2 }

  ghost predicate Replayable(s: Session, nowText: string) {
    && GatesFrom(s.log, nowText) == s.gates
    && ReleaseFrom(s.log) == s.release
    && TargetsKnown(s.release.targets)
    && SmallGates(s.gates)
  }

  lemma AppendGate(log: seq<Event>, s: Snapshot, nowText: string)
    requires s.requiredSigners <= 2
    ensures GatesFrom(log + [GateEvent(s)], nowText) == GatesFrom(log, nowText)[s.id := s]
    ensures ReleaseFrom(log + [GateEvent(s)]) == ReleaseFrom(log)
  {
    var longer := log + [GateEvent(s)];
    assert longer[..|longer| - 1] == log;
    SnapshotReadsBack(s, nowText);
    assert StartsWith("gate.changed", "gate.");
  }

  lemma AppendRelease(log: seq<Event>, e: Event, nowText: string)
    requires e.kind == "release.deploy_progress" || e.kind == "release.notes_draft"
    ensures GatesFrom(log + [e], nowText) == GatesFrom(log, nowText)
    ensures ReleaseFrom(log + [e]) == ReplayOne(ReleaseFrom(log), e)
  {
    var longer := log + [e];
    assert longer[..|longer| - 1] == log;
    assert e.kind[0] != "gate."[0];
  }

  lemma AppliedKeepsId(clock: Clock, s: Snapshot, act: Act, now: int)
    ensures Apply(clock, s, act, now).id == s.id
    ensures Apply(clock, s, act, now).requiredSigners == s.requiredSigners
  {}

  lemma StoredReplays(s: Session, after: Snapshot, nowText: string)
    requires Replayable(s, nowText) && after.requiredSigners <= 2
    ensures Replayable(Session(s.gates[after.id := after], s.release, s.log + [GateEvent(after)]), nowText)
  {
    AppendGate(s.log, after, nowText);
  }

  lemma GateStepReplays(clock: Clock, s: Session, c: Call, nowText: string)
    requires c.GateCall? && Replayable(s, nowText)
    ensures Replayable(Step(clock, s, c), nowText)
  {
    var d := Decide(clock, c.kind, c.payload, c.principal, c.now);
    if d.Ok? {
      var id, act := d.value.gate, d.value.act;
      var before := SnapshotOf(clock, s.gates, id, c.now);
      var after := Apply(clock, before, act, c.now);
      DefaultFits(clock, id, c.now);
      AppliedKeepsId(clock, before, act, c.now);
      StoredReplays(s, after, nowText);
    }
  }

  lemma DefaultFits(clock: Clock, id: string, now: int)
    ensures DefaultSnapshot(clock, id, now).id == id && DefaultSnapshot(clock, id, now).requiredSigners <= 2
  {}

  lemma RecordReplays(s: Session, d: Deploy, nowText: string)
    requires Replayable(s, nowText)
    ensures var r := Record(s.release, d);
      Replayable(Session(s.gates, r.release, Emitted(s.log, r.event)), nowText)
  {
    AppendRelease(s.log, Event("release.deploy_progress", DeployValue(d)), nowText);
    DeployReadsBack(d);
  }

  /** A guarded command that is accepted stores one deploy and emits it; any other leaves the session alone. */
  lemma DeployOrNothing(clock: Clock, s: Session, c: Call) returns (d: Deploy)
    requires (c.DeployCall? || c.PublishCall?) && TargetsKnown(s.release.targets)
    ensures var o := Outcome(clock, s, c);
      if o.ack.Accepted? then o == Record(s.release, d) && DeploysHead(clock, c, d)
      else o.release == s.release && o.event.None?
  {
    var id := OrDefault(StrAt(c.q.payload, "target_id"), "");
    d := NewDeploy(clock, c.q, if c.DeployCall? then "dep_" + c.q.ulid else "pub_" + id + "_" + c.q.ulid, id);
    assert Seeded(s.release.targets) == s.release.targets;
  }

  lemma ReleaseStepReplays(clock: Clock, s: Session, c: Call, nowText: string)
    requires c.DeployCall? || c.PublishCall?
    requires Replayable(s, nowText)
    ensures Replayable(Step(clock, s, c), nowText)
  {
    var d := DeployOrNothing(clock, s, c);
    RecordReplays(s, d, nowText);
  }

  lemma DraftReplays(s: Session, d: Draft, nowText: string)
    requires Replayable(s, nowText)
    ensures Replayable(Session(s.gates, s.release.(notes := s.release.notes[d.id := d]),
                               s.log + [Event("release.notes_draft", DraftValue(d))]), nowText)
  {
    AppendRelease(s.log, Event("release.notes_draft", DraftValue(d)), nowText);
    DraftReadsBack(d);
  }

  lemma NotesStepReplays(clock: Clock, s: Session, c: Call, nowText: string)
    requires c.NotesCall? && Replayable(s, nowText)
    ensures Replayable(Step(clock, s, c), nowText)
  {
    assert Seeded(s.release.targets) == s.release.targets;
    var id := StrAt(c.q.payload, "target_id");
    if id.Some? && id.value in s.release.targets {
      DraftReplays(s, NewDraft(clock, c.q, s.release.targets[id.value], id.value, c.previous), nowText);
    }
  }

  lemma {:induction false} RunReplays(clock: Clock, calls: seq<Call>, nowText: string)
    ensures Replayable(Run(clock, calls), nowText)
  {
    if calls != [] {
      var before, c := calls[..|calls| - 1], calls[|calls| - 1];
      RunReplays(clock, before, nowText);
      var s := Run(clock, before);
      if c.GateCall? {
        GateStepReplays(clock, s, c, nowText);
      } else if c.DeployCall? || c.PublishCall? {
        ReleaseStepReplays(clock, s, c, nowText);
      } else if c.NotesCall? {
        NotesStepReplays(clock, s, c, nowText);
      }
    }
  }

  /**
   * For every sequence of commands, replaying the emitted events gives back exactly the live gates, targets,
   * deploys and notes; and the answer of a target listing, were it recorded too, would change nothing.
   */
  lemma {:induction false} ReplayRebuilds(clock: Clock, calls: seq<Call>, nowText: string, provider: Provider)
    ensures var s := Run(clock, calls);
      && GatesFrom(s.log, nowText) == s.gates
      && ReleaseFrom(s.log) == s.release
      && ReplayOne(s.release, TargetsEvent(s.release, provider)) == s.release
  {
    RunReplays(clock, calls, nowText);
    ListingChangesNothing(Run(clock, calls).release, provider);
  }

  lemma TwoTargetsReadBack(a: Target, b: Target)
    ensures ParseTargets(TargetValues([a, b]), map[]) == map[][a.id := a][b.id := b]
  {
    TargetReadsBack(a);
    TargetReadsBack(b);
    assert [a, b][1..] == [b] && [b][1..] == [];
    assert TargetValues([b]) == [TargetValue(b)];
    var vs := TargetValues([a, b]);
    assert vs == [TargetValue(a)] + [TargetValue(b)];
    assert vs[1..] == [TargetValue(b)] && vs[1..][1..] == [];
    var first: TargetMap := map[][a.id := a];
    assert ParseTargets(vs, map[]) == ParseTargets(vs[1..], first);
    assert ParseTargets(vs[1..], first) == ParseTargets(vs[1..][1..], first[b.id := b]);
  }

  lemma ListedValues(r: Release, provider: Provider)
    ensures AsArray(Get(TargetsEvent(r, provider).payload, "targets")) == Some(TargetValues(ListTargets(r.targets)))
  {}

  lemma ListingChangesNothing(r: Release, provider: Provider)
    requires TargetsKnown(r.targets)
    ensures ReplayOne(r, TargetsEvent(r, provider)) == r
  {
    var a, b := r.targets["staging"], r.targets["prod"];
    ListedValues(r, provider);
    assert ListTargets(r.targets) == [a, b];
    TwoTargetsReadBack(a, b);
    assert r.targets == map[]["staging" := a]["prod" := b];
  }

  // ---- what the accepted gate commands say about a gate ----

  /** An accepted gate command: the gate, what it does there, and when. */
  datatype Deed = Deed(gate: string, act: Act, now: int)

  function DeedOf(clock: Clock, c: Call): Option<Deed> {
    if c.GateCall? then
      match Decide(clock, c.kind, c.payload, c.principal, c.now)
      case Ok(Action(gate, act)) => Some(Deed(gate, act, c.now))
      case Err(_) => None
    else None
  }

  /** The accepted gate commands of a run, in order. */
  function Deeds(clock: Clock, h: seq<Call>): seq<Deed> {
    if h == [] then []
    else
      var before, d := Deeds(clock, h[..|h| - 1]), DeedOf(clock, h[|h| - 1]);
      if d.Some? then before + [d.value] else before
  }

  predicate Touched(ds: seq<Deed>, g: string) { exists i :: 0 <= i < |ds| && ds[i].gate == g }

  /** Everyone with an accepted sign-off on `g`. */
  function SignedBy(ds: seq<Deed>, g: string): set<string> {
    set i | 0 <= i < |ds| && ds[i].gate == g && ds[i].act.Sign? :: ds[i].act.name
  }

  /** The instant the recorded text of an override's end reads back as; none when it does not read back at all. */
  function EndOf(clock: Clock, until: int): Option<int> { clock.parse(clock.show(until)) }

  /** As recorded, the override has not ended. For an end whose text reads back to it this is `until > now`. */
  predicate Unexpired(clock: Clock, until: int, now: int) {
    EndOf(clock, until).Some? && EndOf(clock, until).value > now
  }

  predicate HasEnded(clock: Clock, until: int, now: int) {
    EndOf(clock, until).Some? && EndOf(clock, until).value <= now
  }

  function Expire(clock: Clock, standing: Option<int>, now: int): Option<int> {
    if standing.Some? && HasEnded(clock, standing.value, now) then None else standing
  }

  /** The audit gate keeps its override through anything but an evaluation or a revocation. */
  function NextStanding(clock: Clock, g: string, standing: Option<int>, act: Act, now: int): Option<int> {
    match act
    case Cover(_, until) => if g == MUTATION_AUDIT then Some(until) else Expire(clock, Some(until), now)
    case Uncover => None
    case Look => Expire(clock, standing, now)
    case Sign(_) => if g == MUTATION_AUDIT then standing else Expire(clock, standing, now)
    case Report(_) => standing
  }

  /** The end of the override on record: set, revoked, or dropped by a later command that finds it expired. */
  function Standing(clock: Clock, ds: seq<Deed>, g: string): Option<int> {
    if ds == [] then None
    else
      var d, before := ds[|ds| - 1], Standing(clock, ds[..|ds| - 1], g);
      if d.gate == g then NextStanding(clock, g, before, d.act, d.now) else before
  }

  /** The blocking mutations last reported; none were if nothing was reported. */
  function LastReport(ds: seq<Deed>): nat {
    if ds == [] then 0
    else if ds[|ds| - 1].act.Report? then ds[|ds| - 1].act.count
    else LastReport(ds[..|ds| - 1])
  }

  /**
   * A required gate is met: some command looked at it, and either the override on record is unexpired, or there
   * is none and the gate is met on its own.
   */
  predicate Met(clock: Clock, ds: seq<Deed>, g: string, now: int) {
    && Touched(ds, g)
    && match Standing(clock, ds, g)
       case Some(until) => Unexpired(clock, until, now)
       case None => if g == MUTATION_AUDIT then LastReport(ds) == 0 else |SignedBy(ds, g)| >= RequiredFor(g)
  }

  // ---- the snapshots agree with the commands ----

  ghost predicate Agrees(clock: Clock, g: string, s: Snapshot, standing: Option<int>, signed: set<string>, report: nat) {
    && s.id == g && s.requiredSigners == RequiredFor(g)
    && s.overridden == standing.Some?
    && s.overrideExpiresAt == (if standing.Some? then Some(clock.show(standing.value)) else None)
    && Names(s.signers) == signed && |s.signers| == |signed|
    && (s.state == "pass" <==>
        if g == MUTATION_AUDIT then report == 0 else standing.Some? || |signed| >= RequiredFor(g))
  }

  lemma DefaultAgrees(clock: Clock, g: string, now: int)
    ensures Agrees(clock, g, DefaultSnapshot(clock, g, now), None, {}, 0)
  {}

  lemma NamesGrow(ss: seq<Signer>, name: string, at: string)
    ensures Names(ss + [Signer(name, at)]) == Names(ss) + {name}
  {
    var longer := ss + [Signer(name, at)];
    assert longer[|ss|].name == name;
    forall n | n in Names(ss) ensures n in Names(longer) {
      var i :| 0 <= i < |ss| && ss[i].name == n;
      assert longer[i].name == n;
    }
  }

  lemma LookAgrees(clock: Clock, g: string, s: Snapshot, standing: Option<int>, signed: set<string>, report: nat, now: int)
    requires Agrees(clock, g, s, standing, signed, report)
    ensures Agrees(clock, g, Apply(clock, s, Look, now), Expire(clock, standing, now), signed, report)
  {}

  lemma TouchAgrees(clock: Clock, g: string, s: Snapshot, standing: Option<int>, signed: set<string>, now: int)
    requires g != MUTATION_AUDIT
    requires s.id == g && s.requiredSigners == RequiredFor(g) && s.overridden == standing.Some?
    requires s.overrideExpiresAt == (if standing.Some? then Some(clock.show(standing.value)) else None)
    requires Names(s.signers) == signed && |s.signers| == |signed|
    ensures Agrees(clock, g, Touch(clock, s, now), Expire(clock, standing, now), signed, 0)
  {}

  lemma AddedNames(s: Snapshot, name: string, at: string)
    requires |s.signers| == |Names(s.signers)|
    ensures Names(AddSigner(s, name, at).signers) == Names(s.signers) + {name}
    ensures |AddSigner(s, name, at).signers| == |Names(s.signers) + {name}|
  {
    NamesGrow(s.signers, name, at);
    if name in Names(s.signers) { assert Names(s.signers) + {name} == Names(s.signers); }
  }

  lemma SignAgrees(clock: Clock, g: string, s: Snapshot, standing: Option<int>, signed: set<string>, report: nat,
                   name: string, now: int)
    requires Agrees(clock, g, s, standing, signed, report)
    ensures Agrees(clock, g, Apply(clock, s, Sign(name), now), NextStanding(clock, g, standing, Sign(name), now), signed + {name}, report)
  {
    AddedNames(s, name, clock.show(now));
    if g != MUTATION_AUDIT { TouchAgrees(clock, g, AddSigner(s, name, clock.show(now)), standing, signed + {name}, now); }
  }

  lemma CoverAgrees(clock: Clock, g: string, s: Snapshot, standing: Option<int>, signed: set<string>, report: nat,
                    reason: string, until: int, now: int)
    requires Agrees(clock, g, s, standing, signed, report)
    ensures Agrees(clock, g, Apply(clock, s, Cover(reason, until), now),
                   NextStanding(clock, g, standing, Cover(reason, until), now), signed, report)
  {
    if g != MUTATION_AUDIT { TouchAgrees(clock, g, SetOverride(s, reason, clock.show(until)), Some(until), signed, now); }
  }

  lemma UncoverAgrees(clock: Clock, g: string, s: Snapshot, standing: Option<int>, signed: set<string>, report: nat, now: int)
    requires Agrees(clock, g, s, standing, signed, report)
    ensures Agrees(clock, g, Apply(clock, s, Uncover, now), None, signed, report)
  {
    if g != MUTATION_AUDIT { TouchAgrees(clock, g, ClearOverride(s), None, signed, now); }
  }

  lemma ReportAgrees(clock: Clock, s: Snapshot, standing: Option<int>, signed: set<string>, report: nat, count: nat, now: int)
    requires Agrees(clock, MUTATION_AUDIT, s, standing, signed, report)
    ensures Agrees(clock, MUTATION_AUDIT, Apply(clock, s, Report(count), now), standing, signed, count)
  {}

  ghost predicate GateAgrees(clock: Clock, ds: seq<Deed>, gates: GateMap, g: string) {
    && (g in gates <==> Touched(ds, g))
    && (g in gates ==> Agrees(clock, g, gates[g], Standing(clock, ds, g), SignedBy(ds, g), LastReport(ds)))
    && (g !in gates ==> Standing(clock, ds, g).None? && SignedBy(ds, g) == {} && (g == MUTATION_AUDIT ==> LastReport(ds) == 0))
  }

  lemma OneMore(clock: Clock, ds: seq<Deed>, d: Deed, g: string)
    ensures Touched(ds + [d], g) <==> Touched(ds, g) || d.gate == g
    ensures SignedBy(ds + [d], g) == SignedBy(ds, g) + if d.gate == g && d.act.Sign? then {d.act.name} else {}
    ensures Standing(clock, ds + [d], g)
         == if d.gate == g then NextStanding(clock, g, Standing(clock, ds, g), d.act, d.now) else Standing(clock, ds, g)
    ensures LastReport(ds + [d]) == if d.act.Report? then d.act.count else LastReport(ds)
  {
    var longer := ds + [d];
    assert longer[..|longer| - 1] == ds && longer[|ds|] == d;
    forall n ensures n in SignedBy(longer, g)
      <==> n in SignedBy(ds, g) + if d.gate == g && d.act.Sign? then {d.act.name} else {}
    {
      if n in SignedBy(ds, g) {
        var i :| 0 <= i < |ds| && ds[i].gate == g && ds[i].act.Sign? && ds[i].act.name == n;
        assert longer[i].act.name == n;
      }
    }
    assert forall i :: 0 <= i < |ds| ==> longer[i] == ds[i];
  }

  /** Only the audit gate takes reports. */
  predicate Sound(d: Deed) { d.act.Report? ==> d.gate == MUTATION_AUDIT }

  lemma AcceptedIsSound(clock: Clock, c: Call)
    requires DeedOf(clock, c).Some?
    ensures Sound(DeedOf(clock, c).value)
  {}

  lemma ActAgrees(clock: Clock, g: string, s: Snapshot, standing: Option<int>, signed: set<string>, report: nat,
                  act: Act, now: int)
    requires Agrees(clock, g, s, standing, signed, report)
    requires act.Report? ==> g == MUTATION_AUDIT
    ensures Agrees(clock, g, Apply(clock, s, act, now), NextStanding(clock, g, standing, act, now),
                   signed + (if act.Sign? then {act.name} else {}), if act.Report? then act.count else report)
  {
    assert signed + {} == signed;
    match act
    case Look => LookAgrees(clock, g, s, standing, signed, report, now);
    case Sign(name) => SignAgrees(clock, g, s, standing, signed, report, name, now);
    case Cover(reason, until) => CoverAgrees(clock, g, s, standing, signed, report, reason, until, now);
    case Uncover => UncoverAgrees(clock, g, s, standing, signed, report, now);
    case Report(count) => ReportAgrees(clock, s, standing, signed, report, count, now);
  }

  function Done(clock: Clock, gates: GateMap, d: Deed): GateMap {
    gates[d.gate := Apply(clock, SnapshotOf(clock, gates, d.gate, d.now), d.act, d.now)]
  }

  lemma DeedAgrees(clock: Clock, ds: seq<Deed>, gates: GateMap, d: Deed, g: string)
    requires Sound(d) && GateAgrees(clock, ds, gates, g)
    ensures GateAgrees(clock, ds + [d], Done(clock, gates, d), g)
  {
    OneMore(clock, ds, d, g);
    if d.gate == g {
      DefaultAgrees(clock, g, d.now);
      ActAgrees(clock, g, SnapshotOf(clock, gates, g, d.now), Standing(clock, ds, g), SignedBy(ds, g), LastReport(ds), d.act, d.now);
    }
  }

  lemma GatesAfter(clock: Clock, s: Session, c: Call)
    ensures Step(clock, s, c).gates
         == if DeedOf(clock, c).Some? then Done(clock, s.gates, DeedOf(clock, c).value) else s.gates
  {}

  /** At every point of every run each live snapshot says what the accepted commands so far say about its gate. */
  lemma {:induction false} RunAgrees(clock: Clock, h: seq<Call>, g: string)
    ensures GateAgrees(clock, Deeds(clock, h), Run(clock, h).gates, g)
  {
    if h != [] {
      var before, c := h[..|h| - 1], h[|h| - 1];
      RunAgrees(clock, before, g);
      GatesAfter(clock, Run(clock, before), c);
      if DeedOf(clock, c).Some? {
        AcceptedIsSound(clock, c);
        DeedAgrees(clock, Deeds(clock, before), Run(clock, before).gates, DeedOf(clock, c).value, g);
      }
    }
  }

  lemma HoldsIffMet(clock: Clock, h: seq<Call>, g: string, now: int)
    ensures Holds(clock, Run(clock, h).gates, g, now) <==> Met(clock, Deeds(clock, h), g, now)
  {
    RunAgrees(clock, h, g);
  }

  // ---- deploys ----

  predicate AllMet(clock: Clock, ds: seq<Deed>, required: seq<string>, now: int) {
    forall g :: g in required ==> Met(clock, ds, g, now)
  }

  lemma MissingIffUnmet(clock: Clock, h: seq<Call>, required: seq<string>, now: int)
    ensures var missing, ds := Missing(clock, Run(clock, h).gates, required, now), Deeds(clock, h);
      && (forall g :: g in missing <==> g in required && !Met(clock, ds, g, now))
      && (missing == [] <==> AllMet(clock, ds, required, now))
  {
    var missing := Missing(clock, Run(clock, h).gates, required, now);
    forall g ensures g in missing <==> g in required && !Met(clock, Deeds(clock, h), g, now) { HoldsIffMet(clock, h, g, now); }
    assert missing != [] ==> missing[0] in missing;
  }

  /** The gates a guarded command needs: four before staging, three before production, one to publish. */
  function RequiredBy(c: Call): seq<string>
    requires c.DeployCall? || c.PublishCall?
  {
    if c.PublishCall? then ["ReadyToPublish"]
    else if StrAt(c.q.payload, "target_id") == Some("staging")
    then ["DevComplete", "ReadyToDeploy", "ReadyForStaging", "MutationAuditClean"]
    else ["DevComplete", "ReadyToDeploy", "MutationAuditClean"]
  }

  predicate WellAddressed(c: Call)
    requires c.DeployCall? || c.PublishCall?
  {
    && c.q.provider.DryRun?
    && (StrAt(c.q.payload, "target_id") == Some("staging") || StrAt(c.q.payload, "target_id") == Some("prod"))
  }

  function RecordId(c: Call): string
    requires c.DeployCall? || c.PublishCall?
  {
    if c.DeployCall? then "dep_" + c.q.ulid
    else "pub_" + OrDefault(StrAt(c.q.payload, "target_id"), "") + "_" + c.q.ulid
  }

  /** The command's outcome says what the missing gates say, and a record adds one deploy. */
  ghost predicate GuardedBy(o: Released, before: Release, c: Call, missing: seq<string>)
    requires c.DeployCall? || c.PublishCall?
  {
    && (o.ack.Accepted? <==> WellAddressed(c) && missing == [])
    && (WellAddressed(c) ==> o.blockedBy == missing)
    && (!o.ack.Accepted? ==> o.event.None? && o.release == before)
    && (o.ack.Accepted? ==> o.release.deploys.Keys == before.deploys.Keys + {RecordId(c)})
  }

  lemma DeployGuarded(clock: Clock, s: Session, c: Call)
    requires c.DeployCall? && TargetsKnown(s.release.targets)
    ensures GuardedBy(HandleDeployFor(clock, s.release, s.gates, c.q), s.release, c,
                      Missing(clock, s.gates, RequiredBy(c), c.q.now))
  {
    var id := StrAt(c.q.payload, "target_id");
    assert Seeded(s.release.targets) == s.release.targets;
    if WellAddressed(c) {
      assert RequiredGates(s.release.targets[id.value].environment) == RequiredBy(c);
    } else {
      assert id.Some? && c.q.provider.DryRun? ==> id.value !in s.release.targets;
    }
  }

  lemma PublishGuarded(clock: Clock, s: Session, c: Call)
    requires c.PublishCall? && TargetsKnown(s.release.targets)
    ensures GuardedBy(HandlePublishFor(clock, s.release, s.gates, c.q), s.release, c,
                      Missing(clock, s.gates, RequiredBy(c), c.q.now))
  {
    var id := StrAt(c.q.payload, "target_id");
    assert Seeded(s.release.targets) == s.release.targets;
    assert !WellAddressed(c) && id.Some? && c.q.provider.DryRun? ==> id.value !in s.release.targets;
  }

  lemma GuardedOutcome(clock: Clock, s: Session, c: Call)
    requires (c.DeployCall? || c.PublishCall?) && TargetsKnown(s.release.targets)
    ensures GuardedBy(Outcome(clock, s, c), s.release, c, Missing(clock, s.gates, RequiredBy(c), c.q.now))
  {
    if c.DeployCall? { DeployGuarded(clock, s, c); } else { PublishGuarded(clock, s, c); }
  }

  /**
   * For every run: a deploy or publish is recorded exactly when the provider is the dry run, the target exists and
   * every required gate is met by the commands before it; otherwise it names exactly the unmet gates.
   */
  lemma {:induction false} RecordedIffMet(clock: Clock, h: seq<Call>, c: Call)
    requires (c.DeployCall? || c.PublishCall?)
    ensures var o, ds := Outcome(clock, Run(clock, h), c), Deeds(clock, h);
      && (o.ack.Accepted? <==> WellAddressed(c) && AllMet(clock, ds, RequiredBy(c), c.q.now))
      && (WellAddressed(c) ==> forall g :: g in o.blockedBy <==> g in RequiredBy(c) && !Met(clock, ds, g, c.q.now))
      && (!o.ack.Accepted? ==> o.event.None? && o.release == Run(clock, h).release)
  {
    RunReplays(clock, h, "");
    MissingIffUnmet(clock, h, RequiredBy(c), c.q.now);
    GuardedOutcome(clock, Run(clock, h), c);
  }

  /** The target named by a recorded command shows that deploy, and every other target is as it was. */
  ghost predicate Shows(before: TargetMap, after: TargetMap, id: string, d: Deploy) {
    && after.Keys == before.Keys && id in before
    && after[id].lastStatus == d.status && after[id].lastCommit == Some(d.commit) && after[id].lastDeployedAt == d.finishedAt
    && after[id].id == before[id].id && after[id].environment == before[id].environment && after[id].name == before[id].name
    && forall other :: other in before && other != id ==> after[other] == before[other]
  }

  /** What was deployed, from the request alone: the git head or "unknown", now, for this command. */
  ghost predicate DeploysHead(clock: Clock, c: Call, d: Deploy)
    requires c.DeployCall? || c.PublishCall?
  {
    && d.id == RecordId(c) && Some(d.targetId) == StrAt(c.q.payload, "target_id")
    && d.commit == OrDefault(c.q.head, "unknown") && d.status == "dry_run"
    && d.startedAt == clock.show(c.q.now) && d.finishedAt == Some(d.startedAt) && d.packetId == Some(c.q.cmdId)
  }

  /** One deploy was recorded: stored under its id, shown on its target alone, and readable from the one new event. */
  ghost predicate RecordShown(clock: Clock, c: Call, s: Session, t: Session)
    requires c.DeployCall? || c.PublishCall?
  {
    && |t.log| == |s.log| + 1 && t.log[..|s.log|] == s.log && ParseDeploy(t.log[|s.log|].payload).Some?
    && var d := ParseDeploy(t.log[|s.log|].payload).value;
       && DeploysHead(clock, c, d)
       && t.release.deploys == s.release.deploys[d.id := d]
       && Shows(s.release.targets, t.release.targets, d.targetId, d)
       && t.gates == s.gates && t.release.notes == s.release.notes
  }

  lemma RecordOnTarget(r: Release, d: Deploy)
    requires d.targetId in r.targets && d.finishedAt.Some?
    ensures Shows(r.targets, Record(r, d).release.targets, d.targetId, d)
  {}

  lemma StepShows(clock: Clock, s: Session, c: Call)
    requires c.DeployCall? || c.PublishCall?
    requires TargetsKnown(s.release.targets) && Outcome(clock, s, c).ack.Accepted?
    ensures RecordShown(clock, c, s, Step(clock, s, c))
  {
    var d := DeployOrNothing(clock, s, c);
    GuardedOutcome(clock, s, c);
    RecordOnTarget(s.release, d);
    DeployReadsBack(d);
  }

  /** For every run, a deploy or publish that is accepted is recorded and shown. */
  lemma {:induction false} RecordedIsShown(clock: Clock, h: seq<Call>, c: Call)
    requires (c.DeployCall? || c.PublishCall?) && Outcome(clock, Run(clock, h), c).ack.Accepted?
    ensures RecordShown(clock, c, Run(clock, h), Run(clock, h + [c]))
  {
    assert (h + [c])[..|h|] == h;
    RunReplays(clock, h, "");
    StepShows(clock, Run(clock, h), c);
  }

  /** The command at `i` recorded the deploy, and at that moment every gate it requires was met. */
  ghost predicate RecordedAt(clock: Clock, h: seq<Call>, i: nat, id: string)
    requires i < |h|
  {
    && (h[i].DeployCall? || h[i].PublishCall?)
    && WellAddressed(h[i]) && id == RecordId(h[i])
    && AllMet(clock, Deeds(clock, h[..i]), RequiredBy(h[i]), h[i].q.now)
  }

  ghost predicate Justified(clock: Clock, h: seq<Call>, id: string) {
    exists i: nat :: i < |h| && RecordedAt(clock, h, i, id)
  }

  lemma JustifiedLonger(clock: Clock, h: seq<Call>, c: Call, id: string)
    requires Justified(clock, h, id)
    ensures Justified(clock, h + [c], id)
  {
    var i: nat :| i < |h| && RecordedAt(clock, h, i, id);
    var longer := h + [c];
    assert longer[i] == h[i] && longer[..i] == h[..i];
    assert RecordedAt(clock, longer, i, id);
  }

  lemma DeploysAfter(clock: Clock, s: Session, c: Call, id: string)
    requires TargetsKnown(s.release.targets) && id in Step(clock, s, c).release.deploys && id !in s.release.deploys
    ensures (c.DeployCall? || c.PublishCall?) && Outcome(clock, s, c).ack.Accepted? && id == RecordId(c)
  {
    if c.DeployCall? || c.PublishCall? { GuardedOutcome(clock, s, c); }
  }

  /** Every deploy on record in any run was justified when it was recorded. */
  lemma {:induction false} EveryDeployJustified(clock: Clock, h: seq<Call>, id: string)
    requires id in Run(clock, h).release.deploys
    ensures Justified(clock, h, id)
  {
    if h != [] {
      var before, c := h[..|h| - 1], h[|h| - 1];
      assert h == before + [c];
      if id in Run(clock, before).release.deploys {
        EveryDeployJustified(clock, before, id);
        JustifiedLonger(clock, before, c, id);
      } else {
        RunReplays(clock, before, "");
        DeploysAfter(clock, Run(clock, before), c, id);
        RecordedIffMet(clock, before, c);
        assert h[|before|] == c && h[..|before|] == before;
        assert RecordedAt(clock, h, |before|, id);
      }
    }
  }

  // ---- what being met says about single commands ----

  /** The deed at `i` is the override, and no later one replaced or revoked it. */
  ghost predicate StandsSince(ds: seq<Deed>, g: string, until: int, i: nat) {
    && i < |ds| && ds[i].gate == g && ds[i].act.Cover? && ds[i].act.until == until
    && forall j :: i < j < |ds| && ds[j].gate == g ==> !ds[j].act.Cover? && !ds[j].act.Uncover?
  }

  lemma {:induction false} StandingWasGranted(clock: Clock, ds: seq<Deed>, g: string)
    requires Standing(clock, ds, g).Some?
    ensures exists i: nat :: StandsSince(ds, g, Standing(clock, ds, g).value, i)
  {
    var before, d := ds[..|ds| - 1], ds[|ds| - 1];
    var until := Standing(clock, ds, g).value;
    if d.gate == g && d.act.Cover? {
      assert StandsSince(ds, g, until, |before|);
    } else {
      StandingWasGranted(clock, before, g);
      var i: nat :| StandsSince(before, g, until, i);
      assert forall j :: 0 <= j < |before| ==> ds[j] == before[j];
      assert StandsSince(ds, g, until, i);
    }
  }

  predicate Signed(ds: seq<Deed>, g: string, name: string) {
    exists i :: 0 <= i < |ds| && ds[i].gate == g && ds[i].act == Sign(name)
  }

  ghost predicate EnoughSigned(ds: seq<Deed>, g: string) {
    exists names: set<string> :: |names| >= RequiredFor(g) && forall n :: n in names ==> Signed(ds, g, n)
  }

  /**
   * A met gate, in terms of single commands: an override that was neither replaced nor revoked and has not
   * expired; or, for the audit gate, no blocking mutation at the last report; or, for the others, enough distinct
   * principals who each signed.
   */
  lemma MetMeans(clock: Clock, ds: seq<Deed>, g: string, now: int)
    requires Met(clock, ds, g, now)
    ensures || (exists until, i: nat :: Unexpired(clock, until, now) && StandsSince(ds, g, until, i))
            || (g == MUTATION_AUDIT && LastReport(ds) == 0)
            || (g != MUTATION_AUDIT && EnoughSigned(ds, g))
  {
    if Standing(clock, ds, g).Some? {
      StandingWasGranted(clock, ds, g);
    } else if g != MUTATION_AUDIT {
      var names := SignedBy(ds, g);
      forall n | n in names ensures Signed(ds, g, n) {
        var i :| 0 <= i < |ds| && ds[i].gate == g && ds[i].act.Sign? && ds[i].act.name == n;
        assert ds[i].act == Sign(n);
      }
    }
  }

  /**
   * An override whose recorded end does not read back never expires and never lets its gate be met: it blocks the
   * gate through any commands on it but another override or a revocation.
   */
  lemma {:induction false} UnreadableEndBlocks(clock: Clock, ds: seq<Deed>, more: seq<Deed>, g: string, now: int)
    requires Standing(clock, ds, g).Some? && EndOf(clock, Standing(clock, ds, g).value).None?
    requires forall d :: d in more && d.gate == g ==> !d.act.Cover? && !d.act.Uncover?
    ensures Standing(clock, ds + more, g) == Standing(clock, ds, g)
    ensures !Met(clock, ds + more, g, now)
    decreases |more|
  {
    if more == [] {
      assert ds + more == ds;
    } else {
      var before, last := more[..|more| - 1], more[|more| - 1];
      assert ds + more == (ds + before) + [last];
      UnreadableEndBlocks(clock, ds, before, g, now);
      OneMore(clock, ds + before, last, g);
    }
  }

  // ---- inputs at which a claim about the gates fails ----

  lemma ExpiredUntilLooked(clock: Clock, ds: seq<Deed>, g: string, until: int, now: int, later: int)
    requires g != MUTATION_AUDIT && |SignedBy(ds, g)| >= RequiredFor(g)
    requires Standing(clock, ds, g) == Some(until) && HasEnded(clock, until, now)
    ensures !Met(clock, ds, g, now) && Met(clock, ds + [Deed(g, Look, now)], g, later)
  {
    OneMore(clock, ds, Deed(g, Look, now), g);
  }

  lemma OneMoreDeed(clock: Clock, h: seq<Call>, c: Call)
    requires DeedOf(clock, c).Some?
    ensures Deeds(clock, h + [c]) == Deeds(clock, h) + [DeedOf(clock, c).value]
  {
    assert (h + [c])[..|h|] == h;
  }

  lemma MissingOne(clock: Clock, gates: GateMap, g: string, now: int)
    ensures Missing(clock, gates, [g], now) == if Holds(clock, gates, g, now) then [] else [g]
  {
    assert [g][1..] == [];
  }

  /**
   * An expired override blocks a gate that enough principals have signed: it is missing, until a command looks at it,
   * and met from then on.
   */
  lemma {:induction false} ExpiredOverrideBlocks(clock: Clock, h: seq<Call>, look: Call, g: string, until: int, now: int, later: int)
    requires g != MUTATION_AUDIT && |SignedBy(Deeds(clock, h), g)| >= RequiredFor(g)
    requires Standing(clock, Deeds(clock, h), g) == Some(until) && HasEnded(clock, until, now)
    requires DeedOf(clock, look) == Some(Deed(g, Look, now))
    ensures Missing(clock, Run(clock, h).gates, [g], now) == [g]
    ensures Missing(clock, Run(clock, h + [look]).gates, [g], later) == []
  {
    ExpiredUntilLooked(clock, Deeds(clock, h), g, until, now, later);
    OneMoreDeed(clock, h, look);
    HoldsIffMet(clock, h, g, now);
    HoldsIffMet(clock, h + [look], g, later);
    MissingOne(clock, Run(clock, h).gates, g, now);
    MissingOne(clock, Run(clock, h + [look]).gates, g, later);
  }

  lemma TwoSigned(clock: Clock, x: Deed, y: Deed, g: string)
    requires g != MUTATION_AUDIT && x.gate == y.gate == g && x.act.Sign? && y.act.Sign?
    ensures SignedBy([x, y], g) == {x.act.name, y.act.name} && Standing(clock, [x, y], g) == None
  {
    OneMore(clock, [], x, g);
    OneMore(clock, [x], y, g);
    assert [] + [x] == [x] && [x] + [y] == [x, y];
    assert SignedBy([], g) == {};
    assert Standing(clock, [], g) == None;
  }

  /** Two sign-offs and then an override that ends are such commands. */
  lemma SignedThenCovered(clock: Clock, g: string, x: Deed, y: Deed, z: Deed, now: int)
    requires g != MUTATION_AUDIT && x.gate == y.gate == z.gate == g
    requires x.act.Sign? && y.act.Sign? && x.act.name != y.act.name && z.act.Cover?
    requires EndOf(clock, z.act.until).Some? && z.now < EndOf(clock, z.act.until).value <= now
    ensures var ds := [x, y, z];
      && Touched(ds, g) && SignedBy(ds, g) == {x.act.name, y.act.name} && |SignedBy(ds, g)| >= RequiredFor(g)
      && Standing(clock, ds, g) == Some(z.act.until) && HasEnded(clock, z.act.until, now)
  {
    TwoSigned(clock, x, y, g);
    OneMore(clock, [x, y], z, g);
    assert [x, y] + [z] == [x, y, z];
    assert |{x.act.name, y.act.name}| == 2;
  }

  /**
   * A gate's event is emitted after its lock is released. If two commands on one gate emit in the other order, the
   * replay gives back the live gates exactly when both left the same snapshot.
   */
  lemma {:induction false} SwappedEventsReplay(clock: Clock, s: Session, d: Deed, e: Deed, nowText: string)
    requires Replayable(s, nowText) && d.gate == e.gate
    ensures var g, first := d.gate, Done(clock, s.gates, d);
            var second := Done(clock, first, e);
            GatesFrom(s.log + [GateEvent(second[g])] + [GateEvent(first[g])], nowText) == second <==> first[g] == second[g]
  {
    var g, first := d.gate, Done(clock, s.gates, d);
    var second := Done(clock, first, e);
    DefaultFits(clock, g, d.now);
    AppliedKeepsId(clock, SnapshotOf(clock, s.gates, g, d.now), d.act, d.now);
    AppliedKeepsId(clock, first[g], e.act, e.now);
    AppendGate(s.log, second[g], nowText);
    AppendGate(s.log + [GateEvent(second[g])], first[g], nowText);
  }
}
