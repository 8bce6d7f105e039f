/**
 * The update, request and approve handlers as interleaved steps over two lock-guarded files.
 * A step is one lock-and-load, one mutation of the private copy, or one commit (which also
 * releases the lock). Acquiring and committing may fail.
 */
module PromotionProtocol {
  import opened Wrappers
  import opened ExtensionTrust

  datatype Op =
    | UpdateTrust(extensionId: Option<string>, tier: Option<string>)
    | RequestPromotion(extensionId: Option<string>, tier: Option<string>, session: string, profile: Option<string>)
    | ApprovePromotion(requestId: Option<string>, session: string, profile: Option<string>)

  datatype Ending =
    | LoadFailed | Refused | SaveFailed
    | TrustSaved | RequestSaved | PromotionApproved | ApprovalSaveFailed

  datatype Pc =
    | Start
    | UpdLoaded(trust: TrustConfig)
    | UpdMutated(trust: TrustConfig)
    | ReqChecked
    | ReqLoaded(requests: seq<Request>)
    | ReqMutated(requests: seq<Request>, added: Request)
    | AppLoaded(requests: seq<Request>)
    | AppChecked(requests: seq<Request>, index: nat, tier: Tier)
    | AppTrustLoaded(requests: seq<Request>, index: nat, tier: Tier, trust: TrustConfig)
    | AppTrustMutated(requests: seq<Request>, index: nat, tier: Tier, trust: TrustConfig)
    | AppTrustCommitted(requests: seq<Request>, index: nat, tier: Tier)
    | AppMutated(requests: seq<Request>, index: nat, tier: Tier, at: string)
    | Done(ending: Ending)

  /** What the environment decides in a step: does the I/O succeed, and which id and time are read. */
  datatype Choice = Choice(ok: bool, freshId: string, now: string)

  datatype Commit =
    | Updates(who: nat)
    | Promotes(who: nat, index: nat, tier: Tier)
    | Adds(who: nat, request: Request)
    | Approves(who: nat, index: nat, tier: Tier, at: string)

  datatype Files = Files(trust: TrustConfig, requests: seq<Request>)

  datatype Sys = Sys(
    ops: seq<Op>, pcs: seq<Pc>, files: Files,
    trustLock: Option<nat>, requestsLock: Option<nat>,
    log: seq<Commit>)

  function Init(ops: seq<Op>, files: Files): Sys {
    Sys(ops, seq(|ops|, _ => Start), files, None, None, [])
  }

  // ---- one handler step ----

  function Goto(s: Sys, i: nat, pc: Pc): Sys
    requires i < |s.pcs|
  {
    s.(pcs := s.pcs[i := pc])
  }

  /** The record `extensions.request_promotion` pushes. */
  function NewRequest(op: Op, c: Choice): Request
    requires op.RequestPromotion? && op.extensionId.Some? && op.tier.Some? && op.profile.Some?
  {
    Request(c.freshId, op.extensionId.value, op.tier.value, op.session, op.profile.value, c.now,
            Pending, None, None, None)
  }

  /** The checks made before a request is recorded, on a trust file read without its lock. */
  predicate RequestAccepted(op: Op, trust: TrustConfig)
    requires op.RequestPromotion?
  {
    && op.extensionId.Some? && op.extensionId.value != ""
    && op.tier.Some? && (op.tier.value == "allowed_bundled" || op.tier.value == "allowed_signed")
    && TierOf(trust, op.extensionId.value) == Some(Revoked)
    && op.profile.Some?
  }

  function StepUpdate(s: Sys, i: nat, c: Choice): Option<Sys>
    requires i < |s.pcs| == |s.ops| && s.ops[i].UpdateTrust?
  {
    match s.pcs[i]
    case Start =>
      if !c.ok then Some(Goto(s, i, Done(LoadFailed)))
      else if s.trustLock.Some? then None
      else Some(Goto(s, i, UpdLoaded(s.files.trust)).(trustLock := Some(i)))
    case UpdLoaded(trust) =>
      (match Updated(trust, s.ops[i].extensionId, s.ops[i].tier)
       case Err(_) => Some(Goto(s, i, Done(Refused)).(trustLock := None))
       case Ok(t) => Some(Goto(s, i, UpdMutated(t))))
    case UpdMutated(trust) =>
      if c.ok then
        Some(Goto(s, i, Done(TrustSaved)).(trustLock := None, files := s.files.(trust := trust), log := s.log + [Updates(i)]))
      else Some(Goto(s, i, Done(SaveFailed)).(trustLock := None))
    case _ => None
  }

  function StepRequest(s: Sys, i: nat, c: Choice): Option<Sys>
    requires i < |s.pcs| == |s.ops| && s.ops[i].RequestPromotion?
  {
    match s.pcs[i]
    case Start =>
      if !c.ok then Some(Goto(s, i, Done(LoadFailed)))
      else if RequestAccepted(s.ops[i], s.files.trust) then Some(Goto(s, i, ReqChecked))
      else Some(Goto(s, i, Done(Refused)))
    case ReqChecked =>
      if !c.ok then Some(Goto(s, i, Done(LoadFailed)))
      else if s.requestsLock.Some? then None
      else Some(Goto(s, i, ReqLoaded(s.files.requests)).(requestsLock := Some(i)))
    case ReqLoaded(requests) =>
      if s.ops[i].extensionId.Some? && s.ops[i].tier.Some? && s.ops[i].profile.Some? then
        var r := NewRequest(s.ops[i], c);
        Some(Goto(s, i, ReqMutated(requests + [r], r)))
      else None
    case ReqMutated(requests, added) =>
      if c.ok then
        Some(Goto(s, i, Done(RequestSaved)).(
          requestsLock := None, files := s.files.(requests := requests), log := s.log + [Adds(i, added)]))
      else Some(Goto(s, i, Done(SaveFailed)).(requestsLock := None))
    case _ => None
  }

  function StepApprove(s: Sys, i: nat, c: Choice): Option<Sys>
    requires i < |s.pcs| == |s.ops| && s.ops[i].ApprovePromotion?
  {
    var op := s.ops[i];
    match s.pcs[i]
    case Start =>
      if op.requestId.None? || op.requestId.value == "" || op.profile.None? then Some(Goto(s, i, Done(Refused)))
      else if !c.ok then Some(Goto(s, i, Done(LoadFailed)))
      else if s.requestsLock.Some? then None
      else Some(Goto(s, i, AppLoaded(s.files.requests)).(requestsLock := Some(i)))
    case AppLoaded(requests) =>
      if op.requestId.None? || op.profile.None? then None
      else (
        match Validate(requests, op.requestId.value, op.profile.value)
        case Err(_) => Some(Goto(s, i, Done(Refused)).(requestsLock := None))
        case Ok((index, tier)) => Some(Goto(s, i, AppChecked(requests, index, tier))))
    case AppChecked(requests, index, tier) =>
      if !c.ok then Some(Goto(s, i, Done(LoadFailed)).(requestsLock := None))
      else if s.trustLock.Some? then None
      else Some(Goto(s, i, AppTrustLoaded(requests, index, tier, s.files.trust)).(trustLock := Some(i)))
    case AppTrustLoaded(requests, index, tier, trust) =>
      if index >= |requests| then None
      else (
        match Promoted(trust, requests[index].extensionId, tier)
        case Err(_) => Some(Goto(s, i, Done(Refused)).(requestsLock := None, trustLock := None))
        case Ok(t) => Some(Goto(s, i, AppTrustMutated(requests, index, tier, t))))
    case AppTrustMutated(requests, index, tier, trust) =>
      if c.ok then
        Some(Goto(s, i, AppTrustCommitted(requests, index, tier)).(
          trustLock := None, files := s.files.(trust := trust), log := s.log + [Promotes(i, index, tier)]))
      else Some(Goto(s, i, Done(SaveFailed)).(requestsLock := None, trustLock := None))
    case AppTrustCommitted(requests, index, tier) =>
      if index >= |requests| || op.profile.None? then None
      else Some(Goto(s, i, AppMutated(MarkApproved(requests, index, c.now, op.session, op.profile.value), index, tier, c.now)))
    case AppMutated(requests, index, tier, at) =>
      if c.ok then
        Some(Goto(s, i, Done(PromotionApproved)).(
          requestsLock := None, files := s.files.(requests := requests), log := s.log + [Approves(i, index, tier, at)]))
      else Some(Goto(s, i, Done(ApprovalSaveFailed)).(requestsLock := None))
    case _ => None
  }

  /** The state after handler `i` takes its next step, or None when it is finished or waiting for a lock. */
  function Step(s: Sys, i: nat, c: Choice): Option<Sys> {
    if i >= |s.pcs| || |s.pcs| != |s.ops| then None
    else
      match s.ops[i]
      case UpdateTrust(_, _) => StepUpdate(s, i, c)
      case RequestPromotion(_, _, _, _) => StepRequest(s, i, c)
      case ApprovePromotion(_, _, _) => StepApprove(s, i, c)
  }

  /** Any interleaving: which handler moves, and what the environment decides. */
  function Run(s: Sys, schedule: seq<(nat, Choice)>): Option<Sys>
    decreases |schedule|
  {
    if schedule == [] then Some(s)
    else
      match Step(s, schedule[0].0, schedule[0].1)
      case None => None
      case Some(t) => Run(t, schedule[1..])
  }

  // ---- what a commit does to the files ----

  /**
   * One commit on the files' current content: None unless the operation passes the checks its handler makes under
   * the lock it writes with. The handler of a request reads the trust file before it takes any lock, so its check
   * that the id is revoked is not among them.
   */
  function Apply(ops: seq<Op>, f: Files, c: Commit): Option<Files> {
    if c.who >= |ops| then None
    else
      var op := ops[c.who];
      match c
      case Updates(_) =>
        if op.UpdateTrust? && Updated(f.trust, op.extensionId, op.tier).Ok?
        then Some(f.(trust := Updated(f.trust, op.extensionId, op.tier).value)) else None
      case Promotes(_, index, tier) =>
        if Sanctioned(op, f.requests, index, tier) && Promoted(f.trust, f.requests[index].extensionId, tier).Ok?
        then Some(f.(trust := Promoted(f.trust, f.requests[index].extensionId, tier).value)) else None
      case Adds(_, r) =>
        if op.RequestPromotion? && Requestable(op) && r == NewRequest(op, Choice(true, r.id, r.createdAt))
        then Some(f.(requests := f.requests + [r])) else None
      case Approves(_, index, tier, at) =>
        if Sanctioned(op, f.requests, index, tier)
        then Some(f.(requests := MarkApproved(f.requests, index, at, op.session, op.profile.value))) else None
  }

  /** `op` is an approval whose checks pass on `rs`, for the request at `index` and its tier. */
  predicate Sanctioned(op: Op, rs: seq<Request>, index: nat, tier: Tier) {
    && op.ApprovePromotion? && op.requestId.Some? && op.requestId.value != "" && op.profile.Some?
    && Validate(rs, op.requestId.value, op.profile.value) == Ok((index, tier))
    && index < |rs|
  }

  /** The commits run one after another from the given content. */
  function Replay(ops: seq<Op>, f: Files, log: seq<Commit>): Option<Files> {
    if log == [] then Some(f)
    else
      match Replay(ops, f, log[..|log| - 1])
      case None => None
      case Some(g) => Apply(ops, g, log[|log| - 1])
  }

  // ---- the invariant ----

  predicate HoldsTrust(pc: Pc) {
    pc.UpdLoaded? || pc.UpdMutated? || pc.AppTrustLoaded? || pc.AppTrustMutated?
  }

  predicate HoldsRequests(pc: Pc) {
    pc.ReqLoaded? || pc.ReqMutated? || pc.AppLoaded? || pc.AppChecked? || pc.AppTrustLoaded?
    || pc.AppTrustMutated? || pc.AppTrustCommitted? || pc.AppMutated?
  }

  /** A handler's private copies are its operation applied to what is on disk now. */
  ghost predicate CopiesCurrent(op: Op, pc: Pc, f: Files) {
    match pc
    case Start => true
    case Done(_) => true
    case UpdLoaded(t) => op.UpdateTrust? && t == f.trust
    case UpdMutated(t) => op.UpdateTrust? && Updated(f.trust, op.extensionId, op.tier) == Ok(t)
    case ReqChecked => op.RequestPromotion? && Requestable(op)
    case ReqLoaded(rs) => op.RequestPromotion? && Requestable(op) && rs == f.requests
    case ReqMutated(rs, r) =>
      op.RequestPromotion? && Requestable(op) && rs == f.requests + [r] && r == NewRequest(op, Choice(true, r.id, r.createdAt))
    case AppLoaded(rs) =>
      op.ApprovePromotion? && op.requestId.Some? && op.requestId.value != "" && op.profile.Some? && rs == f.requests
    case AppChecked(rs, i, t) => rs == f.requests && Sanctioned(op, rs, i, t)
    case AppTrustLoaded(rs, i, t, trust) => rs == f.requests && Sanctioned(op, rs, i, t) && trust == f.trust
    case AppTrustMutated(rs, i, t, trust) =>
      rs == f.requests && Sanctioned(op, rs, i, t) && Promoted(f.trust, rs[i].extensionId, t) == Ok(trust)
    case AppTrustCommitted(rs, i, t) => rs == f.requests && Sanctioned(op, rs, i, t)
    case AppMutated(rs, i, t, at) =>
      Sanctioned(op, f.requests, i, t) && rs == MarkApproved(f.requests, i, at, op.session, op.profile.value)
  }

  predicate Requestable(op: Op)
    requires op.RequestPromotion?
  {
    && op.extensionId.Some? && op.extensionId.value != "" && op.tier.Some? && op.profile.Some?
    && (op.tier.value == "allowed_bundled" || op.tier.value == "allowed_signed")
  }

  ghost predicate LocksMatch(s: Sys) {
    && |s.pcs| == |s.ops|
    && (s.trustLock.Some? ==> s.trustLock.value < |s.pcs|)
    && (s.requestsLock.Some? ==> s.requestsLock.value < |s.pcs|)
    && (forall i :: 0 <= i < |s.pcs| ==> (HoldsTrust(s.pcs[i]) <==> s.trustLock == Some(i)))
    && (forall i :: 0 <= i < |s.pcs| ==> (HoldsRequests(s.pcs[i]) <==> s.requestsLock == Some(i)))
  }

  /** The part of the log written by handler `i`. */
  function Mine(log: seq<Commit>, i: nat): seq<Commit> {
    if log == [] then []
    else Mine(log[..|log| - 1], i) + if log[|log| - 1].who == i then [log[|log| - 1]] else []
  }

  /** What a handler has committed follows from where it is: nothing twice, nothing it has not reached. */
  ghost predicate Accounted(pc: Pc, i: nat, mine: seq<Commit>) {
    match pc
    case Done(TrustSaved) => mine == [Updates(i)]
    case Done(RequestSaved) => |mine| == 1 && mine[0].Adds?
    case AppTrustCommitted(_, k, t) => mine == [Promotes(i, k, t)]
    case AppMutated(_, k, t, _) => mine == [Promotes(i, k, t)]
    case Done(ApprovalSaveFailed) => |mine| == 1 && mine[0].Promotes?
    case Done(PromotionApproved) =>
      |mine| == 2 && mine[0].Promotes? && mine[1].Approves?
      && mine[0].index == mine[1].index && mine[0].tier == mine[1].tier
    case _ => mine == []
  }

  /** The program points of each handler. */
  predicate Fits(op: Op, pc: Pc) {
    match op
    case UpdateTrust(_, _) => pc.Start? || pc.Done? || pc.UpdLoaded? || pc.UpdMutated?
    case RequestPromotion(_, _, _, _) => pc.Start? || pc.Done? || pc.ReqChecked? || pc.ReqLoaded? || pc.ReqMutated?
    case ApprovePromotion(_, _, _) =>
      pc.Start? || pc.Done? || pc.AppLoaded? || pc.AppChecked? || pc.AppTrustLoaded? || pc.AppTrustMutated?
      || pc.AppTrustCommitted? || pc.AppMutated?
  }

  ghost predicate Inv(s: Sys, f0: Files) {
    && LocksMatch(s)
    && (forall i :: 0 <= i < |s.pcs| ==> CopiesCurrent(s.ops[i], s.pcs[i], s.files))
    && (forall i :: 0 <= i < |s.pcs| ==> Fits(s.ops[i], s.pcs[i]))
    && Replay(s.ops, f0, s.log) == Some(s.files)
    && (forall i :: 0 <= i < |s.pcs| ==> Accounted(s.pcs[i], i, Mine(s.log, i)))
    && ApprovesFollowPromotes(s.log)
  }

  /** Each approval on disk comes after a trust commit by the same handler, for the same request and tier. */
  ghost predicate ApprovesFollowPromotes(log: seq<Commit>) {
    forall k :: 0 <= k < |log| && log[k].Approves? ==> PromotedBefore(log, k)
  }

  ghost predicate PromotedBefore(log: seq<Commit>, k: nat)
    requires k < |log| && log[k].Approves?
  {
    exists j :: 0 <= j < k && log[j] == Promotes(log[k].who, log[k].index, log[k].tier)
  }

  // ---- every step keeps the invariant ----

  /** Before its step: the handler holds the locks its program point says, its copies are current, `mine` is its log. */
  ghost predicate Ready(s: Sys, i: nat, mine: seq<Commit>) {
    && i < |s.pcs| == |s.ops|
    && (HoldsTrust(s.pcs[i]) <==> s.trustLock == Some(i))
    && (HoldsRequests(s.pcs[i]) <==> s.requestsLock == Some(i))
    && CopiesCurrent(s.ops[i], s.pcs[i], s.files)
    && Accounted(s.pcs[i], i, mine)
  }

  /** What any one step does, seen from outside the handler that took it. */
  ghost predicate Moved(s: Sys, i: nat, t: Sys, mine: seq<Commit>)
    requires i < |s.pcs| == |s.ops|
  {
    && t.ops == s.ops && |t.pcs| == |s.pcs| && t.pcs == s.pcs[i := t.pcs[i]]
    && t.trustLock == Lock(s.trustLock, i, HoldsTrust(t.pcs[i]))
    && t.requestsLock == Lock(s.requestsLock, i, HoldsRequests(t.pcs[i]))
    && (HoldsTrust(t.pcs[i]) ==> s.trustLock == None || s.trustLock == Some(i))
    && (HoldsRequests(t.pcs[i]) ==> s.requestsLock == None || s.requestsLock == Some(i))
    && (t.files.trust == s.files.trust || s.trustLock == Some(i))
    && (t.files.requests == s.files.requests || s.requestsLock == Some(i))
    && CopiesCurrent(t.ops[i], t.pcs[i], t.files) && Fits(t.ops[i], t.pcs[i])
    && ((t.log == s.log && t.files == s.files && Accounted(t.pcs[i], i, mine))
        || (exists c :: Appended(s, i, t, c, mine)))
  }

  ghost predicate Appended(s: Sys, i: nat, t: Sys, c: Commit, mine: seq<Commit>) {
    && c.who == i && t.log == s.log + [c]
    && Apply(s.ops, s.files, c) == Some(t.files)
    && i < |t.pcs| && Accounted(t.pcs[i], i, mine + [c])
    && (c.Approves? ==> mine == [Promotes(i, c.index, c.tier)])
  }

  function Lock(before: Option<nat>, i: nat, holds: bool): Option<nat> {
    if holds then Some(i) else if before == Some(i) then None else before
  }

  lemma UpdateMovesLoading(s: Sys, i: nat, c: Choice, t: Sys, mine: seq<Commit>)
    requires Ready(s, i, mine) && s.ops[i].UpdateTrust? && StepUpdate(s, i, c) == Some(t)
    requires s.pcs[i].Start? || s.pcs[i].UpdLoaded?
    ensures Moved(s, i, t, mine)
  {
  }

  lemma UpdateMovesSaving(s: Sys, i: nat, c: Choice, t: Sys, mine: seq<Commit>)
    requires Ready(s, i, mine) && s.ops[i].UpdateTrust? && StepUpdate(s, i, c) == Some(t)
    requires s.pcs[i].UpdMutated?
    ensures Moved(s, i, t, mine)
  {
    if c.ok { assert Appended(s, i, t, Updates(i), mine); }
  }

  lemma UpdateMoves(s: Sys, i: nat, c: Choice, t: Sys, mine: seq<Commit>)
    requires Ready(s, i, mine) && s.ops[i].UpdateTrust? && StepUpdate(s, i, c) == Some(t)
    ensures Moved(s, i, t, mine)
  {
    if s.pcs[i].UpdMutated? { UpdateMovesSaving(s, i, c, t, mine); } else { UpdateMovesLoading(s, i, c, t, mine); }
  }

  lemma RequestMovesLoading(s: Sys, i: nat, c: Choice, t: Sys, mine: seq<Commit>)
    requires Ready(s, i, mine) && s.ops[i].RequestPromotion? && StepRequest(s, i, c) == Some(t)
    requires s.pcs[i].Start? || s.pcs[i].ReqChecked? || s.pcs[i].ReqLoaded?
    ensures Moved(s, i, t, mine)
  {
  }

  lemma RequestMovesSaving(s: Sys, i: nat, c: Choice, t: Sys, mine: seq<Commit>)
    requires Ready(s, i, mine) && s.ops[i].RequestPromotion? && StepRequest(s, i, c) == Some(t)
    requires s.pcs[i].ReqMutated?
    ensures Moved(s, i, t, mine)
  {
    if c.ok { assert Appended(s, i, t, Adds(i, s.pcs[i].added), mine); }
  }

  lemma RequestMoves(s: Sys, i: nat, c: Choice, t: Sys, mine: seq<Commit>)
    requires Ready(s, i, mine) && s.ops[i].RequestPromotion? && StepRequest(s, i, c) == Some(t)
    ensures Moved(s, i, t, mine)
  {
    if s.pcs[i].ReqMutated? { RequestMovesSaving(s, i, c, t, mine); } else { RequestMovesLoading(s, i, c, t, mine); }
  }

  lemma ApproveMovesChecking(s: Sys, i: nat, c: Choice, t: Sys, mine: seq<Commit>)
    requires Ready(s, i, mine) && s.ops[i].ApprovePromotion? && StepApprove(s, i, c) == Some(t)
    requires s.pcs[i].Start? || s.pcs[i].AppLoaded? || s.pcs[i].AppChecked?
    ensures Moved(s, i, t, mine)
  {
  }

  lemma ApproveMovesTrust(s: Sys, i: nat, c: Choice, t: Sys, mine: seq<Commit>)
    requires Ready(s, i, mine) && s.ops[i].ApprovePromotion? && StepApprove(s, i, c) == Some(t)
    requires s.pcs[i].AppTrustLoaded? || s.pcs[i].AppTrustMutated?
    ensures Moved(s, i, t, mine)
  {
    var pc := s.pcs[i];
    if pc.AppTrustMutated? && c.ok { assert Appended(s, i, t, Promotes(i, pc.index, pc.tier), mine); }
  }

  lemma ApproveMovesRequests(s: Sys, i: nat, c: Choice, t: Sys, mine: seq<Commit>)
    requires Ready(s, i, mine) && s.ops[i].ApprovePromotion? && StepApprove(s, i, c) == Some(t)
    requires s.pcs[i].AppTrustCommitted? || s.pcs[i].AppMutated?
    ensures Moved(s, i, t, mine)
  {
    var pc := s.pcs[i];
    if pc.AppMutated? && c.ok { assert Appended(s, i, t, Approves(i, pc.index, pc.tier, pc.at), mine); }
  }

  lemma ApproveMoves(s: Sys, i: nat, c: Choice, t: Sys, mine: seq<Commit>)
    requires Ready(s, i, mine) && s.ops[i].ApprovePromotion? && StepApprove(s, i, c) == Some(t)
    ensures Moved(s, i, t, mine)
  {
    var pc := s.pcs[i];
    if pc.Start? || pc.AppLoaded? || pc.AppChecked? {
      ApproveMovesChecking(s, i, c, t, mine);
    } else if pc.AppTrustLoaded? || pc.AppTrustMutated? {
      ApproveMovesTrust(s, i, c, t, mine);
    } else {
      ApproveMovesRequests(s, i, c, t, mine);
    }
  }

  lemma CopiesFrame(op: Op, pc: Pc, f: Files, g: Files)
    requires CopiesCurrent(op, pc, f)
    requires HoldsTrust(pc) ==> f.trust == g.trust
    requires HoldsRequests(pc) ==> f.requests == g.requests
    ensures CopiesCurrent(op, pc, g)
  {
  }

  lemma MovedKeepsCopies(s: Sys, i: nat, t: Sys, mine: seq<Commit>)
    requires LocksMatch(s) && i < |s.pcs| && Moved(s, i, t, mine)
    requires forall j :: 0 <= j < |s.pcs| ==> CopiesCurrent(s.ops[j], s.pcs[j], s.files)
    ensures forall j :: 0 <= j < |t.pcs| ==> CopiesCurrent(t.ops[j], t.pcs[j], t.files)
  {
    forall j | 0 <= j < |t.pcs| ensures CopiesCurrent(t.ops[j], t.pcs[j], t.files) {
      if j != i { CopiesFrame(s.ops[j], s.pcs[j], s.files, t.files); }
    }
  }

  lemma MineLonger(log: seq<Commit>, c: Commit, j: nat)
    ensures Mine(log + [c], j) == Mine(log, j) + if c.who == j then [c] else []
  {
    assert (log + [c])[..|log|] == log;
  }

  lemma AppendedAccounts(s: Sys, i: nat, t: Sys, c: Commit)
    requires |s.pcs| == |s.ops| && i < |s.pcs| && Moved(s, i, t, Mine(s.log, i)) && Appended(s, i, t, c, Mine(s.log, i))
    requires forall j :: 0 <= j < |s.pcs| ==> Accounted(s.pcs[j], j, Mine(s.log, j))
    ensures forall j :: 0 <= j < |t.pcs| ==> Accounted(t.pcs[j], j, Mine(t.log, j))
  {
    forall j | 0 <= j < |t.pcs| ensures Accounted(t.pcs[j], j, Mine(t.log, j)) {
      MineLonger(s.log, c, j);
    }
  }

  lemma {:induction false} AppendedReplays(s: Sys, i: nat, t: Sys, c: Commit, f0: Files)
    requires Replay(s.ops, f0, s.log) == Some(s.files) && Appended(s, i, t, c, Mine(s.log, i)) && t.ops == s.ops
    ensures Replay(t.ops, f0, t.log) == Some(t.files)
  {
    assert t.log[..|t.log| - 1] == s.log;
  }

  lemma MovedKeepsLocks(s: Sys, i: nat, t: Sys, mine: seq<Commit>)
    requires LocksMatch(s) && i < |s.pcs| && Moved(s, i, t, mine)
    ensures LocksMatch(t)
  {
  }

  lemma {:induction false} MovedKeepsInv(s: Sys, i: nat, t: Sys, f0: Files)
    requires Inv(s, f0) && i < |s.pcs| && Moved(s, i, t, Mine(s.log, i))
    ensures Inv(t, f0)
  {
    MovedKeepsLocks(s, i, t, Mine(s.log, i));
    MovedKeepsCopies(s, i, t, Mine(s.log, i));
    if t.log != s.log {
      var c :| Appended(s, i, t, c, Mine(s.log, i));
      AppendedAccounts(s, i, t, c);
      AppendedReplays(s, i, t, c, f0);
      AppendedApproval(s, i, t, c);
    }
  }

  lemma AppendedApproval(s: Sys, i: nat, t: Sys, c: Commit)
    requires ApprovesFollowPromotes(s.log) && Appended(s, i, t, c, Mine(s.log, i))
    ensures ApprovesFollowPromotes(t.log)
  {
    forall k | 0 <= k < |t.log| && t.log[k].Approves? ensures PromotedBefore(t.log, k) {
      if k < |s.log| {
        assert PromotedBefore(s.log, k);
        var j :| 0 <= j < k && s.log[j] == Promotes(s.log[k].who, s.log[k].index, s.log[k].tier);
        assert t.log[j] == s.log[j];
      } else {
        var j := MineIsInLog(s.log, i, Promotes(i, c.index, c.tier));
        assert t.log[j] == s.log[j];
      }
    }
  }

  lemma {:induction false} MineIsInLog(log: seq<Commit>, i: nat, c: Commit) returns (j: nat)
    requires c in Mine(log, i)
    ensures j < |log| && log[j] == c
  {
    if log[|log| - 1] == c {
      j := |log| - 1;
    } else {
      j := MineIsInLog(log[..|log| - 1], i, c);
    }
  }

  lemma StepKeepsInv(s: Sys, i: nat, c: Choice, t: Sys, f0: Files)
    requires Inv(s, f0) && Step(s, i, c) == Some(t)
    ensures Inv(t, f0)
  {
    var mine := Mine(s.log, i);
    match s.ops[i] {
      case UpdateTrust(_, _) => UpdateMoves(s, i, c, t, mine);
      case RequestPromotion(_, _, _, _) => RequestMoves(s, i, c, t, mine);
      case ApprovePromotion(_, _, _) => ApproveMoves(s, i, c, t, mine);
    }
    MovedKeepsInv(s, i, t, f0);
  }

  lemma InitInv(ops: seq<Op>, f0: Files)
    ensures Inv(Init(ops, f0), f0)
  {
  }

  lemma {:induction false} RunKeepsInv(s: Sys, schedule: seq<(nat, Choice)>, f0: Files)
    requires Inv(s, f0) && Run(s, schedule).Some?
    ensures Inv(Run(s, schedule).value, f0)
    decreases |schedule|
  {
    if schedule != [] {
      var t := Step(s, schedule[0].0, schedule[0].1).value;
      StepKeepsInv(s, schedule[0].0, schedule[0].1, t, f0);
      RunKeepsInv(t, schedule[1..], f0);
    }
  }
}
