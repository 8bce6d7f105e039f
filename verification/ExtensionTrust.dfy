/** The extension trust file and the approvals file: what each handler does to the copy it loaded. */
module ExtensionTrust {
  import opened Wrappers

  datatype Tier = AllowedBundled | AllowedSigned | Quarantined | Revoked

  datatype Source = Bundled | Signed

  datatype Entry = Entry(id: string, tier: Tier, source: Source, publisher: Option<string>)

  datatype TrustConfig = TrustConfig(allowUnsigned: bool, publishers: seq<string>, extensions: seq<Entry>)

  datatype UpdateError =
    | BadPayload
    | UnknownId(id: string)
    | DisallowedTransition(id: string, prev: Tier, next: Tier)

  datatype Outcome = Outcome(entry: Entry, prev: Tier, next: Tier)

  datatype Status = Pending | Approved | Denied

  datatype Request = Request(
    id: string, extensionId: string, requestedTier: string,
    bySession: string, byProfile: string, createdAt: string, status: Status,
    decidedAt: Option<string>, decidedBySession: Option<string>, decidedByProfile: Option<string>)

  datatype ApproveError = NotFound | NotPending | ApproverIsRequester | BadStoredTier

  function ParseTier(s: string): Option<Tier> {
    if s == "allowed_bundled" then Some(AllowedBundled)
    else if s == "allowed_signed" then Some(AllowedSigned)
    else if s == "quarantined" then Some(Quarantined)
    else if s == "revoked" then Some(Revoked)
    else None
  }

  predicate Allowed(t: Tier) { t.AllowedBundled? || t.AllowedSigned? }

  /** Index of the first element with this id. */
  function FirstWith<T>(idOf: T -> string, xs: seq<T>, id: string): (r: Option<nat>)
    ensures r.Some? ==> r.value < |xs| && idOf(xs[r.value]) == id && forall j :: 0 <= j < r.value ==> idOf(xs[j]) != id
    ensures r.None? ==> forall j :: 0 <= j < |xs| ==> idOf(xs[j]) != id
  {
    if xs == [] then None
    else if idOf(xs[0]) == id then Some(0)
    else
      var rest := FirstWith(idOf, xs[1..], id);
      assert forall j :: 1 <= j < |xs| ==> xs[j] == xs[1..][j - 1];
      match rest case None => None case Some(k) => Some(k + 1)
  }

  function EntryId(e: Entry): string { e.id }

  function RequestId(r: Request): string { r.id }

  function Position(es: seq<Entry>, id: string): Option<nat> { FirstWith(EntryId, es, id) }

  function RequestPosition(rs: seq<Request>, id: string): Option<nat> { FirstWith(RequestId, rs, id) }

  /** The tier the file gives an id: that of its first entry. */
  function TierOf(cfg: TrustConfig, id: string): Option<Tier> {
    match Position(cfg.extensions, id)
    case None => None
    case Some(i) => Some(cfg.extensions[i].tier)
  }

  function SetTier(cfg: TrustConfig, i: nat, t: Tier): TrustConfig
    requires i < |cfg.extensions|
  {
    cfg.(extensions := cfg.extensions[i := cfg.extensions[i].(tier := t)])
  }

  /** The config an `extensions.update_trust` payload turns `cfg` into. */
  function Updated(cfg: TrustConfig, extensionId: Option<string>, tier: Option<string>): Result<TrustConfig, UpdateError> {
    if extensionId.None? || extensionId.value == "" then Err(BadPayload)
    else if tier.None? || ParseTier(tier.value).None? then Err(BadPayload)
    else
      var next := ParseTier(tier.value).value;
      match Position(cfg.extensions, extensionId.value)
      case None => Err(UnknownId(extensionId.value))
      case Some(i) =>
        var prev := cfg.extensions[i].tier;
        if prev.Revoked? && Allowed(next) then Err(DisallowedTransition(extensionId.value, prev, next))
        else Ok(SetTier(cfg, i, next))
  }

  /** The config an approved promotion turns `cfg` into. */
  function Promoted(cfg: TrustConfig, extensionId: string, next: Tier): Result<TrustConfig, UpdateError> {
    match Position(cfg.extensions, extensionId)
    case None => Err(UnknownId(extensionId))
    case Some(i) => Ok(SetTier(cfg, i, next))
  }

  /** The checks an approval makes on the approvals file: the request to act on and the tier to grant. */
  function Validate(rs: seq<Request>, requestId: string, approver: string): Result<(nat, Tier), ApproveError> {
    match RequestPosition(rs, requestId)
    case None => Err(NotFound)
    case Some(i) =>
      if !rs[i].status.Pending? then Err(NotPending)
      else if approver == rs[i].byProfile then Err(ApproverIsRequester)
      else
        match ParseTier(rs[i].requestedTier)
        case None => Err(BadStoredTier)
        case Some(t) => Ok((i, t))
  }

  function MarkApproved(rs: seq<Request>, i: nat, at: string, session: string, profile: string): seq<Request>
    requires i < |rs|
  {
    rs[i := rs[i].(status := Approved, decidedAt := Some(at),
                   decidedBySession := Some(session), decidedByProfile := Some(profile))]
  }

  lemma PositionKept(es: seq<Entry>, i: nat, t: Tier, id: string)
    requires i < |es|
    ensures Position(es[i := es[i].(tier := t)], id) == Position(es, id)
  {
    var es' := es[i := es[i].(tier := t)];
    assert forall j :: 0 <= j < |es| ==> es'[j].id == es[j].id;
  }

  /** Setting a tier at the position of an id changes that id's tier and no other. */
  lemma TierAfterSet(cfg: TrustConfig, id: string, t: Tier, other: string)
    requires Position(cfg.extensions, id).Some?
    ensures var c := SetTier(cfg, Position(cfg.extensions, id).value, t);
            TierOf(c, other) == (if other == id then Some(t) else TierOf(cfg, other))
  {
    PositionKept(cfg.extensions, Position(cfg.extensions, id).value, t, other);
  }

  /** A plain update never takes an id from revoked to an allowed tier; it sets the one it names and keeps the rest. */
  lemma UpdateKeepsRevoked(cfg: TrustConfig, extensionId: Option<string>, tier: Option<string>, id: string)
    requires Updated(cfg, extensionId, tier).Ok?
    ensures var after := TierOf(Updated(cfg, extensionId, tier).value, id);
            && (TierOf(cfg, id) == Some(Revoked) ==> after.Some? && !Allowed(after.value))
            && after == if Some(id) == extensionId then ParseTier(tier.value) else TierOf(cfg, id)
  {
    TierAfterSet(cfg, extensionId.value, ParseTier(tier.value).value, id);
  }

  /** `tier_str`. */
  function TierText(t: Tier): (s: string)
    ensures ParseTier(s) == Some(t)
  {
    match t
    case AllowedBundled => "allowed_bundled"
    case AllowedSigned => "allowed_signed"
    case Quarantined => "quarantined"
    case Revoked => "revoked"
  }

  /** Plain updates of one id, one after another; the first refusal ends them. */
  function UpdateAll(cfg: TrustConfig, id: string, tiers: seq<Tier>): Result<TrustConfig, UpdateError>
    decreases |tiers|
  {
    if tiers == [] then Ok(cfg)
    else
      match Updated(cfg, Some(id), Some(TierText(tiers[0])))
      case Err(e) => Err(e)
      case Ok(c) => UpdateAll(c, id, tiers[1..])
  }

  /** No allowed tier directly after revoked. */
  predicate NoDirectLift(from: Tier, tiers: seq<Tier>)
    decreases |tiers|
  {
    tiers == [] || (!(from.Revoked? && Allowed(tiers[0])) && NoDirectLift(tiers[0], tiers[1..]))
  }

  lemma {:induction false} UpdatesAccepted(cfg: TrustConfig, id: string, tiers: seq<Tier>)
    requires id != "" && TierOf(cfg, id).Some?
    ensures UpdateAll(cfg, id, tiers).Ok? <==> NoDirectLift(TierOf(cfg, id).value, tiers)
    ensures UpdateAll(cfg, id, tiers).Ok?
        ==> TierOf(UpdateAll(cfg, id, tiers).value, id) == (if tiers == [] then TierOf(cfg, id) else Some(tiers[|tiers| - 1]))
    decreases |tiers|
  {
    if tiers != [] && Updated(cfg, Some(id), Some(TierText(tiers[0]))).Ok? {
      TierAfterSet(cfg, id, tiers[0], id);
      UpdatesAccepted(Updated(cfg, Some(id), Some(TierText(tiers[0]))).value, id, tiers[1..]);
    }
  }

  lemma {:induction false} LiftPassesQuarantine(from: Tier, tiers: seq<Tier>)
    requires NoDirectLift(from, tiers) && !Allowed(from) && tiers != [] && Allowed(tiers[|tiers| - 1])
    ensures from.Quarantined? || Quarantined in tiers
    decreases |tiers|
  {
    if !from.Quarantined? && !tiers[0].Quarantined? { LiftPassesQuarantine(tiers[0], tiers[1..]); }
  }

  /**
   * A series of plain updates of a revoked id is accepted exactly when it never asks for an allowed tier directly
   * after revoked, and one that ends allowed asks for quarantined on the way.
   */
  lemma UpdatesOfRevoked(cfg: TrustConfig, id: string, tiers: seq<Tier>)
    requires id != "" && TierOf(cfg, id) == Some(Revoked) && tiers != []
    ensures UpdateAll(cfg, id, tiers).Ok? <==> NoDirectLift(Revoked, tiers)
    ensures UpdateAll(cfg, id, tiers).Ok? ==> TierOf(UpdateAll(cfg, id, tiers).value, id) == Some(tiers[|tiers| - 1])
    ensures UpdateAll(cfg, id, tiers).Ok? && Allowed(tiers[|tiers| - 1]) ==> Quarantined in tiers
  {
    UpdatesAccepted(cfg, id, tiers);
    if NoDirectLift(Revoked, tiers) && Allowed(tiers[|tiers| - 1]) { LiftPassesQuarantine(Revoked, tiers); }
  }

  /** The update guard covers single steps: two plain updates can take an id from revoked to allowed by way of quarantine. */
  lemma UpdateGuardIsPerStep(cfg: TrustConfig, id: string)
    requires id != "" && TierOf(cfg, id) == Some(Revoked)
    ensures var first := Updated(cfg, Some(id), Some("quarantined"));
            && Updated(cfg, Some(id), Some("allowed_signed")).Err?
            && first.Ok?
            && Updated(first.value, Some(id), Some("allowed_signed")).Ok?
            && TierOf(Updated(first.value, Some(id), Some("allowed_signed")).value, id) == Some(AllowedSigned)
  {
    assert ParseTier("quarantined") == Some(Quarantined);
    assert ParseTier("allowed_signed") == Some(AllowedSigned);
    var c1 := Updated(cfg, Some(id), Some("quarantined")).value;
    TierAfterSet(cfg, id, Quarantined, id);
    assert TierOf(c1, id) == Some(Quarantined);
    TierAfterSet(c1, id, AllowedSigned, id);
  }

  /** A file on disk with its advisory lock; `content` only changes by an atomic replace. */
  class LockedFile<T> {
    var content: T
    var locked: bool

    constructor (content: T)
      ensures this.content == content && !locked
    {
      this.content := content;
      locked := false;
    }
  }

  /** The lock guard on the trust file, owning the copy it loaded; handlers change `config` in place. */
  class LockedConfig {
    const file: LockedFile<TrustConfig>
    var config: TrustConfig

    constructor Acquire(file: LockedFile<TrustConfig>)
      requires !file.locked
      modifies file
      ensures this.file == file && file.locked && file.content == old(file.content) == config
    {
      this.file := file;
      config := file.content;
      new;
      file.locked := true;
    }

    /** Dropping the guard releases the lock; the copy is lost. */
    method Drop()
      modifies file
      ensures !file.locked && file.content == old(file.content)
    {
      file.locked := false;
    }

    /** Replaces the file by the copy when the write succeeds, and releases the lock either way. */
    method Commit(ok: bool) returns (written: bool)
      modifies file
      ensures written == ok && !file.locked && file.content == (if ok then config else old(file.content))
    {
      if ok { file.content := config; }
      file.locked := false;
      written := ok;
    }

    method Find(id: string) returns (r: Option<nat>)
      ensures r == Position(config.extensions, id)
    {
      var i := 0;
      while i < |config.extensions|
        invariant i <= |config.extensions|
        invariant forall j :: 0 <= j < i ==> config.extensions[j].id != id
      {
        if config.extensions[i].id == id { return Some(i); }
        i := i + 1;
      }
      return None;
    }

    method ApplyUpdateTrust(extensionId: Option<string>, tier: Option<string>) returns (r: Result<Outcome, UpdateError>)
      modifies this`config
      ensures match Updated(old(config), extensionId, tier)
              case Err(e) => r == Err(e) && config == old(config)
              case Ok(c) =>
                && config == c && r.Ok? && r.value.entry.id == extensionId.value
                && TierOf(old(config), extensionId.value) == Some(r.value.prev)
                && TierOf(config, extensionId.value) == Some(r.value.next) == Some(r.value.entry.tier)
    {
      if extensionId.None? || extensionId.value == "" { return Err(BadPayload); }
      if tier.None? || ParseTier(tier.value).None? { return Err(BadPayload); }
      var next := ParseTier(tier.value).value;
      var found := Find(extensionId.value);
      if found.None? { return Err(UnknownId(extensionId.value)); }
      var idx := found.value;
      var prev := config.extensions[idx].tier;
      if prev.Revoked? && (next.AllowedBundled? || next.AllowedSigned?) {
        return Err(DisallowedTransition(extensionId.value, prev, next));
      }
      TierAfterSet(config, extensionId.value, next, extensionId.value);
      config := config.(extensions := config.extensions[idx := config.extensions[idx].(tier := next)]);
      return Ok(Outcome(config.extensions[idx], prev, next));
    }

    method ApplyPromotionWithApproval(extensionId: string, next: Tier) returns (r: Result<Outcome, UpdateError>)
      modifies this`config
      ensures match Promoted(old(config), extensionId, next)
              case Err(e) => r == Err(e) && config == old(config)
              case Ok(c) =>
                && config == c && r.Ok? && r.value.entry.id == extensionId && r.value.next == next
                && TierOf(old(config), extensionId) == Some(r.value.prev)
                && TierOf(config, extensionId) == Some(next)
    {
      var found := Find(extensionId);
      if found.None? { return Err(UnknownId(extensionId)); }
      var idx := found.value;
      var prev := config.extensions[idx].tier;
      TierAfterSet(config, extensionId, next, extensionId);
      config := config.(extensions := config.extensions[idx := config.extensions[idx].(tier := next)]);
      return Ok(Outcome(config.extensions[idx], prev, next));
    }
  }

  /** The lock guard on the approvals file. */
  class LockedApprovals {
    const file: LockedFile<seq<Request>>
    var requests: seq<Request>

    constructor Acquire(file: LockedFile<seq<Request>>)
      requires !file.locked
      modifies file
      ensures this.file == file && file.locked && file.content == old(file.content) == requests
    {
      this.file := file;
      requests := file.content;
      new;
      file.locked := true;
    }

    method Drop()
      modifies file
      ensures !file.locked && file.content == old(file.content)
    {
      file.locked := false;
    }

    method Commit(ok: bool) returns (written: bool)
      modifies file
      ensures written == ok && !file.locked && file.content == (if ok then requests else old(file.content))
    {
      if ok { file.content := requests; }
      file.locked := false;
      written := ok;
    }

    method CheckApproval(requestId: string, approver: string) returns (r: Result<(nat, Tier), ApproveError>)
      ensures r == Validate(requests, requestId, approver)
    {
      var i := 0;
      while i < |requests| && requests[i].id != requestId
        invariant i <= |requests|
        invariant forall j :: 0 <= j < i ==> requests[j].id != requestId
      {
        i := i + 1;
      }
      if i == |requests| { return Err(NotFound); }
      var snapshot := requests[i];
      if !snapshot.status.Pending? { return Err(NotPending); }
      if approver == snapshot.byProfile { return Err(ApproverIsRequester); }
      match ParseTier(snapshot.requestedTier)
      case None => return Err(BadStoredTier);
      case Some(t) => return Ok((i, t));
    }

    method Approve(i: nat, at: string, session: string, profile: string)
      requires i < |requests|
      modifies this`requests
      ensures requests == MarkApproved(old(requests), i, at, session, profile)
    {
      requests := requests[i := requests[i].(status := Approved)];
      requests := requests[i := requests[i].(decidedAt := Some(at))];
      requests := requests[i := requests[i].(decidedBySession := Some(session))];
      requests := requests[i := requests[i].(decidedByProfile := Some(profile))];
    }
  }

  /** `extensions.update_trust`, undisturbed: lock and load, change the copy, commit. */
  method HandleUpdateTrust(file: LockedFile<TrustConfig>, extensionId: Option<string>, tier: Option<string>, commitOk: bool)
      returns (saved: bool)
    requires !file.locked
    modifies file
    ensures !file.locked
    ensures saved <==> Updated(old(file.content), extensionId, tier).Ok? && commitOk
    ensures file.content == if saved then Updated(old(file.content), extensionId, tier).value else old(file.content)
  {
    var guard := new LockedConfig.Acquire(file);
    var outcome := guard.ApplyUpdateTrust(extensionId, tier);
    if outcome.Err? {
      guard.Drop();
      return false;
    }
    saved := guard.Commit(commitOk);
  }

  /** What an undisturbed approval leaves in the two files. */
  function ApprovalMeaning(trust: TrustConfig, rs: seq<Request>, requestId: string, session: string, approver: string,
                           trustOk: bool, requestsOk: bool, now: string): (TrustConfig, seq<Request>)
  {
    match Validate(rs, requestId, approver)
    case Err(_) => (trust, rs)
    case Ok((i, tier)) =>
      if i >= |rs| then (trust, rs)
      else
        match Promoted(trust, rs[i].extensionId, tier)
        case Err(_) => (trust, rs)
        case Ok(t) =>
          if !trustOk then (trust, rs)
          else (t, if requestsOk then MarkApproved(rs, i, now, session, approver) else rs)
  }

  /** `extensions.approve_promotion`, undisturbed: the approvals lock is taken first and released last. */
  method HandleApprovePromotion(
      requestsFile: LockedFile<seq<Request>>, trustFile: LockedFile<TrustConfig>,
      requestId: string, session: string, approver: string, trustOk: bool, requestsOk: bool, now: string)
      returns (approved: bool)
    requires !requestsFile.locked && !trustFile.locked
    modifies requestsFile, trustFile
    ensures !requestsFile.locked && !trustFile.locked
    ensures (trustFile.content, requestsFile.content)
         == ApprovalMeaning(old(trustFile.content), old(requestsFile.content), requestId, session, approver, trustOk, requestsOk, now)
    ensures approved ==> trustOk && requestsOk
  {
    var requests := new LockedApprovals.Acquire(requestsFile);
    var checked := requests.CheckApproval(requestId, approver);
    if checked.Err? {
      requests.Drop();
      return false;
    }
    var (i, tier) := checked.value;
    var trust := new LockedConfig.Acquire(trustFile);
    var outcome := trust.ApplyPromotionWithApproval(requests.requests[i].extensionId, tier);
    if outcome.Err? {
      trust.Drop();
      requests.Drop();
      return false;
    }
    var trustWritten := trust.Commit(trustOk);
    if !trustWritten {
      requests.Drop();
      return false;
    }
    requests.Approve(i, now, session, approver);
    approved := requests.Commit(requestsOk);
  }
}
