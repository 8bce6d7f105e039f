/** What holds of every interleaving of the update, request and approve handlers. */
module PromotionRuns {
  import opened Wrappers
  import opened ExtensionTrust
  import opened PromotionProtocol

  // ---- main results ----

  lemma ReachableInv(ops: seq<Op>, f0: Files, schedule: seq<(nat, Choice)>)
    requires Run(Init(ops, f0), schedule).Some?
    ensures Inv(Run(Init(ops, f0), schedule).value, f0)
    ensures Run(Init(ops, f0), schedule).value.ops == ops
  {
    InitInv(ops, f0);
    RunKeepsInv(Init(ops, f0), schedule, f0);
    RunKeepsOps(Init(ops, f0), schedule);
  }

  lemma {:induction false} RunKeepsOps(s: Sys, schedule: seq<(nat, Choice)>)
    requires Run(s, schedule).Some?
    ensures Run(s, schedule).value.ops == s.ops
    decreases |schedule|
  {
    if schedule != [] {
      RunKeepsOps(Step(s, schedule[0].0, schedule[0].1).value, schedule[1..]);
    }
  }

  lemma {:induction false} ReplayPrefix(ops: seq<Op>, f0: Files, log: seq<Commit>, k: nat)
    requires Replay(ops, f0, log).Some? && k <= |log|
    ensures Replay(ops, f0, log[..k]).Some?
    ensures k < |log| ==> Replay(ops, f0, log[..k + 1]) == Apply(ops, Replay(ops, f0, log[..k]).value, log[k])
                          && Replay(ops, f0, log[..k + 1]).Some?
    decreases |log|
  {
    if k == |log| {
      assert log[..k] == log;
    } else {
      var shorter := log[..|log| - 1];
      ReplayPrefix(ops, f0, shorter, k);
      assert shorter[..k] == log[..k];
      if k == |log| - 1 {
        assert log[..k + 1] == log;
      } else {
        assert shorter[..k + 1] == log[..k + 1];
      }
    }
  }

  /** The content of the files just before commit `k`. */
  function Before(ops: seq<Op>, f0: Files, log: seq<Commit>, k: nat): Files
    requires k <= |log|
  {
    match Replay(ops, f0, log[..k])
    case None => f0
    case Some(f) => f
  }

  // ---- the request's check, made before its lock ----

  lemma {:induction false} RunSplits(s: Sys, schedule: seq<(nat, Choice)>, n: nat)
    requires Run(s, schedule).Some? && n <= |schedule|
    ensures Run(s, schedule[..n]).Some?
    ensures Run(Run(s, schedule[..n]).value, schedule[n..]) == Run(s, schedule)
    decreases n
  {
    if n > 0 {
      RunSplits(Step(s, schedule[0].0, schedule[0].1).value, schedule[1..], n - 1);
      assert schedule[..n][1..] == schedule[1..][..n - 1] && schedule[1..][n - 1..] == schedule[n..];
    }
  }

  /** The state after the first `n` steps of a run. */
  function At(ops: seq<Op>, f0: Files, schedule: seq<(nat, Choice)>, n: nat): Sys
    requires Run(Init(ops, f0), schedule).Some? && n <= |schedule|
  {
    RunSplits(Init(ops, f0), schedule, n);
    Run(Init(ops, f0), schedule[..n]).value
  }

  lemma {:induction false} LogOnlyGrows(s: Sys, schedule: seq<(nat, Choice)>)
    requires Run(s, schedule).Some?
    ensures s.log <= Run(s, schedule).value.log
    decreases |schedule|
  {
    if schedule != [] {
      StepGrowsLog(s, schedule[0].0, schedule[0].1);
      LogOnlyGrows(Step(s, schedule[0].0, schedule[0].1).value, schedule[1..]);
    }
  }

  lemma StepGrowsLog(s: Sys, i: nat, c: Choice)
    requires Step(s, i, c).Some?
    ensures s.log <= Step(s, i, c).value.log
  {
    match s.ops[i] {
      case UpdateTrust(_, _) => assert StepUpdate(s, i, c).Some?;
      case RequestPromotion(_, _, _, _) => assert StepRequest(s, i, c).Some?;
      case ApprovePromotion(_, _, _) => ApproveGrowsLog(s, i, c);
    }
  }

  lemma ApproveGrowsLog(s: Sys, i: nat, c: Choice)
    requires i < |s.pcs| == |s.ops| && s.ops[i].ApprovePromotion? && StepApprove(s, i, c).Some?
    ensures s.log <= StepApprove(s, i, c).value.log
  {}

  /** The handler of a request is past its check. */
  predicate PastCheck(pc: Pc) { pc.ReqChecked? || pc.ReqLoaded? || pc.ReqMutated? || pc == Done(RequestSaved) }

  lemma RequestStep(s: Sys, i: nat, c: Choice, t: Sys)
    requires i < |s.pcs| == |s.ops| && s.ops[i].RequestPromotion? && StepRequest(s, i, c) == Some(t) && PastCheck(t.pcs[i])
    ensures PastCheck(s.pcs[i]) || (s.pcs[i].Start? && RequestAccepted(s.ops[i], s.files.trust))
  {}

  lemma OthersStay(s: Sys, i: nat, c: Choice, t: Sys)
    requires Step(s, i, c) == Some(t)
    ensures t.ops == s.ops && |t.pcs| == |s.pcs| && !s.pcs[i].Done? && t.pcs == s.pcs[i := t.pcs[i]]
  {
    match s.ops[i] {
      case UpdateTrust(_, _) => UpdateShrinks(s, i, c, t);
      case RequestPromotion(_, _, _, _) => RequestShrinks(s, i, c, t);
      case ApprovePromotion(_, _, _) => ApproveShrinks(s, i, c, t);
    }
  }

  /** The step at which a handler past its check made it: its first one, with the trust file as it was then. */
  lemma {:induction false} CheckWasMade(ops: seq<Op>, f0: Files, schedule: seq<(nat, Choice)>, i: nat) returns (n: nat)
    requires Run(Init(ops, f0), schedule).Some? && i < |ops| && ops[i].RequestPromotion?
    requires i < |Run(Init(ops, f0), schedule).value.pcs| && PastCheck(Run(Init(ops, f0), schedule).value.pcs[i])
    ensures n < |schedule| && schedule[n].0 == i
    ensures var s := At(ops, f0, schedule, n);
            i < |s.pcs| && s.pcs[i].Start? && RequestAccepted(ops[i], s.files.trust)
    decreases |schedule|
  {
    var last := |schedule| - 1;
    assert schedule != [];
    RunSplits(Init(ops, f0), schedule, last);
    var s, x := Run(Init(ops, f0), schedule[..last]).value, schedule[last];
    assert schedule[last..] == [x] && schedule[last..][1..] == [];
    var t := Run(Init(ops, f0), schedule).value;
    assert Step(s, x.0, x.1) == Some(t);
    OthersStay(s, x.0, x.1, t);
    RunKeepsOps(Init(ops, f0), schedule[..last]);
    if x.0 == i { RequestStep(s, i, x.1, t); }
    if x.0 == i && s.pcs[i].Start? {
      n := last;
    } else {
      n := CheckWasMade(ops, f0, schedule[..last], i);
      assert schedule[..last][..n] == schedule[..n];
    }
  }

  lemma SaverPoint(op: Op, pc: Pc, i: nat, mine: seq<Commit>, p: nat)
    requires op.RequestPromotion? && Fits(op, pc) && Accounted(pc, i, mine)
    requires p < |mine| && mine[p].Adds?
    ensures pc == Done(RequestSaved)
  {}

  lemma AddsIts(ops: seq<Op>, f: Files, c: Commit)
    requires Apply(ops, f, c).Some? && c.Adds?
    ensures c.who < |ops| && ops[c.who].RequestPromotion? && ops[c.who].extensionId == Some(c.request.extensionId)
  {}

  lemma SavedRequest(t: Sys, f0: Files, k: nat)
    requires Inv(t, f0) && k < |t.log| && t.log[k].Adds?
    ensures t.log[k].who < |t.ops| == |t.pcs| && t.ops[t.log[k].who].RequestPromotion?
    ensures t.ops[t.log[k].who].extensionId == Some(t.log[k].request.extensionId)
    ensures PastCheck(t.pcs[t.log[k].who])
  {
    assert Apply(t.ops, Before(t.ops, f0, t.log, k), t.log[k]).Some? by { ReplayPrefix(t.ops, f0, t.log, k); }
    AddsIts(t.ops, Before(t.ops, f0, t.log, k), t.log[k]);
    var i := t.log[k].who;
    var p := InMine(t.log, k);
    SaverPoint(t.ops[i], t.pcs[i], i, Mine(t.log, i), p);
  }

  lemma NotYetCommitted(s: Sys, f0: Files, log: seq<Commit>, k: nat)
    requires Inv(s, f0) && s.log <= log && k < |log| && log[k].who < |s.pcs| && s.pcs[log[k].who].Start?
    ensures |s.log| <= k
  {
    assert Accounted(s.pcs[log[k].who], log[k].who, Mine(s.log, log[k].who));
    if k < |s.log| { var p := InMine(s.log, k); }
  }

  /**
   * In every run a recorded request had its id revoked in a file content that its handler read at its first step,
   * at or before the content its commit meets.
   */
  lemma {:induction false} RequestSawRevoked(ops: seq<Op>, f0: Files, schedule: seq<(nat, Choice)>, k: nat) returns (n: nat)
    requires Run(Init(ops, f0), schedule).Some?
    requires k < |Run(Init(ops, f0), schedule).value.log| && Run(Init(ops, f0), schedule).value.log[k].Adds?
    ensures var log := Run(Init(ops, f0), schedule).value.log;
            && n < |schedule| && schedule[n].0 == log[k].who
            && var s := At(ops, f0, schedule, n);
               && log[k].who < |s.pcs| && s.pcs[log[k].who].Start?
               && |s.log| <= k && s.log <= log && s.files == Before(ops, f0, log, |s.log|)
               && TierOf(s.files.trust, log[k].request.extensionId) == Some(Revoked)
  {
    ReachableInv(ops, f0, schedule);
    var t := Run(Init(ops, f0), schedule).value;
    SavedRequest(t, f0, k);
    n := CheckWasMade(ops, f0, schedule, t.log[k].who);
    var s := At(ops, f0, schedule, n);
    RunSplits(Init(ops, f0), schedule, n);
    LogOnlyGrows(s, schedule[n..]);
    ReachableInv(ops, f0, schedule[..n]);
    NotYetCommitted(s, f0, t.log, k);
    assert t.log[..|s.log|] == s.log;
  }

  /** `c` is an approval, by a profile other than the requester's, of a pending request asking for `tier` on `id`. */
  predicate TwoParty(ops: seq<Op>, f: Files, c: Commit, id: string, tier: Tier) {
    && c.Promotes? && c.who < |ops| && ops[c.who].ApprovePromotion? && ops[c.who].profile.Some?
    && c.index < |f.requests|
    && f.requests[c.index].status == Pending
    && f.requests[c.index].byProfile != ops[c.who].profile.value
    && f.requests[c.index].extensionId == id
    && ParseTier(f.requests[c.index].requestedTier) == Some(tier)
  }

  /** The tier the trust file gives `id` just before commit `k`. */
  function TierBefore(ops: seq<Op>, f0: Files, log: seq<Commit>, k: nat, id: string): Option<Tier>
    requires k <= |log|
  {
    TierOf(Before(ops, f0, log, k).trust, id)
  }

  lemma CommitKeepsEntry(ops: seq<Op>, f: Files, c: Commit, id: string)
    requires Apply(ops, f, c).Some? && TierOf(f.trust, id).Some?
    ensures TierOf(Apply(ops, f, c).value.trust, id).Some?
  {
    if c.Updates? {
      UpdateKeepsRevoked(f.trust, ops[c.who].extensionId, ops[c.who].tier, id);
    } else if c.Promotes? {
      TierAfterSet(f.trust, f.requests[c.index].extensionId, c.tier, id);
    }
  }

  lemma LiftingCommit(ops: seq<Op>, f: Files, c: Commit, id: string, tier: Tier)
    requires Apply(ops, f, c).Some? && Allowed(tier)
    requires TierOf(f.trust, id) == Some(Revoked) && TierOf(Apply(ops, f, c).value.trust, id) == Some(tier)
    ensures TwoParty(ops, f, c, id, tier)
  {
    if c.Updates? {
      UpdateKeepsRevoked(f.trust, ops[c.who].extensionId, ops[c.who].tier, id);
    } else if c.Promotes? {
      TierAfterSet(f.trust, f.requests[c.index].extensionId, c.tier, id);
    }
  }

  /**
   * In every interleaving, whichever commits fail, a commit that takes an id straight from revoked to an
   * allowed tier is a two-party approval of that id at that tier.
   */
  lemma DirectLiftIsTwoParty(ops: seq<Op>, f0: Files, schedule: seq<(nat, Choice)>, k: nat, id: string, tier: Tier)
    requires Run(Init(ops, f0), schedule).Some?
    requires k < |Run(Init(ops, f0), schedule).value.log|
    requires Allowed(tier)
    requires var log := Run(Init(ops, f0), schedule).value.log;
             && TierOf(Before(ops, f0, log, k).trust, id) == Some(Revoked)
             && TierOf(Before(ops, f0, log, k + 1).trust, id) == Some(tier)
    ensures var log := Run(Init(ops, f0), schedule).value.log;
            TwoParty(ops, Before(ops, f0, log, k), log[k], id, tier)
  {
    ReachableInv(ops, f0, schedule);
    var log := Run(Init(ops, f0), schedule).value.log;
    ReplayPrefix(ops, f0, log, k);
    LiftingCommit(ops, Before(ops, f0, log, k), log[k], id, tier);
  }

  /** Commit `m` is a two-party approval that sets `id` to an allowed tier. */
  ghost predicate ApprovedLift(ops: seq<Op>, f0: Files, log: seq<Commit>, m: nat, id: string)
    requires m < |log|
  {
    && TierBefore(ops, f0, log, m + 1, id).Some? && Allowed(TierBefore(ops, f0, log, m + 1, id).value)
    && TwoParty(ops, Before(ops, f0, log, m), log[m], id, TierBefore(ops, f0, log, m + 1, id).value)
  }

  /** Commit `m` takes `id` from quarantined to an allowed tier. */
  ghost predicate QuarantineLift(ops: seq<Op>, f0: Files, log: seq<Commit>, m: nat, id: string)
    requires m < |log|
  {
    && TierBefore(ops, f0, log, m, id) == Some(Quarantined)
    && TierBefore(ops, f0, log, m + 1, id).Some? && Allowed(TierBefore(ops, f0, log, m + 1, id).value)
  }

  lemma {:induction false} LiftedAt(ops: seq<Op>, f0: Files, log: seq<Commit>, m: nat, id: string)
    requires Replay(ops, f0, log).Some? && m < |log| && TierBefore(ops, f0, log, m, id).Some?
    requires TierBefore(ops, f0, log, m + 1, id).Some? && Allowed(TierBefore(ops, f0, log, m + 1, id).value)
    ensures || Allowed(TierBefore(ops, f0, log, m, id).value)
            || ApprovedLift(ops, f0, log, m, id)
            || QuarantineLift(ops, f0, log, m, id)
  {
    if TierBefore(ops, f0, log, m, id).value.Revoked? {
      ReplayPrefix(ops, f0, log, m);
      LiftingCommit(ops, Before(ops, f0, log, m), log[m], id, TierBefore(ops, f0, log, m + 1, id).value);
    }
  }

  ghost predicate ListedBefore(ops: seq<Op>, f0: Files, log: seq<Commit>, k: nat, id: string) {
    k <= |log| && TierBefore(ops, f0, log, k, id).Some?
  }

  /** The file contents around each commit. */
  ghost predicate Chain(ops: seq<Op>, log: seq<Commit>, contents: seq<Files>) {
    |contents| == |log| + 1 && forall n :: 0 <= n < |log| ==> Apply(ops, contents[n], log[n]) == Some(contents[n + 1])
  }

  lemma Contents(ops: seq<Op>, f0: Files, log: seq<Commit>, j: nat, k: nat) returns (contents: seq<Files>)
    requires Replay(ops, f0, log).Some? && j <= k <= |log|
    ensures Chain(ops, log, contents)
    ensures contents[j] == Before(ops, f0, log, j) && contents[k] == Before(ops, f0, log, k)
  {
    contents := seq(|log| + 1, n requires 0 <= n <= |log| => Before(ops, f0, log, n));
    forall n: nat | n < |log| ensures Apply(ops, contents[n], log[n]) == Some(contents[n + 1]) {
      ReplayPrefix(ops, f0, log, n);
    }
  }

  lemma {:induction false} ListedStays(ops: seq<Op>, log: seq<Commit>, contents: seq<Files>, j: nat, k: nat, id: string)
    requires Chain(ops, log, contents) && j <= k <= |log| && TierOf(contents[j].trust, id).Some?
    ensures TierOf(contents[k].trust, id).Some?
    decreases k
  {
    if j < k {
      ListedStays(ops, log, contents, j, k - 1, id);
      assert Apply(ops, contents[k - 1], log[k - 1]) == Some(contents[k - 1 + 1]);
      CommitKeepsEntry(ops, contents[k - 1], log[k - 1], id);
    }
  }

  lemma EntryStays(ops: seq<Op>, f0: Files, log: seq<Commit>, j: nat, k: nat, id: string)
    requires Replay(ops, f0, log).Some? && j <= k <= |log| && ListedBefore(ops, f0, log, j, id)
    ensures ListedBefore(ops, f0, log, k, id)
  {
    var contents := Contents(ops, f0, log, j, k);
    ListedStays(ops, log, contents, j, k, id);
  }

  ghost predicate AllowedBefore(ops: seq<Op>, f0: Files, log: seq<Commit>, k: nat, id: string) {
    k <= |log| && TierBefore(ops, f0, log, k, id).Some? && Allowed(TierBefore(ops, f0, log, k, id).value)
  }

  ghost predicate LiftAt(ops: seq<Op>, f0: Files, log: seq<Commit>, m: nat, id: string) {
    m < |log| && (ApprovedLift(ops, f0, log, m, id) || QuarantineLift(ops, f0, log, m, id))
  }

  /** Where something that did not hold at `j` and holds at `k` was last brought about. */
  lemma {:induction false} LastChange(holds: nat -> bool, change: nat -> bool, j: nat, k: nat) returns (m: nat)
    requires j < k && !holds(j) && holds(k)
    requires forall m: nat :: j <= m < k && holds(m + 1) ==> holds(m) || change(m)
    ensures j <= m < k && change(m)
    decreases k
  {
    m := k - 1;
    assert holds(m + 1);
    if !change(m) { m := LastChange(holds, change, j, m); }
  }

  lemma {:induction false} AllowedFrom(ops: seq<Op>, f0: Files, log: seq<Commit>, j: nat, n: nat, id: string)
    requires Replay(ops, f0, log).Some? && j <= n < |log| && TierBefore(ops, f0, log, j, id).Some?
    requires AllowedBefore(ops, f0, log, n + 1, id)
    ensures AllowedBefore(ops, f0, log, n, id) || LiftAt(ops, f0, log, n, id)
  {
    EntryStays(ops, f0, log, j, n, id);
    LiftedAt(ops, f0, log, n, id);
  }

  ghost predicate ListedNotAllowed(ops: seq<Op>, f0: Files, log: seq<Commit>, j: nat, id: string) {
    j <= |log| && TierBefore(ops, f0, log, j, id).Some? && !AllowedBefore(ops, f0, log, j, id)
  }

  lemma {:induction false} AllowedFromThere(ops: seq<Op>, f0: Files, log: seq<Commit>, j: nat, id: string)
    requires Replay(ops, f0, log).Some? && ListedNotAllowed(ops, f0, log, j, id)
    ensures forall n: nat :: j <= n && AllowedBefore(ops, f0, log, n + 1, id)
              ==> AllowedBefore(ops, f0, log, n, id) || LiftAt(ops, f0, log, n, id)
  {
    forall n: nat | j <= n && AllowedBefore(ops, f0, log, n + 1, id)
      ensures AllowedBefore(ops, f0, log, n, id) || LiftAt(ops, f0, log, n, id)
    {
      AllowedFrom(ops, f0, log, j, n, id);
    }
  }

  lemma {:induction false} LastLift(ops: seq<Op>, f0: Files, log: seq<Commit>, j: nat, k: nat, id: string) returns (m: nat)
    requires Replay(ops, f0, log).Some? && j < k
    requires ListedNotAllowed(ops, f0, log, j, id) && AllowedBefore(ops, f0, log, k, id)
    ensures j <= m < k && LiftAt(ops, f0, log, m, id)
  {
    AllowedFromThere(ops, f0, log, j, id);
    m := LastChange((n: nat) => AllowedBefore(ops, f0, log, n, id), (n: nat) => LiftAt(ops, f0, log, n, id), j, k);
  }

  /**
   * In every interleaving an id revoked at one point and allowed at a later one was approved by two parties in
   * between, or was quarantined strictly in between and lifted from there.
   */
  lemma {:induction false} LiftNeedsApprovalOrQuarantine(ops: seq<Op>, f0: Files, schedule: seq<(nat, Choice)>, j: nat, k: nat, id: string)
      returns (m: nat)
    requires Run(Init(ops, f0), schedule).Some?
    requires var log := Run(Init(ops, f0), schedule).value.log;
             && j < k <= |log| && TierBefore(ops, f0, log, j, id) == Some(Revoked) && AllowedBefore(ops, f0, log, k, id)
    ensures var log := Run(Init(ops, f0), schedule).value.log;
            && j <= m < k
            && (ApprovedLift(ops, f0, log, m, id) || (j < m && QuarantineLift(ops, f0, log, m, id)))
  {
    var log := Run(Init(ops, f0), schedule).value.log;
    assert Replay(ops, f0, log).Some? by { ReachableInv(ops, f0, schedule); }
    m := LastLift(ops, f0, log, j, k, id);
  }

  lemma UpdatesApproveNothing(ops: seq<Op>, f0: Files, log: seq<Commit>, m: nat, id: string)
    requires m < |log| && forall i :: 0 <= i < |ops| ==> ops[i].UpdateTrust?
    ensures !ApprovedLift(ops, f0, log, m, id)
  {}

  /** With plain updates only, a revoked id is lifted exactly when some commit finds it quarantined and allows it. */
  lemma {:induction false} UpdatesLiftFromQuarantineOnly(ops: seq<Op>, f0: Files, schedule: seq<(nat, Choice)>, j: nat, id: string)
    requires Run(Init(ops, f0), schedule).Some? && forall i :: 0 <= i < |ops| ==> ops[i].UpdateTrust?
    requires var log := Run(Init(ops, f0), schedule).value.log;
             j <= |log| && TierBefore(ops, f0, log, j, id) == Some(Revoked)
    ensures var log := Run(Init(ops, f0), schedule).value.log;
            (exists k: nat :: j < k && AllowedBefore(ops, f0, log, k, id))
            <==> exists m: nat :: j < m < |log| && QuarantineLift(ops, f0, log, m, id)
  {
    var log := Run(Init(ops, f0), schedule).value.log;
    if k: nat :| j < k && AllowedBefore(ops, f0, log, k, id) {
      var m := LiftNeedsApprovalOrQuarantine(ops, f0, schedule, j, k, id);
      UpdatesApproveNothing(ops, f0, log, m, id);
      assert QuarantineLift(ops, f0, log, m, id);
    }
    if m: nat :| j < m < |log| && QuarantineLift(ops, f0, log, m, id) {
      assert AllowedBefore(ops, f0, log, m + 1, id);
    }
  }

  /** What holds at `j` and is kept by each step up to `k` holds at `k`. */
  lemma {:induction false} Upward(holds: nat -> bool, j: nat, k: nat)
    requires j <= k && holds(j)
    requires forall m: nat, n: nat :: j <= m && n == m + 1 && n <= k && holds(m) ==> holds(n)
    ensures holds(k)
    decreases k
  {
    if j < k { Upward(holds, j, k - 1); }
  }

  ghost predicate ApprovedBefore(ops: seq<Op>, f0: Files, log: seq<Commit>, k: nat, index: nat) {
    k <= |log| && index < |Before(ops, f0, log, k).requests| && Before(ops, f0, log, k).requests[index].status == Approved
  }

  lemma StaysApprovedOnce(ops: seq<Op>, f0: Files, log: seq<Commit>, k: nat, index: nat)
    requires Replay(ops, f0, log).Some? && k < |log| && ApprovedBefore(ops, f0, log, k, index)
    ensures ApprovedBefore(ops, f0, log, k + 1, index)
  {
    ReplayPrefix(ops, f0, log, k);
  }

  lemma StaysApproved(ops: seq<Op>, f0: Files, log: seq<Commit>, j: nat, k: nat, index: nat)
    requires Replay(ops, f0, log).Some? && j <= k <= |log| && ApprovedBefore(ops, f0, log, j, index)
    ensures ApprovedBefore(ops, f0, log, k, index)
  {
    forall m: nat, n: nat | j <= m && n == m + 1 && n <= k && ApprovedBefore(ops, f0, log, m, index)
      ensures ApprovedBefore(ops, f0, log, n, index)
    {
      StaysApprovedOnce(ops, f0, log, m, index);
    }
    Upward((n: nat) => ApprovedBefore(ops, f0, log, n, index), j, k);
  }

  lemma PendingWhenCommitted(ops: seq<Op>, f: Files, c: Commit)
    requires Apply(ops, f, c).Some? && (c.Approves? || c.Promotes?)
    ensures c.index < |f.requests| && f.requests[c.index].status == Pending
    ensures c.Approves? ==> c.index < |Apply(ops, f, c).value.requests|
                            && Apply(ops, f, c).value.requests[c.index].status == Approved
  {
  }

  lemma OnceInLog(ops: seq<Op>, f0: Files, log: seq<Commit>, j: nat, k: nat)
    requires Replay(ops, f0, log).Some?
    requires j < k < |log| && log[j].Approves? && (log[k].Approves? || log[k].Promotes?)
    ensures log[k].index != log[j].index
  {
    ReplayPrefix(ops, f0, log, j);
    ReplayPrefix(ops, f0, log, k);
    PendingWhenCommitted(ops, Before(ops, f0, log, j), log[j]);
    PendingWhenCommitted(ops, Before(ops, f0, log, k), log[k]);
    StaysApproved(ops, f0, log, j + 1, k, log[j].index);
  }

  /** A request is approved on disk at most once, and never promoted after that. */
  lemma ApprovedAtMostOnce(ops: seq<Op>, f0: Files, schedule: seq<(nat, Choice)>, j: nat, k: nat)
    requires Run(Init(ops, f0), schedule).Some?
    requires var log := Run(Init(ops, f0), schedule).value.log; j < k < |log| && log[j].Approves? && !log[k].Updates? && !log[k].Adds?
    ensures var log := Run(Init(ops, f0), schedule).value.log; log[k].index != log[j].index
  {
    ReachableInv(ops, f0, schedule);
    var log := Run(Init(ops, f0), schedule).value.log;
    OnceInLog(ops, f0, log, j, k);
  }

  lemma PromotionSetsTier(ops: seq<Op>, f0: Files, log: seq<Commit>, j: nat)
    requires Replay(ops, f0, log).Some? && j < |log| && log[j].Promotes?
    ensures exists id, tier :: TwoParty(ops, Before(ops, f0, log, j), log[j], id, tier)
                 && TierOf(Before(ops, f0, log, j + 1).trust, id) == Some(tier)
  {
    ReplayPrefix(ops, f0, log, j);
    var f := Before(ops, f0, log, j);
    var id := f.requests[log[j].index].extensionId;
    TierAfterSet(f.trust, id, log[j].tier, id);
    assert TwoParty(ops, f, log[j], id, log[j].tier);
  }

  /** The same handler's trust commit at `j` set the tier the request behind the approval at `k` asks for. */
  ghost predicate Prepared(ops: seq<Op>, f0: Files, log: seq<Commit>, j: nat, k: nat)
    requires Replay(ops, f0, log).Some? && j < k < |log| && log[k].Approves?
  {
    && log[j].who == log[k].who && log[j].Promotes? && log[j].index == log[k].index
    && exists id, tier :: TwoParty(ops, Before(ops, f0, log, j), log[j], id, tier)
         && TierOf(Before(ops, f0, log, j + 1).trust, id) == Some(tier)
  }

  /** An approval reaches the disk only after a trust commit that set the tier its request asks for. */
  lemma ApprovalFollowsItsPromotion(ops: seq<Op>, f0: Files, schedule: seq<(nat, Choice)>, k: nat)
    requires Run(Init(ops, f0), schedule).Some?
    requires var log := Run(Init(ops, f0), schedule).value.log; k < |log| && log[k].Approves?
    ensures var log := Run(Init(ops, f0), schedule).value.log;
            Replay(ops, f0, log).Some? && exists j: nat :: j < k && Prepared(ops, f0, log, j, k)
  {
    var log := Run(Init(ops, f0), schedule).value.log;
    assert Replay(ops, f0, log).Some? && PromotedBefore(log, k) by { ReachableInv(ops, f0, schedule); }
    var j: nat :| j < k && log[j] == Promotes(log[k].who, log[k].index, log[k].tier);
    PromotionSetsTier(ops, f0, log, j);
    assert Prepared(ops, f0, log, j, k);
  }

  lemma {:induction false} InMine(log: seq<Commit>, k: nat) returns (p: nat)
    requires k < |log|
    ensures p < |Mine(log, log[k].who)| && Mine(log, log[k].who)[p] == log[k]
  {
    var i, shorter := log[k].who, log[..|log| - 1];
    if k == |log| - 1 {
      p := |Mine(shorter, i)|;
    } else {
      p := InMine(shorter, k);
    }
  }

  lemma {:induction false} TwoInMine(log: seq<Commit>, j: nat, k: nat) returns (p: nat, q: nat)
    requires j < k < |log| && log[j].who == log[k].who
    ensures p < q < |Mine(log, log[k].who)|
    ensures Mine(log, log[k].who)[p] == log[j] && Mine(log, log[k].who)[q] == log[k]
  {
    var i, shorter := log[k].who, log[..|log| - 1];
    if k == |log| - 1 {
      p := InMine(shorter, j);
      q := |Mine(shorter, i)|;
    } else {
      p, q := TwoInMine(shorter, j, k);
    }
  }

  /** The handler is between its two commits, or its approvals commit failed. */
  predicate BetweenCommits(pc: Pc) {
    pc.AppTrustCommitted? || pc.AppMutated? || pc == Done(ApprovalSaveFailed)
  }

  lemma PromoterPoint(op: Op, pc: Pc, i: nat, mine: seq<Commit>, p: nat)
    requires op.ApprovePromotion? && Fits(op, pc) && Accounted(pc, i, mine)
    requires p < |mine| && mine[p].Promotes?
    ensures BetweenCommits(pc) || pc == Done(PromotionApproved)
  {
  }

  lemma PromoterIs(t: Sys, f0: Files, j: nat)
    requires Inv(t, f0) && j < |t.log| && t.log[j].Promotes?
    ensures t.log[j].who < |t.pcs| && t.ops[t.log[j].who].ApprovePromotion?
    ensures BetweenCommits(t.pcs[t.log[j].who]) || t.pcs[t.log[j].who] == Done(PromotionApproved)
  {
    ReplayPrefix(t.ops, f0, t.log, j);
    var i := t.log[j].who;
    assert i < |t.ops| && t.ops[i].ApprovePromotion?;
    var p := InMine(t.log, j);
    PromoterPoint(t.ops[i], t.pcs[i], i, Mine(t.log, i), p);
  }

  lemma ApproverPoint(i: nat, mine: seq<Commit>, p: nat)
    requires Accounted(Done(PromotionApproved), i, mine) && p < |mine| && mine[p].Promotes?
    ensures |mine| == 2 && mine[1].Approves? && mine[1].index == mine[p].index
  {}

  lemma ApprovalOf(t: Sys, f0: Files, j: nat) returns (m: nat)
    requires Inv(t, f0) && j < |t.log| && t.log[j].Promotes? && t.log[j].who < |t.pcs|
    requires t.pcs[t.log[j].who] == Done(PromotionApproved)
    ensures m < |t.log| && t.log[m].Approves? && t.log[m].who == t.log[j].who && t.log[m].index == t.log[j].index
  {
    var i := t.log[j].who;
    var mine := Mine(t.log, i);
    var p := InMine(t.log, j);
    assert Accounted(t.pcs[i], i, mine);
    ApproverPoint(i, mine, p);
    m := MineIsInLog(t.log, i, mine[1]);
    MineIsMine(t.log, i, 1);
  }

  lemma {:induction false} MineIsMine(log: seq<Commit>, i: nat, p: nat)
    requires p < |Mine(log, i)|
    ensures Mine(log, i)[p].who == i
  {
    if p < |Mine(log[..|log| - 1], i)| { MineIsMine(log[..|log| - 1], i, p); }
  }

  lemma OnePromotionPoint(op: Op, pc: Pc, i: nat, mine: seq<Commit>, p: nat, q: nat)
    requires op.ApprovePromotion? && Fits(op, pc) && Accounted(pc, i, mine) && p < q < |mine|
    ensures !(mine[p].Promotes? && mine[q].Promotes?)
  {}

  lemma OnePromotionEach(t: Sys, f0: Files, j: nat, k: nat)
    requires Inv(t, f0) && j < k < |t.log| && t.log[j].Promotes? && t.log[k].Promotes?
    ensures t.log[j].who != t.log[k].who
  {
    PromoterIs(t, f0, k);
    var i := t.log[k].who;
    if t.log[j].who == i {
      var p, q := TwoInMine(t.log, j, k);
      OnePromotionPoint(t.ops[i], t.pcs[i], i, Mine(t.log, i), p, q);
    }
  }

  lemma PromotesFrom(s: Sys, i: nat, c: Choice, t: Sys)
    requires i < |s.pcs| == |s.ops| && s.ops[i].ApprovePromotion? && StepApprove(s, i, c) == Some(t)
    ensures t.log == s.log || (|t.log| == |s.log| + 1 && t.log[..|s.log|] == s.log && t.log[|s.log|].who == i)
    ensures t.log != s.log && t.log[|s.log|].Promotes? ==> s.pcs[i].AppTrustMutated?
  {}

  /** One step's commit, if it makes one, and where a promoting commit comes from. */
  lemma StepCommits(s: Sys, i: nat, c: Choice, t: Sys)
    requires Step(s, i, c) == Some(t)
    ensures t.log == s.log || (|t.log| == |s.log| + 1 && t.log[..|s.log|] == s.log && t.log[|s.log|].who == i)
    ensures t.log != s.log && t.log[|s.log|].Promotes? ==> s.pcs[i].AppTrustMutated?
  {
    match s.ops[i] {
      case UpdateTrust(_, _) => assert StepUpdate(s, i, c) == Some(t);
      case RequestPromotion(_, _, _, _) => assert StepRequest(s, i, c) == Some(t);
      case ApprovePromotion(_, _, _) => PromotesFrom(s, i, c, t);
    }
  }

  /** Of two promotions of one request the handler of the earlier has ended with its approvals commit failed. */
  ghost predicate FailedFirst(s: Sys, j: nat, k: nat)
    requires j < k < |s.log|
  {
    || !s.log[j].Promotes?
    || !s.log[k].Promotes?
    || s.log[j].index != s.log[k].index
    || (s.log[j].who < |s.pcs| && s.pcs[s.log[j].who] == Done(ApprovalSaveFailed))
  }

  ghost predicate Superseded(s: Sys) { forall j: nat, k: nat :: j < k < |s.log| ==> FailedFirst(s, j, k) }

  /** A handler that is about to promote holds the approvals lock, so no other is between its two commits. */
  lemma NobodyBetween(s: Sys, i: nat, h: nat)
    requires LocksMatch(s) && i < |s.pcs| && h < |s.pcs| && s.pcs[i].AppTrustMutated? && BetweenCommits(s.pcs[h])
    ensures s.pcs[h] == Done(ApprovalSaveFailed)
  {
    assert HoldsRequests(s.pcs[i]) && (HoldsRequests(s.pcs[h]) <==> s.requestsLock == Some(h));
  }

  lemma {:induction false} ApprovedIsNotPromoted(s: Sys, t: Sys, f0: Files, j: nat)
    requires Inv(s, f0) && Inv(t, f0) && |t.log| == |s.log| + 1 && t.log[..|s.log|] == s.log && j < |s.log|
    requires s.log[j].Promotes? && s.log[j].who < |s.pcs| && s.pcs[s.log[j].who] == Done(PromotionApproved)
    requires t.log[|s.log|].Promotes?
    ensures t.log[|s.log|].index != s.log[j].index
  {
    var m := ApprovalOf(s, f0, j);
    assert t.log[m] == s.log[m];
    OnceInLog(t.ops, f0, t.log, m, |s.log|);
  }

  lemma {:induction false} NewPromotionSupersedes(s: Sys, i: nat, t: Sys, f0: Files, j: nat)
    requires Inv(s, f0) && Inv(t, f0) && |t.log| == |s.log| + 1 && t.log[..|s.log|] == s.log && j < |s.log|
    requires i < |s.pcs| && s.pcs[i].AppTrustMutated? && t.log[|s.log|].Promotes?
    requires s.log[j].Promotes? && s.log[j].index == t.log[|s.log|].index
    ensures s.log[j].who < |s.pcs| && s.pcs[s.log[j].who] == Done(ApprovalSaveFailed)
  {
    PromoterIs(s, f0, j);
    if s.pcs[s.log[j].who] == Done(PromotionApproved) {
      ApprovedIsNotPromoted(s, t, f0, j);
    } else {
      NobodyBetween(s, i, s.log[j].who);
    }
  }

  lemma OldPairStays(s: Sys, i: nat, t: Sys, j: nat, k: nat)
    requires j < k < |s.log| <= |t.log| && t.log[..|s.log|] == s.log && FailedFirst(s, j, k)
    requires i < |s.pcs| == |t.pcs| && !s.pcs[i].Done? && t.pcs == s.pcs[i := t.pcs[i]]
    ensures FailedFirst(t, j, k)
  {
    assert t.log[j] == s.log[j] && t.log[k] == s.log[k];
  }

  lemma {:induction false} NewPairHolds(s: Sys, i: nat, t: Sys, f0: Files, j: nat)
    requires Inv(s, f0) && Inv(t, f0) && |t.log| == |s.log| + 1 && t.log[..|s.log|] == s.log && j < |s.log|
    requires i < |s.pcs| == |t.pcs| && !s.pcs[i].Done? && t.pcs == s.pcs[i := t.pcs[i]]
    requires t.log[|s.log|].Promotes? ==> s.pcs[i].AppTrustMutated?
    ensures FailedFirst(t, j, |s.log|)
  {
    assert t.log[j] == s.log[j];
    if t.log[j].Promotes? && t.log[|s.log|].Promotes? && t.log[j].index == t.log[|s.log|].index {
      NewPromotionSupersedes(s, i, t, f0, j);
    }
  }

  /** A step as seen from the log and the program points: at most one new commit, by the handler that moved. */
  predicate Commits(s: Sys, i: nat, t: Sys) {
    && i < |s.pcs| == |t.pcs| && !s.pcs[i].Done? && t.pcs == s.pcs[i := t.pcs[i]]
    && (|t.log| == |s.log| || |t.log| == |s.log| + 1) && t.log[..|s.log|] == s.log
    && (|t.log| > |s.log| && t.log[|s.log|].Promotes? ==> s.pcs[i].AppTrustMutated?)
  }

  lemma StepIsCommits(s: Sys, i: nat, c: Choice, t: Sys)
    requires Step(s, i, c) == Some(t)
    ensures Commits(s, i, t)
  {
    StepCommits(s, i, c, t);
    OthersStay(s, i, c, t);
  }

  lemma OldPairsStay(s: Sys, i: nat, t: Sys)
    requires Superseded(s) && Commits(s, i, t)
    ensures forall j: nat, k: nat :: j < k < |s.log| ==> FailedFirst(t, j, k)
  {
    forall j: nat, k: nat | j < k < |s.log| ensures FailedFirst(t, j, k) {
      assert FailedFirst(s, j, k);
      OldPairStays(s, i, t, j, k);
    }
  }

  lemma {:induction false} NewPairsHold(s: Sys, i: nat, t: Sys, f0: Files)
    requires Inv(s, f0) && Inv(t, f0) && Commits(s, i, t) && |t.log| == |s.log| + 1
    ensures forall j: nat :: j < |s.log| ==> FailedFirst(t, j, |s.log|)
  {
    forall j: nat | j < |s.log| ensures FailedFirst(t, j, |s.log|) { NewPairHolds(s, i, t, f0, j); }
  }

  lemma AllPairs(s: Sys, t: Sys)
    requires |t.log| == |s.log| || |t.log| == |s.log| + 1
    requires forall j: nat, k: nat :: j < k < |s.log| ==> FailedFirst(t, j, k)
    requires |t.log| == |s.log| + 1 ==> forall j: nat :: j < |s.log| ==> FailedFirst(t, j, |s.log|)
    ensures Superseded(t)
  {}

  lemma CommitsKeepSuperseded(s: Sys, i: nat, t: Sys, f0: Files)
    requires Inv(s, f0) && Inv(t, f0) && Superseded(s) && Commits(s, i, t)
    ensures Superseded(t)
  {
    OldPairsStay(s, i, t);
    if |t.log| == |s.log| + 1 { NewPairsHold(s, i, t, f0); }
    AllPairs(s, t);
  }

  lemma {:induction false} RunKeepsSuperseded(s: Sys, schedule: seq<(nat, Choice)>, f0: Files)
    requires Inv(s, f0) && Superseded(s) && Run(s, schedule).Some?
    ensures Superseded(Run(s, schedule).value)
    decreases |schedule|
  {
    if schedule != [] {
      var t := Step(s, schedule[0].0, schedule[0].1).value;
      StepKeepsInv(s, schedule[0].0, schedule[0].1, t, f0);
      StepIsCommits(s, schedule[0].0, schedule[0].1, t);
      CommitsKeepSuperseded(s, schedule[0].0, t, f0);
      RunKeepsSuperseded(t, schedule[1..], f0);
    }
  }

  /**
   * A request is promoted a second time only after a failed approvals commit: in every interleaving, of two
   * promotions of one request the earlier is another handler's, and its approvals commit failed.
   */
  lemma {:induction false} SecondPromotionMeansFailedSave(ops: seq<Op>, f0: Files, schedule: seq<(nat, Choice)>, j: nat, k: nat)
    requires Run(Init(ops, f0), schedule).Some?
    requires var log := Run(Init(ops, f0), schedule).value.log;
             j < k < |log| && log[j].Promotes? && log[k].Promotes? && log[j].index == log[k].index
    ensures var t := Run(Init(ops, f0), schedule).value;
            && t.log[j].who < |t.pcs| && t.pcs[t.log[j].who] == Done(ApprovalSaveFailed)
            && t.log[j].who != t.log[k].who
  {
    ReachableInv(ops, f0, schedule);
    InitInv(ops, f0);
    RunKeepsSuperseded(Init(ops, f0), schedule, f0);
    var t := Run(Init(ops, f0), schedule).value;
    assert FailedFirst(t, j, k);
    OnePromotionEach(t, f0, j, k);
  }

  // ---- progress ----

  /** No deadlock: while some handler is unfinished, some handler can take a step whose I/O succeeds. */
  lemma NoDeadlock(ops: seq<Op>, f0: Files, schedule: seq<(nat, Choice)>, c: Choice)
    requires Run(Init(ops, f0), schedule).Some? && c.ok
    requires exists i :: 0 <= i < |ops| && i < |Run(Init(ops, f0), schedule).value.pcs|
               && !Run(Init(ops, f0), schedule).value.pcs[i].Done?
    ensures exists i: nat :: i < |ops| && Step(Run(Init(ops, f0), schedule).value, i, c).Some?
  {
    var t := Run(Init(ops, f0), schedule).value;
    ReachableInv(ops, f0, schedule);
    if t.trustLock.Some? {
      HolderMoves(t, t.trustLock.value, c);
    } else if t.requestsLock.Some? {
      HolderMoves(t, t.requestsLock.value, c);
    } else {
      var i :| 0 <= i < |ops| && !t.pcs[i].Done?;
      HolderMoves(t, i, c);
    }
  }

  /** An unfinished handler can move when each lock it still needs is its own or free. */
  lemma HolderMoves(s: Sys, i: nat, c: Choice)
    requires LocksMatch(s) && i < |s.pcs| && CopiesCurrent(s.ops[i], s.pcs[i], s.files) && c.ok && !s.pcs[i].Done?
    requires HoldsTrust(s.pcs[i]) || s.trustLock == None
    requires HoldsRequests(s.pcs[i]) || HoldsTrust(s.pcs[i]) || s.requestsLock == None
    requires Fits(s.ops[i], s.pcs[i])
    ensures Step(s, i, c).Some?
  {
  }

  /** Steps a handler still has to take at most. */
  function Remaining(pc: Pc): nat {
    match pc
    case Start => 7
    case UpdLoaded(_) => 2 case UpdMutated(_) => 1
    case ReqChecked => 3 case ReqLoaded(_) => 2 case ReqMutated(_, _) => 1
    case AppLoaded(_) => 6 case AppChecked(_, _, _) => 5 case AppTrustLoaded(_, _, _, _) => 4
    case AppTrustMutated(_, _, _, _) => 3 case AppTrustCommitted(_, _, _) => 2 case AppMutated(_, _, _, _) => 1
    case Done(_) => 0
  }

  function Work(pcs: seq<Pc>): nat {
    if pcs == [] then 0 else Remaining(pcs[0]) + Work(pcs[1..])
  }

  lemma {:induction false} WorkDrops(pcs: seq<Pc>, i: nat, pc: Pc)
    requires i < |pcs| && Remaining(pc) < Remaining(pcs[i])
    ensures Work(pcs[i := pc]) < Work(pcs)
  {
    if i == 0 {
      assert pcs[i := pc][1..] == pcs[1..];
    } else {
      WorkDrops(pcs[1..], i - 1, pc);
      assert pcs[i := pc][1..] == pcs[1..][i - 1 := pc];
    }
  }

  predicate Shrinks(s: Sys, i: nat, t: Sys) {
    i < |s.pcs| == |t.pcs| && t.pcs == s.pcs[i := t.pcs[i]] && Remaining(t.pcs[i]) < Remaining(s.pcs[i])
  }

  lemma UpdateShrinks(s: Sys, i: nat, c: Choice, t: Sys)
    requires i < |s.pcs| == |s.ops| && s.ops[i].UpdateTrust? && StepUpdate(s, i, c) == Some(t)
    ensures Shrinks(s, i, t)
  {
  }

  lemma RequestShrinks(s: Sys, i: nat, c: Choice, t: Sys)
    requires i < |s.pcs| == |s.ops| && s.ops[i].RequestPromotion? && StepRequest(s, i, c) == Some(t)
    ensures Shrinks(s, i, t)
  {
  }

  lemma ApproveShrinks(s: Sys, i: nat, c: Choice, t: Sys)
    requires i < |s.pcs| == |s.ops| && s.ops[i].ApprovePromotion? && StepApprove(s, i, c) == Some(t)
    ensures Shrinks(s, i, t)
  {
  }

  lemma StepDropsWork(s: Sys, i: nat, c: Choice, t: Sys)
    requires Step(s, i, c) == Some(t)
    ensures Work(t.pcs) < Work(s.pcs)
  {
    match s.ops[i] {
      case UpdateTrust(_, _) => UpdateShrinks(s, i, c, t);
      case RequestPromotion(_, _, _, _) => RequestShrinks(s, i, c, t);
      case ApprovePromotion(_, _, _) => ApproveShrinks(s, i, c, t);
    }
    WorkDrops(s.pcs, i, t.pcs[i]);
  }

  lemma {:induction false} RunIsBounded(s: Sys, schedule: seq<(nat, Choice)>)
    requires Run(s, schedule).Some?
    ensures |schedule| + Work(Run(s, schedule).value.pcs) <= Work(s.pcs)
    decreases |schedule|
  {
    if schedule != [] {
      var t := Step(s, schedule[0].0, schedule[0].1).value;
      StepDropsWork(s, schedule[0].0, schedule[0].1, t);
      RunIsBounded(t, schedule[1..]);
    }
  }

  lemma {:induction false} WorkOfStarts(n: nat)
    ensures Work(seq(n, _ => Start)) == 7 * n
  {
    if n > 0 {
      WorkOfStarts(n - 1);
      assert seq(n, _ => Start)[1..] == seq(n - 1, _ => Start);
    }
  }

  /** Every interleaving ends: n handlers take at most 7n steps in all. */
  lemma {:induction false} EveryRunEnds(ops: seq<Op>, f0: Files, schedule: seq<(nat, Choice)>)
    requires Run(Init(ops, f0), schedule).Some?
    ensures |schedule| <= 7 * |ops|
  {
    RunIsBounded(Init(ops, f0), schedule);
    WorkOfStarts(|ops|);
  }

  // ---- one approval handler running undisturbed ----

  lemma RunCons(s: Sys, i: nat, c: Choice, rest: seq<(nat, Choice)>)
    requires Step(s, i, c).Some?
    ensures Run(s, [(i, c)] + rest) == Run(Step(s, i, c).value, rest)
  {
    assert ([(i, c)] + rest)[1..] == rest;
  }

  function Alone(i: nat, c: Choice, n: nat, last: Choice): seq<(nat, Choice)> {
    if n == 0 then [(i, last)] else [(i, c)] + Alone(i, c, n - 1, last)
  }

  lemma ApprovalUpToCheck(s: Sys, i: nat, c: Choice, last: Choice, index: nat, tier: Tier)
    requires i < |s.pcs| == |s.ops| && s.pcs[i].Start? && c.ok && s.trustLock == s.requestsLock == None
    requires Sanctioned(s.ops[i], s.files.requests, index, tier)
    ensures var t := s.(pcs := s.pcs[i := AppChecked(s.files.requests, index, tier)], requestsLock := Some(i));
            Run(s, Alone(i, c, 6, last)) == Run(t, Alone(i, c, 4, last))
  {
    var s1 := Step(s, i, c).value;
    RunCons(s, i, c, Alone(i, c, 5, last));
    var s2 := Step(s1, i, c).value;
    RunCons(s1, i, c, Alone(i, c, 4, last));
    assert s2.pcs == s.pcs[i := AppChecked(s.files.requests, index, tier)];
  }

  lemma ApprovalFromCheck(s: Sys, i: nat, c: Choice, last: Choice, index: nat, tier: Tier)
    requires i < |s.pcs| == |s.ops| && s.pcs[i] == AppChecked(s.files.requests, index, tier) && c.ok && s.trustLock == None
    requires s.ops[i].ApprovePromotion? && index < |s.files.requests|
    requires Promoted(s.files.trust, s.files.requests[index].extensionId, tier).Ok?
    ensures var trust := Promoted(s.files.trust, s.files.requests[index].extensionId, tier).value;
            var t := s.(pcs := s.pcs[i := AppTrustCommitted(s.files.requests, index, tier)],
                        files := s.files.(trust := trust), log := s.log + [Promotes(i, index, tier)]);
            Run(s, Alone(i, c, 4, last)) == Run(t, Alone(i, c, 1, last))
  {
    var s3 := Step(s, i, c).value;
    RunCons(s, i, c, Alone(i, c, 3, last));
    var s4 := Step(s3, i, c).value;
    RunCons(s3, i, c, Alone(i, c, 2, last));
    var s5 := Step(s4, i, c).value;
    RunCons(s4, i, c, Alone(i, c, 1, last));
    assert s5.pcs == s.pcs[i := AppTrustCommitted(s.files.requests, index, tier)];
  }

  lemma ApprovalUpToTrustCommit(s: Sys, i: nat, c: Choice, last: Choice, index: nat, tier: Tier)
    requires i < |s.pcs| == |s.ops| && s.pcs[i].Start? && c.ok && s.trustLock == s.requestsLock == None
    requires Sanctioned(s.ops[i], s.files.requests, index, tier)
    requires Promoted(s.files.trust, s.files.requests[index].extensionId, tier).Ok?
    ensures var trust := Promoted(s.files.trust, s.files.requests[index].extensionId, tier).value;
            var t := s.(pcs := s.pcs[i := AppTrustCommitted(s.files.requests, index, tier)], requestsLock := Some(i),
                        files := s.files.(trust := trust), log := s.log + [Promotes(i, index, tier)]);
            Run(s, Alone(i, c, 6, last)) == Run(t, Alone(i, c, 1, last))
  {
    ApprovalUpToCheck(s, i, c, last, index, tier);
    var s2 := s.(pcs := s.pcs[i := AppChecked(s.files.requests, index, tier)], requestsLock := Some(i));
    ApprovalFromCheck(s2, i, c, last, index, tier);
    assert s2.pcs[i := AppTrustCommitted(s.files.requests, index, tier)]
        == s.pcs[i := AppTrustCommitted(s.files.requests, index, tier)];
  }

  /** The state once the approvals commit succeeded or failed. */
  function Recorded(s: Sys, i: nat, c: Choice, ok: bool, index: nat, tier: Tier): Sys
    requires i < |s.pcs| == |s.ops| && s.ops[i].ApprovePromotion? && s.ops[i].profile.Some? && index < |s.files.requests|
  {
    if ok then
      var rs := MarkApproved(s.files.requests, index, c.now, s.ops[i].session, s.ops[i].profile.value);
      s.(pcs := s.pcs[i := Done(PromotionApproved)], requestsLock := None, files := s.files.(requests := rs),
         log := s.log + [Approves(i, index, tier, c.now)])
    else s.(pcs := s.pcs[i := Done(ApprovalSaveFailed)], requestsLock := None)
  }

  lemma ApprovalFromTrustCommit(s: Sys, i: nat, c: Choice, last: Choice, index: nat, tier: Tier)
    requires i < |s.pcs| == |s.ops| && s.pcs[i] == AppTrustCommitted(s.files.requests, index, tier)
    requires s.ops[i].ApprovePromotion? && s.ops[i].profile.Some? && index < |s.files.requests|
    ensures Run(s, Alone(i, c, 1, last)) == Some(Recorded(s, i, c, last.ok, index, tier))
  {
    var s6 := Step(s, i, c).value;
    RunCons(s, i, c, Alone(i, c, 0, last));
    var s7 := Step(s6, i, last).value;
    RunCons(s6, i, last, []);
    assert Alone(i, c, 0, last) == [(i, last)] + [];
    assert s7.pcs == Recorded(s, i, c, last.ok, index, tier).pcs;
  }

  /**
   * An approval that runs undisturbed promotes the trust file and then approves its request; when the second
   * commit fails the promotion stays on disk while the request is still pending, so a later approval may use it again.
   */
  lemma UndisturbedApproval(s: Sys, i: nat, c: Choice, last: Choice, index: nat, tier: Tier)
    requires i < |s.pcs| == |s.ops| && s.pcs[i].Start? && c.ok && s.trustLock == s.requestsLock == None
    requires Sanctioned(s.ops[i], s.files.requests, index, tier)
    requires Promoted(s.files.trust, s.files.requests[index].extensionId, tier).Ok?
    ensures Run(s, Alone(i, c, 6, last)).Some?
    ensures var t := Run(s, Alone(i, c, 6, last)).value;
            && (t.files.trust, t.files.requests)
               == ApprovalMeaning(s.files.trust, s.files.requests, s.ops[i].requestId.value, s.ops[i].session,
                                  s.ops[i].profile.value, true, last.ok, c.now)
            && Ok(t.files.trust) == Promoted(s.files.trust, s.files.requests[index].extensionId, tier)
            && t.ops == s.ops && t.trustLock == t.requestsLock == None
            && t.log == s.log + [Promotes(i, index, tier)] + (if last.ok then [Approves(i, index, tier, c.now)] else [])
            && (last.ok ==> t.pcs == s.pcs[i := Done(PromotionApproved)] && index < |t.files.requests|
                            && t.files.requests[index].status == Approved)
            && (!last.ok ==> t.pcs == s.pcs[i := Done(ApprovalSaveFailed)] && t.files.requests == s.files.requests
                             && Sanctioned(s.ops[i], t.files.requests, index, tier))
  {
    ApprovalUpToTrustCommit(s, i, c, last, index, tier);
    var trust := Promoted(s.files.trust, s.files.requests[index].extensionId, tier).value;
    var s5 := s.(pcs := s.pcs[i := AppTrustCommitted(s.files.requests, index, tier)], requestsLock := Some(i),
                 files := s.files.(trust := trust), log := s.log + [Promotes(i, index, tier)]);
    ApprovalFromTrustCommit(s5, i, c, last, index, tier);
    assert Recorded(s5, i, c, last.ok, index, tier).pcs
        == s.pcs[i := if last.ok then Done(PromotionApproved) else Done(ApprovalSaveFailed)];
  }

  lemma StillPromotable(trust: TrustConfig, id: string, tier: Tier)
    requires Promoted(trust, id, tier).Ok?
    ensures Promoted(Promoted(trust, id, tier).value, id, tier).Ok?
  {
    PositionKept(trust.extensions, Position(trust.extensions, id).value, tier, id);
  }

  /**
   * And a failed approvals commit does let the request be promoted again: whatever handler approves the request
   * next, undisturbed, promotes it a second time.
   */
  lemma {:induction false} FailedSaveIsPromotedAgain(s: Sys, i: nat, h: nat, c: Choice, failed: Choice, last: Choice,
        index: nat, tier: Tier)
    requires |s.pcs| == |s.ops| && i < |s.pcs| && h < |s.pcs| && i != h && s.pcs[i].Start? && s.pcs[h].Start?
    requires c.ok && !failed.ok && s.trustLock == s.requestsLock == None
    requires Sanctioned(s.ops[i], s.files.requests, index, tier)
    requires Sanctioned(s.ops[h], s.files.requests, index, tier)
    requires Promoted(s.files.trust, s.files.requests[index].extensionId, tier).Ok?
    ensures Run(s, Alone(i, c, 6, failed)).Some?
    ensures var once := Run(s, Alone(i, c, 6, failed)).value;
            && Run(once, Alone(h, c, 6, last)).Some?
            && Promotes(i, index, tier) in once.log
            && Run(once, Alone(h, c, 6, last)).value.log
               == once.log + [Promotes(h, index, tier)] + (if last.ok then [Approves(h, index, tier, c.now)] else [])
  {
    UndisturbedApproval(s, i, c, failed, index, tier);
    var once := Run(s, Alone(i, c, 6, failed)).value;
    StillPromotable(s.files.trust, s.files.requests[index].extensionId, tier);
    UndisturbedApproval(once, h, c, last, index, tier);
  }
}
