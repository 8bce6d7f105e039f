/** Every interleaving of the handlers against the same handlers run one at a time, each as a whole. */
module PromotionSerial {
  import opened Wrappers
  import opened ExtensionTrust
  import opened PromotionProtocol
  import opened PromotionRuns

  // ---- the serial meaning of a handler ----

  /** When handler `who` recorded its approval, if its approvals commit is in the log. */
  function ApprovedAt(log: seq<Commit>, who: nat): Option<string> {
    if log == [] then None
    else if log[|log| - 1].Approves? && log[|log| - 1].who == who then Some(log[|log| - 1].at)
    else ApprovedAt(log[..|log| - 1], who)
  }

  /**
   * The whole handler behind a commit, run by itself at this content with every check it makes; None when it is
   * refused there. An approval runs as a whole where its trust commit stands, its approvals commit failing or
   * succeeding as `approved` says, so nothing is left to do where its approvals commit stands.
   */
  function Serial(ops: seq<Op>, f: Files, c: Commit, approved: Option<string>): Option<Files> {
    if c.Approves? then Some(f)
    else if Apply(ops, f, c).None? then None
    else
      var op := ops[c.who];
      match op
      case UpdateTrust(_, _) => Apply(ops, f, c)
      case RequestPromotion(_, _, _, _) => if RequestAccepted(op, f.trust) then Apply(ops, f, c) else None
      case ApprovePromotion(requestId, session, profile) =>
        var at := if approved.Some? then approved.value else "";
        var (trust, rs) := ApprovalMeaning(f.trust, f.requests, requestId.value, session, profile.value, true, approved.Some?, at);
        Some(Files(trust, rs))
  }

  /** The handlers behind the first `n` commits, run one after another. */
  function SerialRun(ops: seq<Op>, f: Files, log: seq<Commit>, n: nat): Option<Files>
    requires n <= |log|
    decreases n
  {
    if n == 0 then Some(f)
    else
      match SerialRun(ops, f, log, n - 1)
      case None => None
      case Some(g) => Serial(ops, g, log[n - 1], ApprovedAt(log, log[n - 1].who))
  }

  function SerialReplay(ops: seq<Op>, f: Files, log: seq<Commit>): Option<Files> { SerialRun(ops, f, log, |log|) }

  /** A recorded request finds its id revoked just before its commit. */
  predicate FoundRevoked(ops: seq<Op>, f0: Files, log: seq<Commit>, k: nat)
    requires k < |log|
  {
    log[k].Adds? ==> TierOf(Before(ops, f0, log, k).trust, log[k].request.extensionId) == Some(Revoked)
  }

  /** Every recorded request among the first `k` commits finds its id revoked. */
  ghost predicate AllFoundRevoked(ops: seq<Op>, f0: Files, log: seq<Commit>, k: nat)
    requires k <= |log|
  {
    forall j: nat :: j < k ==> FoundRevoked(ops, f0, log, j)
  }

  lemma OneMoreFound(ops: seq<Op>, f0: Files, log: seq<Commit>, k: nat)
    requires k < |log|
    ensures AllFoundRevoked(ops, f0, log, k + 1) <==> AllFoundRevoked(ops, f0, log, k) && FoundRevoked(ops, f0, log, k)
  {}

  // ---- between the two commits of an approval only updates commit ----

  /** The trust commit of an approval since which only updates have committed. */
  function OpenBy(log: seq<Commit>): Option<Commit> {
    if log == [] then None
    else
      var last := log[|log| - 1];
      if last.Updates? then OpenBy(log[..|log| - 1]) else if last.Promotes? then Some(last) else None
  }

  lemma OpenLonger(log: seq<Commit>, c: Commit)
    ensures OpenBy(log + [c]) == if c.Updates? then OpenBy(log) else if c.Promotes? then Some(c) else None
  {
    assert (log + [c])[..|log|] == log;
  }

  /** An approvals commit finds its own handler's trust commit open. */
  ghost predicate Closes(log: seq<Commit>, k: nat)
    requires k < |log|
  {
    log[k].Approves? ==> OpenBy(log[..k]) == Some(Promotes(log[k].who, log[k].index, log[k].tier))
  }

  ghost predicate Unbroken(log: seq<Commit>) { forall k: nat :: k < |log| ==> Closes(log, k) }

  /** A handler between its two commits finds its trust commit open. */
  predicate Holding(pc: Pc, i: nat, open: Option<Commit>) {
    match pc
    case AppTrustCommitted(_, index, tier) => open == Some(Promotes(i, index, tier))
    case AppMutated(_, index, tier, _) => open == Some(Promotes(i, index, tier))
    case _ => true
  }

  ghost predicate AllHolding(s: Sys) { forall i: nat :: i < |s.pcs| ==> Holding(s.pcs[i], i, OpenBy(s.log)) }

  /** What a step commits, given that its own handler's trust commit is open. */
  ghost predicate StepCloses(s: Sys, i: nat, t: Sys, open: Option<Commit>)
    requires i < |s.pcs| == |t.pcs|
  {
    || (t.log == s.log && Holding(t.pcs[i], i, open))
    || (t.log == s.log + [Updates(i)] && t.pcs[i].Done?)
    || (exists c: Commit ::
          && t.log == s.log + [c] && !c.Updates? && HoldsRequests(s.pcs[i])
          && Holding(t.pcs[i], i, if c.Promotes? then Some(c) else None)
          && (c.Approves? ==> open == Some(Promotes(c.who, c.index, c.tier))))
  }

  lemma UpdateCloses(s: Sys, i: nat, c: Choice, t: Sys, open: Option<Commit>)
    requires i < |s.pcs| == |s.ops| && s.ops[i].UpdateTrust? && StepUpdate(s, i, c) == Some(t)
    ensures |t.pcs| == |s.pcs| && StepCloses(s, i, t, open)
  {}

  lemma RequestCloses(s: Sys, i: nat, c: Choice, t: Sys, open: Option<Commit>)
    requires i < |s.pcs| == |s.ops| && s.ops[i].RequestPromotion? && StepRequest(s, i, c) == Some(t)
    ensures |t.pcs| == |s.pcs| && StepCloses(s, i, t, open)
  {
    if s.pcs[i].ReqMutated? && c.ok { assert t.log == s.log + [Adds(i, s.pcs[i].added)]; }
  }

  lemma ApproveCloses(s: Sys, i: nat, c: Choice, t: Sys, open: Option<Commit>)
    requires i < |s.pcs| == |s.ops| && s.ops[i].ApprovePromotion? && StepApprove(s, i, c) == Some(t)
    requires Holding(s.pcs[i], i, open)
    ensures |t.pcs| == |s.pcs| && StepCloses(s, i, t, open)
  {
    var pc := s.pcs[i];
    if pc.AppTrustMutated? && c.ok { assert t.log == s.log + [Promotes(i, pc.index, pc.tier)]; }
    if pc.AppMutated? && c.ok { assert t.log == s.log + [Approves(i, pc.index, pc.tier, pc.at)]; }
  }

  lemma StepIsClosing(s: Sys, i: nat, c: Choice, t: Sys)
    requires Step(s, i, c) == Some(t) && AllHolding(s)
    ensures |t.pcs| == |s.pcs| && StepCloses(s, i, t, OpenBy(s.log))
  {
    match s.ops[i] {
      case UpdateTrust(_, _) => UpdateCloses(s, i, c, t, OpenBy(s.log));
      case RequestPromotion(_, _, _, _) => RequestCloses(s, i, c, t, OpenBy(s.log));
      case ApprovePromotion(_, _, _) => ApproveCloses(s, i, c, t, OpenBy(s.log));
    }
  }

  /** A handler that commits to the approvals file, or promotes, is the only one that may be between two commits. */
  lemma OnlyHolder(s: Sys, i: nat, j: nat, open: Option<Commit>)
    requires LocksMatch(s) && i < |s.pcs| && j < |s.pcs| && i != j && HoldsRequests(s.pcs[i])
    ensures Holding(s.pcs[j], j, open)
  {
    assert HoldsRequests(s.pcs[j]) <==> s.requestsLock == Some(j);
  }

  lemma StepKeepsHolding(s: Sys, i: nat, c: Choice, t: Sys)
    requires LocksMatch(s) && AllHolding(s) && Step(s, i, c) == Some(t)
    ensures AllHolding(t)
  {
    StepIsClosing(s, i, c, t);
    OthersStay(s, i, c, t);
    forall j: nat | j < |t.pcs| ensures Holding(t.pcs[j], j, OpenBy(t.log)) {
      if t.log != s.log {
        var x := t.log[|s.log|];
        assert t.log == s.log + [x];
        OpenLonger(s.log, x);
        if j != i && !x.Updates? { OnlyHolder(s, i, j, OpenBy(t.log)); }
      }
    }
  }

  lemma UnbrokenLonger(log: seq<Commit>, c: Commit)
    requires Unbroken(log)
    requires c.Approves? ==> OpenBy(log) == Some(Promotes(c.who, c.index, c.tier))
    ensures Unbroken(log + [c])
  {
    var longer := log + [c];
    forall k: nat | k < |longer| ensures Closes(longer, k) {
      assert longer[..k] == log[..k];
      if k < |log| { assert Closes(log, k); } else { assert log[..k] == log; }
    }
  }

  lemma StepKeepsUnbroken(s: Sys, i: nat, c: Choice, t: Sys)
    requires Unbroken(s.log) && AllHolding(s) && Step(s, i, c) == Some(t)
    ensures Unbroken(t.log)
  {
    StepIsClosing(s, i, c, t);
    if t.log != s.log {
      var x := t.log[|s.log|];
      assert t.log == s.log + [x];
      UnbrokenLonger(s.log, x);
    }
  }

  lemma {:induction false} RunKeepsUnbroken(s: Sys, schedule: seq<(nat, Choice)>, f0: Files)
    requires Inv(s, f0) && Unbroken(s.log) && AllHolding(s) && Run(s, schedule).Some?
    ensures Unbroken(Run(s, schedule).value.log)
    decreases |schedule|
  {
    if schedule != [] {
      var i, c := schedule[0].0, schedule[0].1;
      var t := Step(s, i, c).value;
      StepKeepsInv(s, i, c, t, f0);
      StepKeepsHolding(s, i, c, t);
      StepKeepsUnbroken(s, i, c, t);
      RunKeepsUnbroken(t, schedule[1..], f0);
    }
  }

  lemma ReachableUnbroken(ops: seq<Op>, f0: Files, schedule: seq<(nat, Choice)>)
    requires Run(Init(ops, f0), schedule).Some?
    ensures Unbroken(Run(Init(ops, f0), schedule).value.log)
  {
    InitInv(ops, f0);
    RunKeepsUnbroken(Init(ops, f0), schedule, f0);
  }

  /** The next commit that is no update, from position `k` on, when it is an approvals commit. */
  function NextApproval(log: seq<Commit>, k: nat): Option<Commit>
    requires k <= |log|
    decreases |log| - k
  {
    if k == |log| then None
    else if log[k].Updates? then NextApproval(log, k + 1)
    else if log[k].Approves? then Some(log[k]) else None
  }

  ghost predicate OnlyUpdates(log: seq<Commit>, k: nat, m: nat) { forall x: nat :: k <= x < m && x < |log| ==> log[x].Updates? }

  lemma {:induction false} NextApprovalAt(log: seq<Commit>, k: nat) returns (m: nat)
    requires k <= |log| && NextApproval(log, k).Some?
    ensures k <= m < |log| && log[m].Approves? && NextApproval(log, k) == Some(log[m]) && OnlyUpdates(log, k, m)
    decreases |log| - k
  {
    if log[k].Updates? { m := NextApprovalAt(log, k + 1); } else { m := k; }
  }

  lemma {:induction false} NextApprovalIs(log: seq<Commit>, k: nat, m: nat)
    requires k <= m < |log| && log[m].Approves? && OnlyUpdates(log, k, m)
    ensures NextApproval(log, k) == Some(log[m])
    decreases m - k
  {
    if k < m {
      assert log[k].Updates?;
      NextApprovalIs(log, k + 1, m);
    }
  }

  lemma {:induction false} OpenThrough(log: seq<Commit>, k: nat, m: nat)
    requires k <= m <= |log| && OnlyUpdates(log, k, m)
    ensures OpenBy(log[..m]) == OpenBy(log[..k])
    decreases m
  {
    if k < m {
      OpenThrough(log, k, m - 1);
      OpenAfter(log, m - 1);
    }
  }

  lemma OpenAfter(log: seq<Commit>, k: nat)
    requires k < |log|
    ensures OpenBy(log[..k + 1]) == if log[k].Updates? then OpenBy(log[..k]) else if log[k].Promotes? then Some(log[k]) else None
  {
    assert log[..k + 1] == log[..k] + [log[k]];
    OpenLonger(log[..k], log[k]);
  }

  lemma {:induction false} OpenedAt(log: seq<Commit>, m: nat) returns (j: nat)
    requires m <= |log| && OpenBy(log[..m]).Some?
    ensures j < m && log[j].Promotes? && OpenBy(log[..m]) == Some(log[j]) && OnlyUpdates(log, j + 1, m)
    decreases m
  {
    assert m > 0;
    OpenAfter(log, m - 1);
    if log[m - 1].Updates? { j := OpenedAt(log, m - 1); } else { j := m - 1; }
  }

  /** Only a trust commit is followed, updates aside, by an approvals commit, and that is its own handler's. */
  lemma ApprovalClosesIt(log: seq<Commit>, k: nat)
    requires Unbroken(log) && k < |log| && !log[k].Updates? && NextApproval(log, k + 1).Some?
    ensures var a := NextApproval(log, k + 1).value; a.Approves? && log[k] == Promotes(a.who, a.index, a.tier)
  {
    var m := NextApprovalAt(log, k + 1);
    assert Closes(log, m);
    OpenThrough(log, k + 1, m);
    OpenAfter(log, k);
  }

  lemma {:induction false} ApprovedAtWhere(log: seq<Commit>, who: nat) returns (m: nat)
    requires ApprovedAt(log, who).Some?
    ensures m < |log| && log[m].Approves? && log[m].who == who && ApprovedAt(log, who) == Some(log[m].at)
  {
    var last := |log| - 1;
    if log[last].Approves? && log[last].who == who { m := last; } else { m := ApprovedAtWhere(log[..last], who); }
  }

  lemma {:induction false} ApprovedSomewhere(log: seq<Commit>, m: nat)
    requires m < |log| && log[m].Approves?
    ensures ApprovedAt(log, log[m].who).Some?
  {
    if m < |log| - 1 { ApprovedSomewhere(log[..|log| - 1], m); }
  }

  /** A handler's own approvals commit is the next commit after its trust commit that is no update. */
  lemma OwnApprovalIsNext(t: Sys, f0: Files, k: nat, m: nat)
    requires Inv(t, f0) && Unbroken(t.log) && k < |t.log| && t.log[k].Promotes?
    requires m < |t.log| && t.log[m].Approves? && t.log[m].who == t.log[k].who
    ensures k < m && OnlyUpdates(t.log, k + 1, m) && NextApproval(t.log, k + 1) == Some(t.log[m])
  {
    assert Closes(t.log, m);
    var j := OpenedAt(t.log, m);
    if j < k { OnePromotionEach(t, f0, j, k); }
    if k < j { OnePromotionEach(t, f0, k, j); }
    NextApprovalIs(t.log, k + 1, m);
  }

  function TimeOf(a: Option<Commit>): Option<string> { if a.Some? && a.value.Approves? then Some(a.value.at) else None }

  /** At a trust commit, what the whole log says of the handler's approval is what comes next. */
  ghost predicate Settled(log: seq<Commit>, k: nat)
    requires k < |log|
  {
    log[k].Promotes? ==> ApprovedAt(log, log[k].who) == TimeOf(NextApproval(log, k + 1))
  }

  lemma SettledAt(t: Sys, f0: Files, k: nat)
    requires Inv(t, f0) && Unbroken(t.log) && k < |t.log|
    ensures Settled(t.log, k)
  {
    if t.log[k].Promotes? {
      if NextApproval(t.log, k + 1).Some? {
        var m := NextApprovalAt(t.log, k + 1);
        ApprovalClosesIt(t.log, k);
        ApprovedSomewhere(t.log, m);
      }
      if ApprovedAt(t.log, t.log[k].who).Some? {
        var m := ApprovedAtWhere(t.log, t.log[k].who);
        OwnApprovalIsNext(t, f0, k, m);
      }
    }
  }

  // ---- the serial run, commit by commit ----

  /** What the approval `a` makes of the requests. */
  function Approved(ops: seq<Op>, rs: seq<Request>, a: Commit): seq<Request> {
    if a.Approves? && a.who < |ops| && ops[a.who].ApprovePromotion? && ops[a.who].profile.Some? && a.index < |rs|
    then MarkApproved(rs, a.index, a.at, ops[a.who].session, ops[a.who].profile.value) else rs
  }

  /**
   * Before commit `k` the serial run is at the trust file on disk, and at the requests on disk with the approval
   * that is still to be committed for the promotion already there.
   */
  function Ahead(ops: seq<Op>, f0: Files, log: seq<Commit>, k: nat): Files
    requires k <= |log|
  {
    var f, a := Before(ops, f0, log, k), NextApproval(log, k);
    if a.Some? then Files(f.trust, Approved(ops, f.requests, a.value)) else f
  }

  lemma SerialUpdate(ops: seq<Op>, f: Files, g: Files, rs: seq<Request>, c: Commit, approved: Option<string>)
    requires c.Updates? && Apply(ops, f, c) == Some(g)
    ensures Serial(ops, Files(f.trust, rs), c, approved) == Some(Files(g.trust, rs)) && g.requests == f.requests
  {}

  lemma SerialAdd(ops: seq<Op>, f: Files, c: Commit, approved: Option<string>)
    requires c.Adds? && Apply(ops, f, c).Some?
    ensures Serial(ops, f, c, approved)
         == if TierOf(f.trust, c.request.extensionId) == Some(Revoked) then Apply(ops, f, c) else None
  {}

  lemma SerialPromotion(ops: seq<Op>, f: Files, g: Files, c: Commit, approved: Option<string>)
    requires c.Promotes? && Apply(ops, f, c) == Some(g)
    ensures g.requests == f.requests
    ensures Serial(ops, f, c, approved)
         == Some(if approved.Some? then Files(g.trust, Approved(ops, g.requests, Approves(c.who, c.index, c.tier, approved.value)))
                 else g)
  {}

  /** What the serial run of the first `k` handlers gives, if anything. */
  ghost function SerialMeaning(ops: seq<Op>, f0: Files, log: seq<Commit>, k: nat): Option<Files>
    requires k <= |log|
  {
    if AllFoundRevoked(ops, f0, log, k) then Some(Ahead(ops, f0, log, k)) else None
  }

  ghost predicate AllSettled(log: seq<Commit>) { forall k: nat :: k < |log| ==> Settled(log, k) }

  /** The log of a run, as far as the serial run depends on it. */
  ghost predicate Orderly(ops: seq<Op>, f0: Files, log: seq<Commit>) {
    Replay(ops, f0, log).Some? && Unbroken(log) && AllSettled(log)
  }

  ghost predicate CommitInStep(ops: seq<Op>, f0: Files, log: seq<Commit>, k: nat) {
    && k < |log|
    && Serial(ops, Ahead(ops, f0, log, k), log[k], ApprovedAt(log, log[k].who))
       == if FoundRevoked(ops, f0, log, k) then Some(Ahead(ops, f0, log, k + 1)) else None
  }

  lemma SerialCommit(ops: seq<Op>, f0: Files, log: seq<Commit>, k: nat)
    requires Orderly(ops, f0, log) && k < |log|
    ensures CommitInStep(ops, f0, log, k)
  {
    assert Settled(log, k);
    ReplayPrefix(ops, f0, log, k);
    var c, f, g := log[k], Before(ops, f0, log, k), Before(ops, f0, log, k + 1);
    assert Apply(ops, f, c) == Some(g);
    if !c.Updates? && NextApproval(log, k + 1).Some? { ApprovalClosesIt(log, k); }
    match c
    case Updates(_) => SerialUpdate(ops, f, g, Ahead(ops, f0, log, k).requests, c, ApprovedAt(log, c.who));
    case Adds(_, _) => SerialAdd(ops, f, c, ApprovedAt(log, c.who));
    case Promotes(_, _, _) => SerialPromotion(ops, f, g, c, ApprovedAt(log, c.who));
    case Approves(_, _, _, _) =>
  }

  ghost predicate InStep(ops: seq<Op>, f0: Files, log: seq<Commit>, k: nat) {
    k <= |log| && SerialRun(ops, f0, log, k) == SerialMeaning(ops, f0, log, k)
  }

  lemma StartsInStep(ops: seq<Op>, f0: Files, log: seq<Commit>)
    requires Unbroken(log)
    ensures InStep(ops, f0, log, 0)
  {
    assert log[..0] == [];
    if NextApproval(log, 0).Some? {
      var m := NextApprovalAt(log, 0);
      assert Closes(log, m);
      OpenThrough(log, 0, m);
    }
  }

  lemma NextInStep(ops: seq<Op>, f0: Files, log: seq<Commit>, k: nat, next: nat)
    requires InStep(ops, f0, log, k) && CommitInStep(ops, f0, log, k) && next == k + 1
    ensures InStep(ops, f0, log, next)
  {
    OneMoreFound(ops, f0, log, k);
  }

  lemma StaysInStep(ops: seq<Op>, f0: Files, log: seq<Commit>, k: nat, next: nat)
    requires Orderly(ops, f0, log) && k < |log| && next == k + 1 && InStep(ops, f0, log, k)
    ensures InStep(ops, f0, log, next)
  {
    SerialCommit(ops, f0, log, k);
    NextInStep(ops, f0, log, k, next);
  }

  lemma SerialPrefix(ops: seq<Op>, f0: Files, log: seq<Commit>, n: nat)
    requires Orderly(ops, f0, log) && n <= |log|
    ensures InStep(ops, f0, log, n)
  {
    StartsInStep(ops, f0, log);
    forall k: nat, m: nat | m == k + 1 && m <= n && InStep(ops, f0, log, k) ensures InStep(ops, f0, log, m) {
      StaysInStep(ops, f0, log, k, m);
    }
    Upward((k: nat) => InStep(ops, f0, log, k), 0, n);
  }

  lemma ReachableSerial(ops: seq<Op>, f0: Files, schedule: seq<(nat, Choice)>)
    requires Run(Init(ops, f0), schedule).Some?
    ensures Orderly(ops, f0, Run(Init(ops, f0), schedule).value.log)
  {
    ReachableInv(ops, f0, schedule);
    ReachableUnbroken(ops, f0, schedule);
    var t := Run(Init(ops, f0), schedule).value;
    forall j: nat | j < |t.log| ensures Settled(t.log, j) { SettledAt(t, f0, j); }
  }

  // ---- main results ----

  /**
   * No lost update: in every interleaving the files hold the commits applied one after another in commit order, and
   * each handler committed what its program point says. That is what the handlers leave run one at a time, each as a
   * whole, in commit order exactly when every recorded request finds its id revoked just before its commit.
   */
  lemma {:induction false} NoLostUpdate(ops: seq<Op>, f0: Files, schedule: seq<(nat, Choice)>)
    requires Run(Init(ops, f0), schedule).Some?
    ensures var t := Run(Init(ops, f0), schedule).value;
            && Replay(ops, f0, t.log) == Some(t.files)
            && |t.pcs| == |ops|
            && (forall i :: 0 <= i < |ops| ==> Accounted(t.pcs[i], i, Mine(t.log, i)))
            && (SerialReplay(ops, f0, t.log) == Some(t.files)
                <==> AllFoundRevoked(ops, f0, t.log, |t.log|))
  {
    ReachableInv(ops, f0, schedule);
    ReachableSerial(ops, f0, schedule);
    var t := Run(Init(ops, f0), schedule).value;
    SerialPrefix(ops, f0, t.log, |t.log|);
    assert t.log[..|t.log|] == t.log;
  }

  lemma UpdateLeavesRequests(ops: seq<Op>, f0: Files, log: seq<Commit>, k: nat)
    requires Replay(ops, f0, log).Some? && k < |log| && log[k].Updates?
    ensures Before(ops, f0, log, k + 1).requests == Before(ops, f0, log, k).requests
  {
    ReplayPrefix(ops, f0, log, k);
  }

  ghost predicate RequestsAre(ops: seq<Op>, f0: Files, log: seq<Commit>, k: nat, rs: seq<Request>) {
    k <= |log| && Before(ops, f0, log, k).requests == rs
  }

  lemma RequestsStay(ops: seq<Op>, f0: Files, log: seq<Commit>, k: nat, m: nat)
    requires Replay(ops, f0, log).Some? && k <= m <= |log| && OnlyUpdates(log, k, m)
    ensures Before(ops, f0, log, m).requests == Before(ops, f0, log, k).requests
  {
    var rs := Before(ops, f0, log, k).requests;
    forall x: nat, y: nat | k <= x && y == x + 1 && y <= m && RequestsAre(ops, f0, log, x, rs)
      ensures RequestsAre(ops, f0, log, y, rs)
    {
      UpdateLeavesRequests(ops, f0, log, x);
    }
    Upward((x: nat) => RequestsAre(ops, f0, log, x, rs), k, m);
  }

  lemma WholeApproval(t: Sys, f0: Files, k: nat, m: nat)
    requires Inv(t, f0) && Unbroken(t.log) && k < |t.log| && t.log[k].Promotes?
    requires m < |t.log| && t.log[m].Approves? && t.log[m].who == t.log[k].who
    ensures var whole := Serial(t.ops, Before(t.ops, f0, t.log, k), t.log[k], ApprovedAt(t.log, t.log[k].who));
      && k < m && whole.Some?
      && whole.value.requests == Before(t.ops, f0, t.log, m + 1).requests
  {
    var log := t.log;
    OwnApprovalIsNext(t, f0, k, m);
    ApprovalClosesIt(log, k);
    SettledAt(t, f0, k);
    ReplayPrefix(t.ops, f0, log, k);
    ReplayPrefix(t.ops, f0, log, m);
    RequestsStay(t.ops, f0, log, k + 1, m);
    SerialPromotion(t.ops, Before(t.ops, f0, log, k), Before(t.ops, f0, log, k + 1), log[k], Some(log[m].at));
  }

  /**
   * The whole handler of an update or a request, run by itself where its commit stands, does what that commit does,
   * except that a request is refused there when it finds its id not revoked. The whole handler of an approval, run
   * where its trust commit stands, leaves the trust file as that commit does, and the approvals file as its approvals
   * commit does, however many updates came in between.
   */
  lemma {:induction false} HandlerIsSerialIff(ops: seq<Op>, f0: Files, schedule: seq<(nat, Choice)>, k: nat)
    requires Run(Init(ops, f0), schedule).Some? && k < |Run(Init(ops, f0), schedule).value.log|
    ensures var log := Run(Init(ops, f0), schedule).value.log;
            var whole := Serial(ops, Before(ops, f0, log, k), log[k], ApprovedAt(log, log[k].who));
            && (log[k].Updates? || log[k].Adds? ==>
                  whole == if FoundRevoked(ops, f0, log, k) then Some(Before(ops, f0, log, k + 1)) else None)
            && (log[k].Promotes? ==>
                  && whole.Some? && whole.value.trust == Before(ops, f0, log, k + 1).trust
                  && (ApprovedAt(log, log[k].who).None? ==> whole == Some(Before(ops, f0, log, k + 1)))
                  && forall m: nat :: m < |log| && log[m].Approves? && log[m].who == log[k].who
                       ==> k < m && whole.value.requests == Before(ops, f0, log, m + 1).requests)
  {
    ReachableInv(ops, f0, schedule);
    ReachableUnbroken(ops, f0, schedule);
    var t := Run(Init(ops, f0), schedule).value;
    ReplayPrefix(ops, f0, t.log, k);
    var f, g, c := Before(ops, f0, t.log, k), Before(ops, f0, t.log, k + 1), t.log[k];
    match c
    case Updates(_) => SerialUpdate(ops, f, g, f.requests, c, ApprovedAt(t.log, c.who));
    case Adds(_, _) => SerialAdd(ops, f, c, ApprovedAt(t.log, c.who));
    case Promotes(_, _, _) =>
      SerialPromotion(ops, f, g, c, ApprovedAt(t.log, c.who));
      forall m: nat | m < |t.log| && t.log[m].Approves? && t.log[m].who == c.who
        ensures k < m
        ensures Serial(ops, f, c, ApprovedAt(t.log, c.who)).value.requests == Before(ops, f0, t.log, m + 1).requests
      {
        WholeApproval(t, f0, k, m);
      }
    case Approves(_, _, _, _) =>
  }

  // ---- the same handlers, scheduled one at a time ----

  /** The steps of the whole handler behind commit `k`, all its I/O succeeding but perhaps its approvals commit. */
  function Block(log: seq<Commit>, k: nat): seq<(nat, Choice)>
    requires k < |log|
  {
    match log[k]
    case Updates(who) => Alone(who, Choice(true, "", ""), 2, Choice(true, "", ""))
    case Adds(who, r) => Alone(who, Choice(true, r.id, r.createdAt), 3, Choice(true, r.id, r.createdAt))
    case Promotes(who, _, _) =>
      var approved := ApprovedAt(log, who);
      Alone(who, Choice(true, "", if approved.Some? then approved.value else ""), 6, Choice(approved.Some?, "", ""))
    case Approves(_, _, _, _) => []
  }

  /** The handlers behind the first `n` commits, each from its first step to its last before the next one starts. */
  function OneByOne(log: seq<Commit>, n: nat): seq<(nat, Choice)>
    requires n <= |log|
  {
    if n == 0 then [] else OneByOne(log, n - 1) + Block(log, n - 1)
  }

  lemma LoneUpdate(s: Sys, i: nat, c: Choice)
    requires i < |s.pcs| == |s.ops| && s.ops[i].UpdateTrust? && s.pcs[i].Start? && c.ok && s.trustLock == None
    requires Updated(s.files.trust, s.ops[i].extensionId, s.ops[i].tier).Ok?
    ensures var trust := Updated(s.files.trust, s.ops[i].extensionId, s.ops[i].tier).value;
            Run(s, Alone(i, c, 2, c))
            == Some(s.(pcs := s.pcs[i := Done(TrustSaved)], files := s.files.(trust := trust), log := s.log + [Updates(i)]))
  {
    var s1 := Step(s, i, c).value;
    RunCons(s, i, c, Alone(i, c, 1, c));
    var s2 := Step(s1, i, c).value;
    RunCons(s1, i, c, Alone(i, c, 0, c));
    var s3 := Step(s2, i, c).value;
    RunCons(s2, i, c, []);
    assert Alone(i, c, 0, c) == [(i, c)] + [];
    assert s3.pcs == s.pcs[i := Done(TrustSaved)];
  }

  lemma LoneRequest(s: Sys, i: nat, c: Choice)
    requires i < |s.pcs| == |s.ops| && s.ops[i].RequestPromotion? && s.pcs[i].Start? && c.ok && s.requestsLock == None
    requires RequestAccepted(s.ops[i], s.files.trust)
    ensures var r := NewRequest(s.ops[i], c);
            Run(s, Alone(i, c, 3, c))
            == Some(s.(pcs := s.pcs[i := Done(RequestSaved)], files := s.files.(requests := s.files.requests + [r]),
                       log := s.log + [Adds(i, r)]))
  {
    var s1 := Step(s, i, c).value;
    RunCons(s, i, c, Alone(i, c, 2, c));
    var s2 := Step(s1, i, c).value;
    RunCons(s1, i, c, Alone(i, c, 1, c));
    var s3 := Step(s2, i, c).value;
    RunCons(s2, i, c, Alone(i, c, 0, c));
    var s4 := Step(s3, i, c).value;
    RunCons(s3, i, c, []);
    assert Alone(i, c, 0, c) == [(i, c)] + [];
    assert s4.pcs == s.pcs[i := Done(RequestSaved)];
  }

  lemma RefusedRequest(s: Sys, i: nat, c: Choice)
    requires i < |s.pcs| == |s.ops| && s.ops[i].RequestPromotion? && s.pcs[i].Start? && c.ok
    requires !RequestAccepted(s.ops[i], s.files.trust)
    ensures Run(s, Alone(i, c, 3, c)) == None
  {
    var s1 := Step(s, i, c).value;
    RunCons(s, i, c, Alone(i, c, 2, c));
    assert Step(s1, i, c) == None && Alone(i, c, 2, c)[0] == (i, c);
  }

  /** What a block does from a state where nobody holds a lock: one handler, from its start to its end. */
  ghost predicate Ran(u: Sys, i: nat, v: Sys, f: Files) {
    && v.files == f && v.ops == u.ops && v.trustLock == v.requestsLock == None
    && i < |u.pcs| == |v.pcs| && v.pcs[i].Done? && v.pcs == u.pcs[i := v.pcs[i]]
  }

  /** The serial meaning of a handler is its run from start to end. */
  lemma BlockIsSerial(u: Sys, log: seq<Commit>, k: nat)
    requires k < |log| && !log[k].Approves? && Apply(u.ops, u.files, log[k]).Some?
    requires |u.pcs| == |u.ops| && u.pcs[log[k].who].Start? && u.trustLock == u.requestsLock == None
    ensures var whole := Serial(u.ops, u.files, log[k], ApprovedAt(log, log[k].who));
      && (whole.None? ==> Run(u, Block(log, k)) == None)
      && (whole.Some? ==> Run(u, Block(log, k)).Some? && Ran(u, log[k].who, Run(u, Block(log, k)).value, whole.value))
  {
    var i := log[k].who;
    match log[k]
    case Updates(_) => LoneUpdate(u, i, Choice(true, "", ""));
    case Adds(_, r) =>
      if RequestAccepted(u.ops[i], u.files.trust) {
        LoneRequest(u, i, Choice(true, r.id, r.createdAt));
      } else {
        RefusedRequest(u, i, Choice(true, r.id, r.createdAt));
      }
    case Promotes(_, index, tier) =>
      var approved := ApprovedAt(log, i);
      UndisturbedApproval(u, i, Choice(true, "", if approved.Some? then approved.value else ""),
                          Choice(approved.Some?, "", ""), index, tier);
  }

  lemma {:induction false} RunJoins(s: Sys, a: seq<(nat, Choice)>, b: seq<(nat, Choice)>)
    ensures Run(s, a + b) == match Run(s, a) case None => None case Some(t) => Run(t, b)
    decreases |a|
  {
    if a == [] {
      assert a + b == b;
    } else {
      assert (a + b)[0] == a[0] && (a + b)[1..] == a[1..] + b;
      var next := Step(s, a[0].0, a[0].1);
      if next.Some? { RunJoins(next.value, a[1..], b); }
    }
  }

  lemma LaterCommitPoint(op: Op, pc: Pc, i: nat, mine: seq<Commit>, p: nat, q: nat)
    requires Fits(op, pc) && Accounted(pc, i, mine) && p < q < |mine|
    ensures mine[q].Approves?
  {}

  /** Any commit of a handler but an approval's second is its first. */
  lemma FirstOfItsHandler(t: Sys, f0: Files, j: nat, k: nat)
    requires Inv(t, f0) && j < k < |t.log| && !t.log[k].Approves?
    ensures t.log[j].who != t.log[k].who
  {
    ReplayPrefix(t.ops, f0, t.log, k);
    var i := t.log[k].who;
    if t.log[j].who == i {
      var p, q := TwoInMine(t.log, j, k);
      LaterCommitPoint(t.ops[i], t.pcs[i], i, Mine(t.log, i), p, q);
    }
  }

  /** Between two blocks nobody holds a lock, and every handler has ended or, before its own block, not started. */
  ghost predicate BetweenBlocks(ops: seq<Op>, log: seq<Commit>, n: nat, u: Sys) {
    && u.ops == ops && |u.pcs| == |ops| && u.trustLock == u.requestsLock == None && n <= |log|
    && (forall h :: 0 <= h < |u.pcs| ==> u.pcs[h].Start? || u.pcs[h].Done?)
    && (forall h :: 0 <= h < |u.pcs| && (forall j: nat :: j < n ==> log[j].who != h) ==> u.pcs[h].Start?)
  }

  /** The first `n` blocks run to the end exactly when their requests find their ids revoked, and leave the serial files. */
  ghost predicate BlocksRun(ops: seq<Op>, f0: Files, log: seq<Commit>, n: nat) {
    n <= |log|
    && var r := Run(Init(ops, f0), OneByOne(log, n));
       && (r.Some? <==> AllFoundRevoked(ops, f0, log, n))
       && (r.Some? ==> r.value.files == Ahead(ops, f0, log, n) && BetweenBlocks(ops, log, n, r.value))
  }

  lemma StillBetweenBlocks(ops: seq<Op>, log: seq<Commit>, n: nat, u: Sys, v: Sys, f: Files)
    requires n < |log| && BetweenBlocks(ops, log, n, u) && Ran(u, log[n].who, v, f)
    ensures BetweenBlocks(ops, log, n + 1, v)
  {}

  lemma AppliesAhead(ops: seq<Op>, f0: Files, log: seq<Commit>, k: nat)
    requires Orderly(ops, f0, log) && k < |log| && !log[k].Approves?
    ensures Apply(ops, Ahead(ops, f0, log, k), log[k]).Some?
  {
    ReplayPrefix(ops, f0, log, k);
  }

  lemma OneMoreBlock(t: Sys, f0: Files, n: nat)
    requires Inv(t, f0) && Orderly(t.ops, f0, t.log) && n < |t.log| && BlocksRun(t.ops, f0, t.log, n)
    ensures BlocksRun(t.ops, f0, t.log, n + 1)
  {
    var log := t.log;
    RunJoins(Init(t.ops, f0), OneByOne(log, n), Block(log, n));
    OneMoreFound(t.ops, f0, log, n);
    SerialCommit(t.ops, f0, log, n);
    var r := Run(Init(t.ops, f0), OneByOne(log, n));
    if r.Some? {
      if log[n].Approves? {
        assert Run(r.value, Block(log, n)) == r;
      } else {
        AppliesAhead(t.ops, f0, log, n);
        forall j: nat | j < n ensures log[j].who != log[n].who { FirstOfItsHandler(t, f0, j, n); }
        BlockIsSerial(r.value, log, n);
        if FoundRevoked(t.ops, f0, log, n) {
          StillBetweenBlocks(t.ops, log, n, r.value, Run(r.value, Block(log, n)).value, Ahead(t.ops, f0, log, n + 1));
        }
      }
    }
  }

  lemma BlocksRunToTheEnd(t: Sys, f0: Files)
    requires Inv(t, f0) && Orderly(t.ops, f0, t.log)
    ensures BlocksRun(t.ops, f0, t.log, |t.log|)
  {
    StartsInStep(t.ops, f0, t.log);
    assert BlocksRun(t.ops, f0, t.log, 0);
    forall k: nat, m: nat | m == k + 1 && m <= |t.log| && BlocksRun(t.ops, f0, t.log, k)
      ensures BlocksRun(t.ops, f0, t.log, m)
    {
      OneMoreBlock(t, f0, k);
    }
    Upward((k: nat) => BlocksRun(t.ops, f0, t.log, k), 0, |t.log|);
  }

  /**
   * The same as a schedule: the handlers that committed, scheduled one after another from first step to last in the
   * order of their first commits, run to their ends and leave the files of the interleaved run exactly when every
   * recorded request found its id revoked.
   */
  lemma {:induction false} SameAsOneByOne(ops: seq<Op>, f0: Files, schedule: seq<(nat, Choice)>)
    requires Run(Init(ops, f0), schedule).Some?
    ensures var t := Run(Init(ops, f0), schedule).value;
            var r := Run(Init(ops, f0), OneByOne(t.log, |t.log|));
            && (r.Some? <==> AllFoundRevoked(ops, f0, t.log, |t.log|))
            && (r.Some? ==> r.value.files == t.files && BetweenBlocks(ops, t.log, |t.log|, r.value))
  {
    ReachableInv(ops, f0, schedule);
    ReachableSerial(ops, f0, schedule);
    var t := Run(Init(ops, f0), schedule).value;
    BlocksRunToTheEnd(t, f0);
    assert t.log[..|t.log|] == t.log;
  }

  // ---- a request whose check is stale ----

  /**
   * The check may be stale: a request that read its id as revoked is recorded after an update that quarantined it,
   * although run serially after that update it is refused. It stays pending, and the id can be promoted from there.
   */
  lemma {:induction false} StaleRequest(f0: Files, id: string, session: string, profile: string, c: Choice)
      returns (ops: seq<Op>, schedule: seq<(nat, Choice)>)
    requires id != "" && TierOf(f0.trust, id) == Some(Revoked) && c.ok
    ensures ops == [RequestPromotion(Some(id), Some("allowed_signed"), session, Some(profile)),
                    UpdateTrust(Some(id), Some("quarantined"))]
    ensures Run(Init(ops, f0), schedule).Some?
    ensures var t, r := Run(Init(ops, f0), schedule).value, NewRequest(ops[0], c);
            && t.log == [Updates(1), Adds(0, r)]
            && t.files.requests == f0.requests + [r] && r.status.Pending?
            && TierOf(t.files.trust, id) == Some(Quarantined)
            && Promoted(t.files.trust, id, AllowedSigned).Ok?
            && SerialReplay(ops, f0, t.log) == None
  {
    ops := [RequestPromotion(Some(id), Some("allowed_signed"), session, Some(profile)),
            UpdateTrust(Some(id), Some("quarantined"))];
    schedule := [(0, c)] + ([(1, c)] + ([(1, c)] + ([(1, c)] + ([(0, c)] + ([(0, c)] + ([(0, c)] + []))))));
    var s4 := StaleUpdate(ops, f0, id, c, [(0, c)] + ([(0, c)] + ([(0, c)] + [])));
    var t := StaleSave(ops, s4, id, c);
    assert Run(Init(ops, f0), schedule) == Some(t);
    ReachableInv(ops, f0, schedule);
    ReplayPrefix(ops, f0, t.log, 0);
    assert !FoundRevoked(ops, f0, t.log, 1);
    ReachableSerial(ops, f0, schedule);
    SerialPrefix(ops, f0, t.log, 2);
  }

  /** The request checks, and the update runs from its lock to its commit. */
  lemma StaleUpdate(ops: seq<Op>, f0: Files, id: string, c: Choice, rest: seq<(nat, Choice)>) returns (s4: Sys)
    requires |ops| == 2 && ops[0].RequestPromotion? && RequestAccepted(ops[0], f0.trust) && ops[0].extensionId == Some(id)
    requires ops[1] == UpdateTrust(Some(id), Some("quarantined")) && c.ok
    ensures s4.ops == ops && s4.pcs == [ReqChecked, Done(TrustSaved)] && s4.log == [Updates(1)]
    ensures s4.trustLock == s4.requestsLock == None && s4.files.requests == f0.requests
    ensures TierOf(s4.files.trust, id) == Some(Quarantined) && Updated(f0.trust, Some(id), Some("quarantined")) == Ok(s4.files.trust)
    ensures Run(Init(ops, f0), [(0, c)] + ([(1, c)] + ([(1, c)] + ([(1, c)] + rest)))) == Run(s4, rest)
  {
    assert ParseTier("quarantined") == Some(Quarantined);
    TierAfterSet(f0.trust, id, Quarantined, id);
    var s0 := Init(ops, f0);
    var s1 := Step(s0, 0, c).value;
    RunCons(s0, 0, c, [(1, c)] + ([(1, c)] + ([(1, c)] + rest)));
    var s2 := Step(s1, 1, c).value;
    RunCons(s1, 1, c, [(1, c)] + ([(1, c)] + rest));
    var s3 := Step(s2, 1, c).value;
    RunCons(s2, 1, c, [(1, c)] + rest);
    s4 := Step(s3, 1, c).value;
    RunCons(s3, 1, c, rest);
    assert s4.pcs == [ReqChecked, Done(TrustSaved)];
  }

  /** The request, past its check, runs from its lock to its commit. */
  lemma StaleSave(ops: seq<Op>, s4: Sys, id: string, c: Choice) returns (t: Sys)
    requires |ops| == 2 && ops[0].RequestPromotion? && s4.ops == ops && s4.pcs == [ReqChecked, Done(TrustSaved)] && c.ok
    requires ops[0].extensionId.Some? && ops[0].tier.Some? && ops[0].profile.Some? && s4.requestsLock == None
    ensures t.log == s4.log + [Adds(0, NewRequest(ops[0], c))]
    ensures t.files == s4.files.(requests := s4.files.requests + [NewRequest(ops[0], c)])
    ensures Run(s4, [(0, c)] + ([(0, c)] + ([(0, c)] + []))) == Some(t)
  {
    var s5 := Step(s4, 0, c).value;
    RunCons(s4, 0, c, [(0, c)] + ([(0, c)] + []));
    var s6 := Step(s5, 0, c).value;
    RunCons(s5, 0, c, [(0, c)] + []);
    t := Step(s6, 0, c).value;
    RunCons(s6, 0, c, []);
  }
}
