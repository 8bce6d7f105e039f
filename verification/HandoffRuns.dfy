/** What every sequence of handoff calls keeps: the status path, the signers, and the pinned worktree. */
module HandoffRuns {
  import opened Clocks
  import opened Handoff
  import opened Pin
  import opened Strings
  import opened Wrappers

  // ---- statuses ----

  predicate Edge(a: Status, b: Status) {
    || (a.PendingApproval? && (b.Approved? || b.Rejected?))
    || (a.Approved? && b.Dispatched?)
    || (a.Dispatched? && (b.Executing? || b.Completed? || b.Failed?))
    || (a.Executing? && (b.Completed? || b.Failed?))
  }

  predicate Creates(env: Env, c: Call, id: string) {
    c.Create? && CreateRefusal(env, c).None? && id == "pkt_" + c.ulid
  }

  lemma UpdatedStatus(env: Env, p: Packet, c: Call)
    requires !c.Create? && Refusal(env, p, c).None?
    ensures Updated(env, p, c).status == p.status || Edge(p.status, Updated(env, p, c).status)
  {}

  /** From any state whatever, a call leaves a packet's status alone or moves it along one edge. */
  lemma StepEdges(env: Env, packets: PacketMap, c: Call, id: string)
    requires id in packets && !Creates(env, c, id)
    ensures id in Step(env, packets, c).packets
    ensures var a, b := packets[id].status, Step(env, packets, c).packets[id].status; a == b || Edge(a, b)
  {
    if !c.Create? && c.id == id && Refusal(env, packets[id], c).None? { UpdatedStatus(env, packets[id], c); }
  }

  /** Rejected, completed and failed are never left. */
  lemma {:induction false} TerminalIsNeverLeft(env: Env, packets: PacketMap, c: Call, id: string)
    requires id in packets && !Creates(env, c, id)
    requires packets[id].status.Rejected? || packets[id].status.Completed? || packets[id].status.Failed?
    ensures Step(env, packets, c).packets[id].status == packets[id].status
  {
    StepEdges(env, packets, c, id);
  }

  /** The statuses the packet went through since its creation. */
  function Path(env: Env, calls: seq<Call>, id: string): seq<Status> {
    if calls == [] then []
    else
      var before, c := calls[..|calls| - 1], calls[|calls| - 1];
      var now := Run(env, calls);
      if Creates(env, c, id) then [PendingApproval]
      else if id in now && id in Run(env, before) && now[id].status != Run(env, before)[id].status
      then Path(env, before, id) + [now[id].status]
      else Path(env, before, id)
  }

  predicate Legal(path: seq<Status>) {
    && path != [] && path[0] == PendingApproval
    && forall i :: 0 < i < |path| ==> Edge(path[i - 1], path[i])
  }

  function Texts(path: seq<Status>): seq<string> {
    if path == [] then [] else Texts(path[..|path| - 1]) + [StatusText(path[|path| - 1])]
  }

  /** The states of the history, without the rejected dispatches. */
  function StatesOf(history: seq<HistoryEntry>): seq<string> {
    if history == [] then []
    else
      var before, e := StatesOf(history[..|history| - 1]), history[|history| - 1];
      if e.state == "dispatch_rejected" then before else before + [e.state]
  }

  ghost predicate Recorded(p: Packet, path: seq<Status>) {
    Legal(path) && path[|path| - 1] == p.status && StatesOf(p.history) == ["draft"] + Texts(path)
  }

  lemma HistoryGrows(history: seq<HistoryEntry>, e: HistoryEntry)
    ensures StatesOf(history + [e]) == if e.state == "dispatch_rejected" then StatesOf(history) else StatesOf(history) + [e.state]
  {
    assert (history + [e])[..|history|] == history;
  }

  lemma TextsGrow(path: seq<Status>, s: Status)
    ensures Texts(path + [s]) == Texts(path) + [StatusText(s)]
  {
    assert (path + [s])[..|path|] == path;
  }

  lemma NewIsRecorded(env: Env, id: string, author: string, pin: Pin, profile: string, required: nat, now: int)
    ensures Recorded(NewPacket(env, id, author, pin, profile, required, now), [PendingApproval])
  {
    var p := NewPacket(env, id, author, pin, profile, required, now);
    assert p.history == [p.history[0]] + [p.history[1]];
    HistoryGrows([], p.history[0]);
    HistoryGrows([p.history[0]], p.history[1]);
    assert [] + [p.history[0]] == [p.history[0]];
    TextsGrow([], PendingApproval);
    assert [] + [PendingApproval] == [PendingApproval];
  }

  lemma StatusTextIsNoRejection(s: Status)
    ensures StatusText(s) != "dispatch_rejected"
  {}

  lemma MoveIsRecorded(p: Packet, path: seq<Status>, q: Packet, to: Status)
    requires Recorded(p, path) && Edge(p.status, to) && q.status == to
    requires |q.history| == |p.history| + 1 && q.history[..|p.history|] == p.history
    requires q.history[|p.history|].state == StatusText(to)
    ensures Recorded(q, path + [to])
  {
    var e := q.history[|p.history|];
    assert q.history == p.history + [e];
    HistoryGrows(p.history, e);
    TextsGrow(path, to);
    StatusTextIsNoRejection(to);
  }

  lemma StayIsRecorded(p: Packet, path: seq<Status>, q: Packet)
    requires Recorded(p, path) && q.status == p.status
    requires q.history == p.history
          || (|q.history| == |p.history| + 1 && q.history[..|p.history|] == p.history
              && q.history[|p.history|].state == "dispatch_rejected")
    ensures Recorded(q, path)
  {
    if q.history != p.history {
      assert q.history == p.history + [q.history[|p.history|]];
      HistoryGrows(p.history, q.history[|p.history|]);
    }
  }

  lemma UpdatedHistory(env: Env, p: Packet, c: Call)
    requires !c.Create? && Refusal(env, p, c).None?
    ensures var q := Updated(env, p, c);
      if q.status == p.status then
        || q.history == p.history
        || (|q.history| == |p.history| + 1 && q.history[..|p.history|] == p.history
            && q.history[|p.history|].state == "dispatch_rejected")
      else
        && |q.history| == |p.history| + 1 && q.history[..|p.history|] == p.history
        && q.history[|p.history|].state == StatusText(q.status)
  {}

  lemma UpdatedIsRecorded(env: Env, p: Packet, c: Call, path: seq<Status>)
    requires !c.Create? && Refusal(env, p, c).None? && Recorded(p, path)
    ensures var q := Updated(env, p, c); Recorded(q, if q.status == p.status then path else path + [q.status])
  {
    var q := Updated(env, p, c);
    UpdatedStatus(env, p, c);
    UpdatedHistory(env, p, c);
    if q.status == p.status { StayIsRecorded(p, path, q); } else { MoveIsRecorded(p, path, q, q.status); }
  }

  /**
   * For every sequence of calls: without the rejected dispatches, a packet's history reads draft, then exactly the
   * path of statuses it went through, which is legal and ends at its current status.
   */
  lemma {:induction false} HistoryIsPath(env: Env, calls: seq<Call>, id: string)
    requires id in Run(env, calls)
    ensures Recorded(Run(env, calls)[id], Path(env, calls, id))
  {
    if calls != [] {
      var before, c := calls[..|calls| - 1], calls[|calls| - 1];
      var packets := Run(env, before);
      if Creates(env, c, id) {
        NewIsRecorded(env, id, c.author, PinFor(env, c), c.profile, if c.twoParty then 2 else 1, c.now);
      } else {
        HistoryIsPath(env, before, id);
        if !c.Create? && c.id == id && Refusal(env, packets[id], c).None? {
          UpdatedIsRecorded(env, packets[id], c, Path(env, before, id));
        }
      }
    }
  }

  lemma {:induction false} LegalNeedsApproval(path: seq<Status>, i: nat)
    requires Legal(path) && i < |path|
    requires path[i].Dispatched? || path[i].Executing? || path[i].Completed? || path[i].Failed?
    ensures Approved in path
    decreases i
  {
    assert Edge(path[i - 1], path[i]);
    if path[i - 1] != Approved { LegalNeedsApproval(path, i - 1); }
  }

  /** Nothing reaches dispatched or later without having been approved. */
  lemma NothingRunsUnapproved(env: Env, calls: seq<Call>, id: string)
    requires id in Run(env, calls)
    requires var s := Run(env, calls)[id].status; s.Dispatched? || s.Executing? || s.Completed? || s.Failed?
    ensures Approved in Path(env, calls, id)
  {
    var path := Path(env, calls, id);
    assert Legal(path) && path[|path| - 1] == Run(env, calls)[id].status by { HistoryIsPath(env, calls, id); }
    LegalNeedsApproval(path, |path| - 1);
  }

  // ---- signers ----

  ghost predicate DistinctSigners(env: Env, p: Packet) {
    forall i, k :: 0 <= i < k < |p.signers|
      ==> CanonicalId(env, p.signers[i].name) != CanonicalId(env, p.signers[k].name)
  }

  /** The author signed first, and the approvers are the names of the signers after that. */
  ghost predicate ApproversAreSigners(p: Packet) {
    && p.signers != [] && p.signers[0].name == p.createdBy
    && |p.approvers| == |p.signers| - 1
    && forall i :: 0 <= i < |p.approvers| ==> p.approvers[i] == p.signers[i + 1].name
  }

  /** Approvals needed beside the author's own signature. */
  function Needed(required: nat): nat { if required <= 2 then 1 else required - 1 }

  /** Pending and rejected packets are short of approvals; all others have exactly what was needed. */
  ghost predicate CountDecides(p: Packet) {
    if p.status.PendingApproval? || p.status.Rejected? then |p.approvers| < Needed(p.required)
    else |p.approvers| == Needed(p.required)
  }

  ghost predicate WellSigned(env: Env, p: Packet) {
    p.required < U32 && DistinctSigners(env, p) && ApproversAreSigners(p) && CountDecides(p)
  }

  lemma TrimmedActor(env: Env, name: string)
    ensures CanonicalId(env, Trim(name)) == CanonicalId(env, name)
  {
    TrimTwice(name);
  }

  lemma ApproverIsNew(env: Env, p: Packet, name: string)
    requires ApproversAreSigners(p) && ApproveRefusal(env, p, name).None?
    ensures forall a :: a in p.approvers ==> CanonicalId(env, a) != CanonicalId(env, name)
  {
    forall a | a in p.approvers ensures CanonicalId(env, a) != CanonicalId(env, name) {
      var i :| 0 <= i < |p.approvers| && p.approvers[i] == a;
      assert p.signers[i + 1] in p.signers;
    }
  }

  lemma DistinctPlusOne(env: Env, p: Packet, q: Packet, s: Signer)
    requires DistinctSigners(env, p) && q.signers == p.signers + [s]
    requires forall t :: t in p.signers ==> CanonicalId(env, t.name) != CanonicalId(env, s.name)
    ensures DistinctSigners(env, q)
  {
    assert forall i :: 0 <= i < |p.signers| ==> q.signers[i] == p.signers[i] && p.signers[i] in p.signers;
  }

  lemma ApproversPlusOne(p: Packet, q: Packet, s: Signer)
    requires ApproversAreSigners(p) && q.signers == p.signers + [s] && q.approvers == p.approvers + [s.name]
    requires q.createdBy == p.createdBy
    ensures ApproversAreSigners(q)
  {}

  lemma SignerIsNew(env: Env, p: Packet, name: string, role: string, reason: Option<string>, at: string)
    requires WellSigned(env, p) && ApproveRefusal(env, p, name).None?
    ensures var q := WithSigner(env, p, name, role, reason, at);
      && DistinctSigners(env, q) && ApproversAreSigners(q) && |q.approvers| == |p.approvers| + 1
      && q.approvers == p.approvers + [Trim(name)] && |q.signers| == |p.signers| + 1
  {
    TrimmedActor(env, name);
    ApproverIsNew(env, p, name);
    var q := WithSigner(env, p, name, role, reason, at);
    var s := q.signers[|p.signers|];
    DistinctPlusOne(env, p, q, s);
    ApproversPlusOne(p, q, s);
  }

  /** The count of signers fits in 32 bits, so the truncated comparison is the exact one. */
  lemma ApprovalKeeps(env: Env, p: Packet, name: string, role: string, reason: Option<string>, at: string)
    requires WellSigned(env, p) && ApproveRefusal(env, p, name).None?
    ensures var q := Approval(env, p, name, role, reason, at);
      && WellSigned(env, q)
      && |q.approvers| == |p.approvers| + 1 && q.required == p.required
      && (q.status.Approved? <==> |q.approvers| == Needed(p.required))
      && (!q.status.Approved? ==> q.status.PendingApproval?)
  {
    SignerIsNew(env, p, name, role, reason, at);
    var q := WithSigner(env, p, name, role, reason, at);
    assert |q.signers| == |q.approvers| + 1 <= Needed(p.required) + 1 < U32;
    assert |q.signers| % U32 == |q.signers|;
  }

  lemma UpdatedKeepsSigners(env: Env, p: Packet, c: Call)
    requires !c.Create? && Refusal(env, p, c).None? && WellSigned(env, p)
    ensures WellSigned(env, Updated(env, p, c))
  {
    if c.Approve? {
      ApprovalKeeps(env, p, c.name, c.role, c.reason, env.clock.show(c.now));
    } else {
      var q := Updated(env, p, c);
      assert q.signers == p.signers && q.approvers == p.approvers && q.createdBy == p.createdBy && q.required == p.required;
    }
  }

  lemma NewIsWellSigned(env: Env, id: string, author: string, pin: Pin, profile: string, required: nat, now: int)
    requires required < U32
    ensures WellSigned(env, NewPacket(env, id, author, pin, profile, required, now))
  {}

  /** At every point of every run the signers are distinct and the approvers decide the status. */
  lemma {:induction false} RunIsWellSigned(env: Env, calls: seq<Call>, id: string)
    requires id in Run(env, calls)
    ensures WellSigned(env, Run(env, calls)[id])
  {
    if calls != [] {
      var before, c := calls[..|calls| - 1], calls[|calls| - 1];
      var packets := Run(env, before);
      if Creates(env, c, id) {
        NewIsWellSigned(env, id, c.author, PinFor(env, c), c.profile, if c.twoParty then 2 else 1, c.now);
      } else {
        RunIsWellSigned(env, before, id);
        if !c.Create? && c.id == id && Refusal(env, packets[id], c).None? {
          UpdatedKeepsSigners(env, packets[id], c);
        }
      }
    }
  }

  datatype Attempt = Attempt(name: string, role: string, reason: Option<string>, at: string)

  /** A packet after a series of approve calls, refused ones changing nothing, and how many were accepted. */
  function ApproveAll(env: Env, p: Packet, attempts: seq<Attempt>): (Packet, nat) {
    if attempts == [] then (p, 0)
    else
      var (q, n) := ApproveAll(env, p, attempts[..|attempts| - 1]);
      var a := attempts[|attempts| - 1];
      if ApproveRefusal(env, q, a.name).Some? then (q, n) else (Approval(env, q, a.name, a.role, a.reason, a.at), n + 1)
  }

  lemma {:induction false} AttemptsKeep(env: Env, p: Packet, attempts: seq<Attempt>)
    requires WellSigned(env, p) && p.status.PendingApproval? && p.approvers == []
    ensures var (q, n) := ApproveAll(env, p, attempts);
      && WellSigned(env, q) && q.required == p.required && q.createdBy == p.createdBy
      && |q.approvers| == n && (q.status.Approved? || q.status.PendingApproval?)
  {
    if attempts != [] {
      var before, a := attempts[..|attempts| - 1], attempts[|attempts| - 1];
      AttemptsKeep(env, p, before);
      var q := ApproveAll(env, p, before).0;
      if ApproveRefusal(env, q, a.name).None? { ApprovalKeeps(env, q, a.name, a.role, a.reason, a.at); }
    }
  }

  /**
   * For every required count of signers and every series of approve calls on a created packet: signers are pairwise
   * distinct under their canonical identity, none of the approvers is the author, and the packet is approved exactly
   * when max(1, required - 1) calls were accepted, after which none is.
   */
  lemma {:induction false} ApprovedAtTheCount(env: Env, id: string, author: string, pin: Pin, profile: string, required: nat, now: int,
                           attempts: seq<Attempt>)
    requires required < U32
    ensures var (q, n) := ApproveAll(env, NewPacket(env, id, author, pin, profile, required, now), attempts);
      && DistinctSigners(env, q) && ApproversAreSigners(q) && |q.approvers| == n
      && (forall a :: a in q.approvers ==> CanonicalId(env, a) != CanonicalId(env, author))
      && (q.status.Approved? <==> n == Needed(required))
      && (q.status.PendingApproval? <==> n < Needed(required))
  {
    var p := NewPacket(env, id, author, pin, profile, required, now);
    NewIsWellSigned(env, id, author, pin, profile, required, now);
    AttemptsKeep(env, p, attempts);
    var q := ApproveAll(env, p, attempts).0;
    forall a | a in q.approvers ensures CanonicalId(env, a) != CanonicalId(env, author) {
      var i :| 0 <= i < |q.approvers| && q.approvers[i] == a;
      assert q.signers[i + 1].name == a && q.signers[0].name == author;
    }
  }

  // ---- the pin ----

  /** The call that created the packet now under `id`. */
  function Origin(env: Env, calls: seq<Call>, id: string): (c: Option<Call>)
    ensures c.Some? ==> Creates(env, c.value, id)
  {
    if calls == [] then None
    else if Creates(env, calls[|calls| - 1], id) then Some(calls[|calls| - 1])
    else Origin(env, calls[..|calls| - 1], id)
  }

  /** No call changes a pin. */
  lemma {:induction false} PinIsKept(env: Env, calls: seq<Call>, id: string)
    requires id in Run(env, calls)
    ensures Origin(env, calls, id).Some?
    ensures Run(env, calls)[id].pin == PinFor(env, Origin(env, calls, id).value)
  {
    if calls != [] {
      var before, c := calls[..|calls| - 1], calls[|calls| - 1];
      if !Creates(env, c, id) {
        PinIsKept(env, before, id);
        if !c.Create? && c.id == id { UpdatedKeepsPin(env, Run(env, before)[id], c); }
      }
    }
  }

  lemma UpdatedKeepsPin(env: Env, p: Packet, c: Call)
    requires !c.Create?
    ensures Updated(env, p, c).pin == p.pin
  {}

  /** A pinned listing and a current one that the digest can tell apart. */
  ghost predicate Comparable(env: Env, pinned: Worktree, current: Worktree) {
    || pinned.files.None?
    || current.files.None?
    || Distinguishes(env.hasher, Tracked(pinned.files.value), Tracked(current.files.value))
  }

  predicate SameFiles(pinned: Worktree, current: Worktree) {
    && pinned.files.Some? && current.files.Some?
    && multiset(Tracked(pinned.files.value)) == multiset(Tracked(current.files.value))
  }

  predicate Unchanged(env: Env, p: Packet, pinned: Worktree, current: Worktree, now: int) {
    && p.status.Approved? && IsComplete(p.pin) && !IsExpired(env.clock, p.pin, now)
    && ComputePin(env.hasher, current, "", "", true).repoRef == p.pin.repoRef
    && ComputePin(env.hasher, current, "", "", true).baseSha == p.pin.baseSha
    && SameFiles(pinned, current)
  }

  /**
   * In every run a strict dispatch check succeeds exactly for an approved packet with a complete, unexpired pin when
   * the project has the reference and commit it had at creation and every tracked path the same content.
   */
  lemma {:induction false} StrictDispatchIffUnchanged(env: Env, calls: seq<Call>, id: string, current: Worktree, now: int)
    requires id in Run(env, calls) && Run(env, calls)[id].pin.strict
    requires Origin(env, calls, id).None? || Comparable(env, Origin(env, calls, id).value.worktree, current)
    ensures Origin(env, calls, id).Some?
    ensures var ok := CheckDispatch(env, Run(env, calls), id, current, now).Ok?;
            ok <==> Unchanged(env, Run(env, calls)[id], Origin(env, calls, id).value.worktree, current, now)
  {
    PinIsKept(env, calls, id);
    var pinned := Origin(env, calls, id).value.worktree;
    if pinned.files.Some? && current.files.Some? {
      DigestIffSameEntries(env.hasher, pinned.files.value, current.files.value);
    }
  }

  // ---- approval time, executor and outcome ----

  /** The fields filled along the way are filled exactly when their transition was taken. */
  ghost predicate Consistent(p: Packet) {
    && (p.approvedAt.None? <==> p.status.PendingApproval? || p.status.Rejected?)
    && (p.outcome.Some? <==> p.status.Completed? || p.status.Failed?)
    && (p.outcome.Some? ==> p.status == OutcomeState(p.outcome.value.status))
    && (p.status.PendingApproval? || p.status.Rejected? || p.status.Approved? ==> p.session.None? && p.progress.None?)
    && (p.status.Executing? || p.status.Completed? || p.status.Failed? ==> p.session.Some?)
    && (p.status.Executing? ==> p.progress.Some?)
    && (p.progress.Some? ==> forall k :: k in p.progress.value ==> k != "" && p.progress.value[k].taskId == k)
  }

  lemma DecidedIsConsistent(env: Env, p: Packet, c: Call)
    requires (c.Approve? || c.Reject? || c.MarkDispatched? || c.RecordDispatchRejected?)
    requires Refusal(env, p, c).None? && Consistent(p)
    ensures Consistent(Updated(env, p, c))
  {}

  lemma ExecutedIsConsistent(env: Env, p: Packet, c: Call)
    requires (c.BindExecutor? || c.RecordProgress? || c.Complete?)
    requires Refusal(env, p, c).None? && Consistent(p)
    ensures Consistent(Updated(env, p, c))
  {}

  lemma UpdatedIsConsistent(env: Env, p: Packet, c: Call)
    requires !c.Create? && Refusal(env, p, c).None? && Consistent(p)
    ensures Consistent(Updated(env, p, c))
  {
    match c
    case Approve(_, _, _, _, _) => DecidedIsConsistent(env, p, c);
    case Reject(_, _, _, _) => DecidedIsConsistent(env, p, c);
    case MarkDispatched(_, _) => DecidedIsConsistent(env, p, c);
    case RecordDispatchRejected(_, _, _, _) => DecidedIsConsistent(env, p, c);
    case BindExecutor(_, _, _) => ExecutedIsConsistent(env, p, c);
    case RecordProgress(_, _, _, _) => ExecutedIsConsistent(env, p, c);
    case Complete(_, _, _, _) => ExecutedIsConsistent(env, p, c);
  }

  /** At every point of every run a packet's approval time, executor session, progress and outcome fit its status. */
  lemma {:induction false} RunIsConsistent(env: Env, calls: seq<Call>, id: string)
    requires id in Run(env, calls)
    ensures Consistent(Run(env, calls)[id])
    ensures var s := Run(env, calls)[id].status; !s.Draft? && !s.Invalidated? && !s.Expired?
  {
    if calls != [] {
      var before, c := calls[..|calls| - 1], calls[|calls| - 1];
      if !Creates(env, c, id) {
        var packets := Run(env, before);
        RunIsConsistent(env, before, id);
        StepEdges(env, packets, c, id);
        if !c.Create? && c.id == id && Refusal(env, packets[id], c).None? { UpdatedIsConsistent(env, packets[id], c); }
      }
    }
  }
}
