/** Handoff packets: creation, approval, dispatch and execution, over a shared map of packets. */
module Handoff {
  import opened Clocks
  import opened Pin
  import opened Strings
  import opened Wrappers

  datatype Status =
    | Draft | PendingApproval | Approved | Rejected | Dispatched | Executing | Completed | Failed | Invalidated | Expired

  function StatusText(s: Status): string {
    match s
    case Draft => "draft"
    case PendingApproval => "pending_approval"
    case Approved => "approved"
    case Rejected => "rejected"
    case Dispatched => "dispatched"
    case Executing => "executing"
    case Completed => "completed"
    case Failed => "failed"
    case Invalidated => "invalidated"
    case Expired => "expired"
  }

  datatype HistoryEntry = HistoryEntry(state: string, at: string, who: Option<string>, reason: Option<string>)

  datatype Signer = Signer(name: string, role: string, signedAt: string, reason: Option<string>)

  datatype TaskProgress = TaskProgress(
    taskId: string, status: string, updatedAt: string, completed: nat, total: nat, message: Option<string>)

  datatype Execution = ExecutionOutcome(status: string, tasksCompleted: seq<string>, tasksFailed: seq<string>)

  datatype Packet = Packet(
    id: string, createdBy: string, pin: Pin, profile: string,
    approvers: seq<string>, approvedAt: Option<string>,
    status: Status, history: seq<HistoryEntry>, signers: seq<Signer>, required: nat,
    session: Option<string>, progress: Option<map<string, TaskProgress>>, outcome: Option<Execution>, updatedAt: string)

  type PacketMap = map<string, Packet>

  /** Lower-casing, the clock and the hash the service runs with. */
  datatype Env = Env(lower: string -> string, clock: Clock, hasher: Hasher)

  const U32 := 0x1_0000_0000

  function CanonicalId(env: Env, name: string): string { env.lower(Trim(name)) }

  /** `required_signers.max(1)`. */
  function Threshold(required: nat): nat { if required == 0 then 1 else required }

  // ---- one packet ----

  function NewPacket(env: Env, id: string, author: string, pin: Pin, profile: string, required: nat, now: int): Packet {
    var at := env.clock.show(now);
    Packet(id, author, pin, profile, [], None, PendingApproval,
           [HistoryEntry("draft", at, Some(author), None),
            HistoryEntry("pending_approval", at, Some(author), Some("created"))],
           [Signer(author, "author", at, None)], required, None, None, None, at)
  }

  /** The refusal an approval meets, if any, in the order of the checks. */
  function ApproveRefusal(env: Env, p: Packet, name: string): Option<string> {
    if Trim(name) == "" then Some("handoff.invalid_payload")
    else if CanonicalId(env, p.createdBy) == CanonicalId(env, name) then Some("handoff.self_sign_denied")
    else if !p.status.PendingApproval? then Some("handoff.invalid_state")
    else if exists s :: s in p.signers && CanonicalId(env, s.name) == CanonicalId(env, name)
    then Some("handoff.duplicate_signer")
    else None
  }

  function WithSigner(env: Env, p: Packet, name: string, role: string, reason: Option<string>, at: string): Packet {
    var approverKnown := exists a :: a in p.approvers && CanonicalId(env, a) == CanonicalId(env, name);
    p.(signers := p.signers + [Signer(Trim(name), if Trim(role) == "" then "approver" else role, at, reason)],
       approvers := if approverKnown then p.approvers else p.approvers + [Trim(name)],
       updatedAt := at)
  }

  function MoveTo(p: Packet, to: Status, at: string, who: Option<string>, reason: Option<string>): Packet {
    p.(status := to, history := p.history + [HistoryEntry(StatusText(to), at, who, reason)], updatedAt := at)
  }

  /** An accepted approval; the signer count is compared after truncation to 32 bits. */
  function Approval(env: Env, p: Packet, name: string, role: string, reason: Option<string>, at: string): Packet {
    var q := WithSigner(env, p, name, role, reason, at);
    if q.status.PendingApproval? && |q.signers| % U32 >= Threshold(q.required)
    then MoveTo(q, Approved, at, Some(Trim(name)), None).(approvedAt := Some(at))
    else q
  }

  function OutcomeState(status: string): Status {
    if Trim(status) == "failed" || Trim(status) == "cancelled" then Failed else Completed
  }

  // ---- the calls ----

  datatype Call =
    | Create(ulid: string, author: string, invalid: Option<string>, twoParty: bool, worktree: Worktree,
             snapshotAt: Option<string>, strict: bool, profile: string, now: int)
    | Approve(id: string, name: string, role: string, reason: Option<string>, now: int)
    | Reject(id: string, name: string, reason: Option<string>, now: int)
    | MarkDispatched(id: string, now: int)
    | RecordDispatchRejected(id: string, tag: string, detail: Option<string>, now: int)
    | BindExecutor(id: string, executor: string, now: int)
    | RecordProgress(id: string, update: TaskProgress, executor: string, now: int)
    | Complete(id: string, executor: string, outcome: Execution, now: int)

  function PinFor(env: Env, c: Call): Pin
    requires c.Create?
  {
    ComputePin(env.hasher, c.worktree,
               if c.snapshotAt.Some? then c.snapshotAt.value else env.clock.show(c.now),
               env.clock.show(c.now + SEVEN_DAYS), c.strict)
  }

  function CreateRefusal(env: Env, c: Call): Option<string>
    requires c.Create?
  {
    var pin := PinFor(env, c);
    if c.invalid.Some? then c.invalid
    else if c.strict && (pin.repoRef == "" || pin.baseSha == "" || pin.digest == "")
    then Some("handoff.pin_compute_failed")
    else None
  }

  /** The refusal a call on an existing packet meets, if any. */
  function Refusal(env: Env, p: Packet, c: Call): Option<string>
    requires !c.Create?
  {
    match c
    case Approve(_, name, _, _, _) => ApproveRefusal(env, p, name)
    case Reject(_, name, _, _) =>
      if Trim(name) == "" then Some("handoff.invalid_payload")
      else if !p.status.PendingApproval? then Some("handoff.invalid_state") else None
    case MarkDispatched(_, _) => if !p.status.Approved? then Some("handoff.invalid_state") else None
    case RecordDispatchRejected(_, _, _, _) => None
    case BindExecutor(_, _, _) => if !p.status.Dispatched? then Some("handoff.invalid_state") else None
    case RecordProgress(_, update, _, _) =>
      if !p.status.Dispatched? && !p.status.Executing? then Some("handoff.invalid_state")
      else if Trim(update.taskId) == "" then Some("handoff.invalid_payload") else None
    case Complete(_, _, _, _) =>
      if !p.status.Dispatched? && !p.status.Executing? then Some("handoff.invalid_state") else None
  }

  function ReasonText(tag: string, detail: Option<string>): string {
    if detail.Some? && detail.value != "" then tag + ": " + detail.value else tag
  }

  function ProgressMap(p: Packet): map<string, TaskProgress> {
    if p.progress.Some? then p.progress.value else map[]
  }

  function ProgressEntry(env: Env, update: TaskProgress, now: int): TaskProgress {
    update.(taskId := Trim(update.taskId),
            status := if Trim(update.status) == "" then "started" else Trim(update.status),
            updatedAt := env.clock.show(now))
  }

  /** The packet after an accepted call. */
  function Updated(env: Env, p: Packet, c: Call): Packet
    requires !c.Create?
  {
    var at := env.clock.show(c.now);
    match c
    case Approve(_, name, role, reason, _) => Approval(env, p, name, role, reason, at)
    case Reject(_, name, reason, _) => MoveTo(p, Rejected, at, Some(Trim(name)), reason)
    case MarkDispatched(_, _) => MoveTo(p, Dispatched, at, None, Some("dispatch_allowed"))
    case RecordDispatchRejected(_, tag, detail, _) =>
      p.(history := p.history + [HistoryEntry("dispatch_rejected", at, None, Some(ReasonText(tag, detail)))], updatedAt := at)
    case BindExecutor(_, executor, _) =>
      MoveTo(p, Executing, at, None, Some("executor_session_bound")).(
        session := Some(executor), progress := Some(ProgressMap(p)))
    case RecordProgress(_, update, executor, _) =>
      p.(progress := Some(ProgressMap(p)[Trim(update.taskId) := ProgressEntry(env, update, c.now)]),
         session := if p.session.None? then Some(executor) else p.session, updatedAt := at)
    case Complete(_, executor, outcome, _) =>
      MoveTo(p, OutcomeState(outcome.status), at, None, Some("execution_" + env.lower(Trim(outcome.status))))
        .(session := Some(executor), outcome := Some(outcome))
  }

  datatype Stepped = Stepped(packets: PacketMap, refused: Option<string>)

  function Created(env: Env, c: Call): Packet
    requires c.Create?
  {
    NewPacket(env, "pkt_" + c.ulid, c.author, PinFor(env, c), c.profile, if c.twoParty then 2 else 1, c.now)
  }

  /** One service call, taken as a whole. */
  function Step(env: Env, packets: PacketMap, c: Call): Stepped {
    if c.Create? then
      if CreateRefusal(env, c).Some? then Stepped(packets, CreateRefusal(env, c))
      else Stepped(packets["pkt_" + c.ulid := Created(env, c)], None)
    else if c.id !in packets then Stepped(packets, Some("handoff.not_found"))
    else if Refusal(env, packets[c.id], c).Some? then Stepped(packets, Refusal(env, packets[c.id], c))
    else Stepped(packets[c.id := Updated(env, packets[c.id], c)], None)
  }

  function Run(env: Env, calls: seq<Call>): PacketMap {
    if calls == [] then map[] else Step(env, Run(env, calls[..|calls| - 1]), calls[|calls| - 1]).packets
  }

  // ---- the dispatch guard ----

  datatype DispatchError = NotFound | NotApproved | PinIncomplete | PinExpired | PinDrift

  predicate IsExpired(clock: Clock, p: Pin, now: int) {
    clock.parse(p.expiresAt).None? || clock.parse(p.expiresAt).value < now
  }

  /** `check_dispatch`: under the strict policy the pin is computed again and compared. */
  function CheckDispatch(env: Env, packets: PacketMap, id: string, current: Worktree, now: int): Result<Packet, DispatchError> {
    if id !in packets then Err(NotFound)
    else
      var p := packets[id];
      if !p.status.Approved? then Err(NotApproved)
      else if !IsComplete(p.pin) then Err(PinIncomplete)
      else if IsExpired(env.clock, p.pin, now) then Err(PinExpired)
      else if p.pin.strict
        && !SameRepository(ComputePin(env.hasher, current, p.pin.snapshotAt, env.clock.show(now + SEVEN_DAYS), true), p.pin)
      then Err(PinDrift)
      else Ok(p)
  }

  // ---- the service ----

  /** `HandoffService` over its registry; each method is one call, taken as a whole. */
  class HandoffService {
    var packets: PacketMap
    const env: Env

    constructor (env: Env)
      ensures this.env == env && packets == map[]
    {
      this.env := env;
      packets := map[];
    }

    method CreateHandoff(ulid: string, author: string, invalid: Option<string>, twoParty: bool, worktree: Worktree,
                         snapshotAt: Option<string>, strict: bool, profile: string, now: int)
      returns (refused: Option<string>)
      modifies this
      ensures Stepped(packets, refused) == Step(env, old(packets),
                Create(ulid, author, invalid, twoParty, worktree, snapshotAt, strict, profile, now))
    {
      if invalid.Some? { return invalid; }
      var at := env.clock.show(now);
      var digest := ComputeWorktreeDigest(env.hasher, worktree.files);
      var pin := ComputePin(env.hasher, worktree, if snapshotAt.Some? then snapshotAt.value else at,
                            env.clock.show(now + SEVEN_DAYS), strict);
      assert pin.digest == if digest.Some? then digest.value else "";
      if strict && (pin.repoRef == "" || pin.baseSha == "" || pin.digest == "") {
        return Some("handoff.pin_compute_failed");
      }
      var p := NewPacket(env, "pkt_" + ulid, author, pin, profile, if twoParty then 2 else 1, now);
      packets := packets["pkt_" + ulid := p];
      return None;
    }

    method ApproveHandoff(id: string, name: string, role: string, reason: Option<string>, now: int)
      returns (refused: Option<string>, becameApproved: bool)
      modifies this
      ensures Stepped(packets, refused) == Step(env, old(packets), Approve(id, name, role, reason, now))
      ensures becameApproved <==> refused.None? && packets[id].status.Approved?
    {
      becameApproved := false;
      if id !in packets { return Some("handoff.not_found"), false; }
      var p := packets[id];
      var trimmed := Trim(name);
      if trimmed == "" { return Some("handoff.invalid_payload"), false; }
      var actor := CanonicalId(env, name);
      if CanonicalId(env, p.createdBy) == actor { return Some("handoff.self_sign_denied"), false; }
      if p.status != PendingApproval { return Some("handoff.invalid_state"), false; }
      if exists s :: s in p.signers && CanonicalId(env, s.name) == actor {
        return Some("handoff.duplicate_signer"), false;
      }
      var at := env.clock.show(now);
      p := p.(signers := p.signers + [Signer(trimmed, if Trim(role) == "" then "approver" else role, at, reason)]);
      if !exists a :: a in p.approvers && CanonicalId(env, a) == actor {
        p := p.(approvers := p.approvers + [trimmed]);
      }
      if p.status == PendingApproval && |p.signers| % U32 >= Threshold(p.required) {
        p := p.(status := Approved, approvedAt := Some(at),
                history := p.history + [HistoryEntry("approved", at, Some(trimmed), None)]);
        becameApproved := true;
      }
      p := p.(updatedAt := at);
      packets := packets[id := p];
      return None, becameApproved;
    }

    method RejectHandoff(id: string, name: string, reason: Option<string>, now: int) returns (refused: Option<string>)
      modifies this
      ensures Stepped(packets, refused) == Step(env, old(packets), Reject(id, name, reason, now))
    {
      if id !in packets { return Some("handoff.not_found"); }
      var p := packets[id];
      if Trim(name) == "" { return Some("handoff.invalid_payload"); }
      if p.status != PendingApproval { return Some("handoff.invalid_state"); }
      var at := env.clock.show(now);
      p := p.(status := Rejected, history := p.history + [HistoryEntry("rejected", at, Some(Trim(name)), reason)]);
      packets := packets[id := p.(updatedAt := at)];
      return None;
    }

    method MarkDispatchedCall(id: string, now: int) returns (refused: Option<string>)
      modifies this
      ensures Stepped(packets, refused) == Step(env, old(packets), MarkDispatched(id, now))
    {
      if id !in packets { return Some("handoff.not_found"); }
      var p := packets[id];
      if p.status != Approved { return Some("handoff.invalid_state"); }
      var at := env.clock.show(now);
      p := p.(status := Dispatched, history := p.history + [HistoryEntry("dispatched", at, None, Some("dispatch_allowed"))]);
      packets := packets[id := p.(updatedAt := at)];
      return None;
    }

    method RecordRejectedDispatch(id: string, tag: string, detail: Option<string>, now: int) returns (refused: Option<string>)
      modifies this
      ensures Stepped(packets, refused) == Step(env, old(packets), RecordDispatchRejected(id, tag, detail, now))
    {
      if id !in packets { return Some("handoff.not_found"); }
      var p := packets[id];
      var at := env.clock.show(now);
      var entry := HistoryEntry("dispatch_rejected", at, None, Some(ReasonText(tag, detail)));
      packets := packets[id := p.(history := p.history + [entry], updatedAt := at)];
      return None;
    }

    method BindExecutorSession(id: string, executor: string, now: int) returns (refused: Option<string>)
      modifies this
      ensures Stepped(packets, refused) == Step(env, old(packets), BindExecutor(id, executor, now))
    {
      if id !in packets { return Some("handoff.not_found"); }
      var p := packets[id];
      if p.status != Dispatched { return Some("handoff.invalid_state"); }
      var at := env.clock.show(now);
      p := p.(session := Some(executor), progress := Some(ProgressMap(p)), status := Executing);
      p := p.(history := p.history + [HistoryEntry("executing", at, None, Some("executor_session_bound"))]);
      packets := packets[id := p.(updatedAt := at)];
      return None;
    }

    method RecordExecutionProgress(id: string, update: TaskProgress, executor: string, now: int)
      returns (refused: Option<string>)
      modifies this
      ensures Stepped(packets, refused) == Step(env, old(packets), RecordProgress(id, update, executor, now))
    {
      if id !in packets { return Some("handoff.not_found"); }
      var p := packets[id];
      if p.status != Dispatched && p.status != Executing { return Some("handoff.invalid_state"); }
      var taskId := Trim(update.taskId);
      if taskId == "" { return Some("handoff.invalid_payload"); }
      p := p.(progress := Some(ProgressMap(p)[taskId := ProgressEntry(env, update, now)]));
      if p.session.None? { p := p.(session := Some(executor)); }
      packets := packets[id := p.(updatedAt := env.clock.show(now))];
      return None;
    }

    method CompleteExecution(id: string, executor: string, outcome: Execution, now: int) returns (refused: Option<string>)
      modifies this
      ensures Stepped(packets, refused) == Step(env, old(packets), Complete(id, executor, outcome, now))
    {
      if id !in packets { return Some("handoff.not_found"); }
      var p := packets[id];
      if p.status != Dispatched && p.status != Executing { return Some("handoff.invalid_state"); }
      var at := env.clock.show(now);
      var terminal := OutcomeState(outcome.status);
      p := p.(session := Some(executor), outcome := Some(outcome), status := terminal);
      var reason := "execution_" + env.lower(Trim(outcome.status));
      p := p.(history := p.history + [HistoryEntry(StatusText(terminal), at, None, Some(reason))]);
      packets := packets[id := p.(updatedAt := at)];
      return None;
    }
  }
}
