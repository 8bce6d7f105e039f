# Verified model of the bridge

A Dafny model of the state machines, logs, guards and codecs at the core of the local bridge, the relay, the
profile library and the mock engine, with proofs of what they are for. `dafny verify dfyconfig.toml` checks all of it.

## What is modelled

| component | Dafny files | source |
|---|---|---|
| extension trust and two-party promotion | `ExtensionTrust`, `PromotionProtocol`, `PromotionRuns`, `PromotionSerial` | `apps/local-bridge/src/extensions/` |
| release gates, deploy guard, event replay | `Gates`, `Releases`, `ReleaseRuns` | `apps/local-bridge/src/gate.rs`, `release.rs` |
| profile inheritance and enforcement | `Profile`, `Enforce`, `Inheritance` | `packages/profile-core/src/profile.rs`, `enforce.rs` |
| handoff packets and the worktree pin | `Handoff`, `HandoffRuns`, `Pin` | `apps/local-bridge/src/handoff/` |
| canonical JSON | `CanonicalJson` | `packages/profile-core/src/hash.rs` |
| teleport tokens, device routing | `Tokens`, `Registry` | `apps/relay-service/src/tokens.rs`, `registry.rs` |
| dial tokens | `Hmac`, `DialToken` | `apps/local-bridge/src/tunnel.rs`, `apps/relay-service/src/hmac.rs`, `tokens.rs` |
| resource counters, replay ring | `Resource`, `EventRing` | `packages/bridge-core/src/` |
| scenario interpreter | `Template`, `Scenario` | `tools/mock-engine/src/scenarios.rs` |

`Wrappers`, `Bytes`, `Ordering`, `Decimal`, `Strings`, `Clocks` and `JsonValue` hold what several of them share.

Conventions. An object the source updates in place is a class; each of its methods is proved equal to a step function
on values, and the theorems about whole runs are lemmas about those step functions. Handlers, claims and counters that
run concurrently are split into their atomic steps, and the theorems quantify over every schedule. Everything the
repository takes from outside (SHA-256, UTF-8, lower-casing, RFC 3339, globs, regular expressions, path handling, git,
the JSON reader and writer of the mock engine) is a function-valued parameter, and a theorem that needs something of it
says so: `Hmac.Digests32`, `Pin.Distinguishes` (no collision among the finitely many inputs hashed, UTF-8 keeps the two
listings apart, no path that spells out the end of another file's line), `Scenario.WritesApart` (different JSON values are written differently).
Instants are integers and a command reads the clock once; nothing is assumed of how an instant is printed, so an
override's end is judged by reading its recorded text back, as the code does.

## Where the code and a claim about it part

* **Deny globs that stop compiling.** `build_globs` replaces a set that does not compile by the empty set, so a child
  that adds a pattern can lose its parent's deny list and *widen* writes. `Enforce.WriteWidensExactlyAt` says for one
  engine, path and root exactly when that happens, `Enforce.WriteNarrowsExactly` gives the condition over all matching
  behaviours, `DenyListLost`.
* **A request's check may be stale.** `extensions.request_promotion` reads the trust file before it takes any lock, so a
  request can be recorded for an id that is no longer revoked, and promoted from there (`PromotionSerial.StaleRequest`).
  Interleaved handlers leave what whole handlers run one at a time leave exactly when each recorded request finds its
  id revoked just before its commit (`PromotionSerial.NoLostUpdate`, `SameAsOneByOne`, and commit by commit
  `HandlerIsSerialIff`); in every run it was revoked in the content the handler read at its first step
  (`PromotionRuns.RequestSawRevoked`).
* **The promotion is not one transaction.** When the approvals commit fails after the trust commit, the promotion stays
  on disk and the request stays pending, so it can be promoted again (`PromotionRuns.FailedSaveIsPromotedAgain`). This
  is the only way: the earlier of two promoters of one request has always ended with that failure
  (`PromotionRuns.SecondPromotionMeansFailedSave`).
* **The update guard is per step.** Two plain updates take an extension from revoked to allowed by way of quarantined
  (`ExtensionTrust.UpdateGuardIsPerStep`), and there is no other way: a series of updates of a revoked id is accepted
  exactly when no step goes straight from revoked to allowed (`ExtensionTrust.UpdatesOfRevoked`), and in every
  interleaving a revoked id becomes allowed only by a two-party approval or from quarantined
  (`PromotionRuns.LiftNeedsApprovalOrQuarantine`), with updates alone exactly by the latter
  (`UpdatesLiftFromQuarantineOnly`).
* **`TokenStore::claim` on a bare token is not single-use.** Check and insert are separate; `Tokens.DirectClaimsRace`
  is the schedule. Outside tests the relay calls `claim` only from `claim_by_opaque` (`tokens.rs` 90), through which it
  is single-use (`Tokens.SingleUse`). For any mixture, two finished claims of one nonce both succeed exactly when at
  some moment both are past the check and neither has inserted (`Tokens.BothSucceedIff`), so claims that do not overlap
  are single-use too (`Tokens.SequentialClaimsSingleUse`).
* **Counters wrap**, reading the `+ 1` after `fetch_add` as wrapping. While the attempts in the counter at one time fit
  its word the limit holds, whatever came and went before (`Resource.LimitHoldsWhileItFits`); for threads, each with one
  attempt at a time, it holds in every interleaving exactly when the limit plus the number of threads is below the
  word (`Resource.LimitHoldsIff`). The counter itself never wraps, up or down, exactly while they fit
  (`Resource.CounterNeverWrapsIff`).
* **Line breaks in paths.** A path that holds a colon, the content hash of another file and a line break makes one file
  read as two (`Pin.LineBreakConfuses`); without such a path the digest tells worktrees apart
  (`Pin.DigestIffSameEntries`).
* **Exclusion by prefix.** The digest skips every path that *starts with* an excluded name (`Pin.ExcludedIsUncovered`),
  so worktrees that differ only in `.gitignore`, `build.rs` or below `targets/` have one digest
  (`Pin.BuildScriptIsUncovered`).
* **Inheritance cycles.** The loader has no cycle check. It ends exactly when no profile on the chain of the loaded id is
  its own ancestor; a chain that reaches a cycle has a next profile to load forever (`Inheritance.ChainEndsIffAcyclic`).
  Cycles elsewhere in the directory do no harm.
* **Dotted device ids** never verify, even freshly minted (`DialToken.MintedVerifiesIff`).
* **A gate nobody touched blocks.** The deploy guard reads the live map, which has no entry for a gate before its first
  command; `MutationAuditClean`, which defaults to pass, still has to be evaluated or synced once. An override that has
  expired keeps blocking a fully signed gate until a command looks at it (`ReleaseRuns.ExpiredOverrideBlocks`). One whose
  recorded end does not read back as RFC 3339 is never dropped and blocks until it is replaced or revoked
  (`ReleaseRuns.UnreadableEndBlocks`).
* **Events may be emitted out of order.** A gate command emits its event after it has released the gate lock. When two
  commands on one gate emit in the other order, the replay gives back the live gates exactly when both left the same
  snapshot (`ReleaseRuns.SwappedEventsReplay`); the theorems about whole runs take a command and its event as one step.
* **The root decides the class.** A profile that declares itself an assessor below an executor root is resolved as an
  executor, and a child's own `fs.write` and `scoped_paths` are ignored (`Inheritance.DecisionsOverLineage`).
* **Two signers or one.** `required_signers` 1 and 2 behave alike: the author's own signature counts, so one approval
  suffices for both (`HandoffRuns.ApprovedAtTheCount`).
* `docs/protocol.md` and `docs/extension-trust-model.md` describe an admin-token gate on trust updates; the handlers
  have none any more, and the model follows the handlers.

## Model

| member | source | states |
|---|---|---|
| `ExtensionTrust.UpdateKeepsRevoked` | apps/local-bridge/src/extensions/handlers.rs:262-309 | a plain update never takes an id from revoked to allowed, sets the id it names and keeps every other |
| `ExtensionTrust.UpdateGuardIsPerStep` | apps/local-bridge/src/extensions/handlers.rs:286-309 | two accepted updates take any revoked id to allowed by way of quarantined, although one cannot |
| `ExtensionTrust.UpdatesOfRevoked` | apps/local-bridge/src/extensions/handlers.rs:286-309 | a series of plain updates of a revoked id is accepted exactly when it never asks for an allowed tier directly after revoked; one that ends allowed passes quarantined |
| `ExtensionTrust.LockedConfig.ApplyUpdateTrust` | apps/local-bridge/src/extensions/handlers.rs:262-309 | the in-place update of the guarded copy, equal to the update function, with each refusal |
| `ExtensionTrust.LockedConfig.Commit` | apps/local-bridge/src/extensions/store.rs:78-112 | a commit replaces the file by the private copy or leaves it, and releases the lock |
| `ExtensionTrust.HandleUpdateTrust` | apps/local-bridge/src/extensions/handlers.rs:367-487 | one update handler by itself: lock, change, commit or drop, with the file's new content |
| `ExtensionTrust.HandleApprovePromotion` | apps/local-bridge/src/extensions/handlers.rs:793-963 | one approve handler by itself: both files afterwards for each way either commit can fail |
| `PromotionSerial.NoLostUpdate` | apps/local-bridge/src/extensions/handlers.rs:373-487 | in every interleaving, with any commit failing, the files are the commits applied in commit order and each handler committed exactly what its program point says; they are also what the whole handlers leave run one after another, an approval with both its commits where its trust commit stands, exactly when each recorded request finds its id revoked |
| `PromotionSerial.SameAsOneByOne` | apps/local-bridge/src/extensions/handlers.rs:729-963 | the same as a schedule of the same steps: the handlers that committed, each from first step to last before the next starts, run to their ends exactly when each recorded request found its id revoked, and then leave the same files |
| `PromotionSerial.HandlerIsSerialIff` | apps/local-bridge/src/extensions/handlers.rs:666-700 | run by itself where its commit stands, the whole handler of an update or request does what the commit does, a request exactly when it finds its id revoked; the whole handler of an approval leaves the trust file as its trust commit does and the approvals file as its approvals commit does |
| `PromotionRuns.RequestSawRevoked` | apps/local-bridge/src/extensions/handlers.rs:666-700 | in every run a recorded request had its id revoked in the content its handler read at its first step, at or before the content its commit meets |
| `PromotionSerial.StaleRequest` | apps/local-bridge/src/extensions/handlers.rs:666-757 | for any revoked id, a schedule in which a request is recorded after an update has quarantined the id: serially refused, pending, and promotable |
| `PromotionRuns.DirectLiftIsTwoParty` | apps/local-bridge/src/extensions/handlers.rs:857-963 | in every interleaving a commit that takes an id straight from revoked to an allowed tier is an approval of a pending request by another profile for that id and tier |
| `PromotionRuns.LiftNeedsApprovalOrQuarantine` | apps/local-bridge/src/extensions/handlers.rs:286-309 | in every interleaving, between a revoked and a later allowed content of an id some commit is a two-party approval of it or takes it from quarantined |
| `PromotionRuns.UpdatesLiftFromQuarantineOnly` | apps/local-bridge/src/extensions/handlers.rs:286-309 | with update handlers only, a revoked id is lifted exactly when some later commit finds it quarantined and allows it |
| `PromotionRuns.ApprovedAtMostOnce` | apps/local-bridge/src/extensions/approvals.rs:108-161 | a request is approved on disk at most once, and not promoted after that |
| `PromotionRuns.ApprovalFollowsItsPromotion` | apps/local-bridge/src/extensions/handlers.rs:899-963 | an approval reaches the disk only after the same handler's two-party trust commit that set the requested tier |
| `PromotionRuns.SecondPromotionMeansFailedSave` | apps/local-bridge/src/extensions/handlers.rs:899-963 | in every run, of two promotions of one request the handlers differ and the earlier has ended with its approvals commit failed |
| `PromotionRuns.FailedSaveIsPromotedAgain` | apps/local-bridge/src/extensions/handlers.rs:899-963 | after one approval whose second commit failed, a second handler promotes the same request again |
| `PromotionRuns.NoDeadlock` | apps/local-bridge/src/extensions/handlers.rs:857-930 | in every reachable state with an unfinished handler some handler can step |
| `PromotionRuns.EveryRunEnds` | apps/local-bridge/src/extensions/handlers.rs:729-963 | n handlers take at most 7n steps, in any interleaving |
| `PromotionRuns.UndisturbedApproval` | apps/local-bridge/src/extensions/handlers.rs:819-963 | the interleaved steps of one handler alone have the meaning of the sequential handler; a failed second commit leaves the promotion and a pending request |
| `Gates.SnapshotReadsBack` | apps/local-bridge/src/gate.rs:224-316 | parsing a printed gate snapshot gives it back, for every snapshot and clock |
| `Gates.SessionGates.EnsureKnown` | apps/local-bridge/src/gate.rs:81-90 | known gates get their default entry on first use, others change nothing |
| `Gates.SessionGates.HandleEvaluate` | apps/local-bridge/src/gate.rs:472-525 | map, answer and event after an evaluation, which drops an expired override |
| `Gates.SessionGates.HandleSignoff` | apps/local-bridge/src/gate.rs:527-593 | map, answer and event after a sign-off bound to the principal, with every refusal in order |
| `Gates.SessionGates.HandleOverride` | apps/local-bridge/src/gate.rs:595-675 | map, answer and event after an override with reason and expiry, with every refusal in order |
| `Gates.SessionGates.HandleRevokeOverride` | apps/local-bridge/src/gate.rs:677-733 | map, answer and event after an override is revoked |
| `Gates.SessionGates.HandleSyncMutationAudit` | apps/local-bridge/src/gate.rs:762-838 | map, answer and event after a reported count of blocking mutations |
| `Gates.Missing` | apps/local-bridge/src/gate.rs:142-165 | the missing gates are exactly the required ones that are absent or not effectively passed |
| `Releases.DeployReadsBack` | apps/local-bridge/src/release.rs:562-574 | parsing a printed deploy event gives the deploy back |
| `Releases.DraftReadsBack` | apps/local-bridge/src/release.rs:847-874 | parsing a printed notes draft gives it back, its references being printed under the parser's second name |
| `Releases.TargetReadsBack` | apps/local-bridge/src/release.rs:801-827 | parsing a printed target gives it back, absent options being left out of the object |
| `Releases.RestoreGates` | apps/local-bridge/src/gate.rs:65-75 | the replay loop over gate events equals the fold of one-event replays |
| `Releases.SessionRelease.FromEvents` | apps/local-bridge/src/release.rs:121-155 | the replay loop over release events equals the fold of one-event replays |
| `Releases.SessionRelease.Store` | apps/local-bridge/src/release.rs:191-204 | a deploy is stored and shown on its target when that exists |
| `Releases.SessionRelease.HandleDeploy` | apps/local-bridge/src/release.rs:408-586 | state, answer, event and blocking gates of a deploy |
| `Releases.SessionRelease.HandlePublish` | apps/local-bridge/src/release.rs:588-754 | state, answer, event and blocking gates of a publish |
| `Releases.SessionRelease.HandleGenerateNotes` | apps/local-bridge/src/release.rs:307-406 | state, answer and event of a notes draft, with its baseline commit |
| `ReleaseRuns.ReplayRebuilds` | apps/local-bridge/src/release.rs:121-155 | for every command sequence, replaying the emitted events gives exactly the live gates, targets, deploys and notes; recording a target listing too would change nothing |
| `ReleaseRuns.RunAgrees` | apps/local-bridge/src/gate.rs:340-403 | in every run each live snapshot's signers, override and state are those the accepted commands so far determine |
| `ReleaseRuns.RecordedIffMet` | apps/local-bridge/src/release.rs:454-543 | for every run a deploy or publish is recorded exactly when the provider is the dry run, the target exists and every required gate is met by the commands before it; otherwise it names exactly the unmet ones |
| `ReleaseRuns.EveryDeployJustified` | apps/local-bridge/src/release.rs:633-711 | every deploy on record in any run was recorded by a command at whose time all its gates were met |
| `ReleaseRuns.RecordedIsShown` | apps/local-bridge/src/release.rs:521-577 | a recorded deploy of the git head is stored, shown on its target and on no other, and readable from the one event added; gates and notes are untouched |
| `ReleaseRuns.MetMeans` | apps/local-bridge/src/gate.rs:126-165 | a met gate has an override neither replaced nor revoked and unexpired, or enough distinct principals who each signed, or for the audit gate no blocking mutation at the last report |
| `ReleaseRuns.UnreadableEndBlocks` | apps/local-bridge/src/gate.rs:154-165 | an override whose recorded end does not read back blocks its gate through every command but another override or a revocation |
| `ReleaseRuns.ExpiredOverrideBlocks` | apps/local-bridge/src/gate.rs:142-165 | in any run a gate signed by enough principals whose override has expired is missing until it is evaluated, and met from then on |
| `ReleaseRuns.SwappedEventsReplay` | apps/local-bridge/src/gate.rs:494-523 | when two commands on one gate emit in the other order the replay is right exactly when both left the same snapshot |
| `Profile.MergeWithParent` | packages/profile-core/src/profile.rs:245-362 | the field-by-field merge with its loops equals the section-wise merge, with the first refusal |
| `Profile.RetainKinds` | packages/profile-core/src/profile.rs:356-359 | the retain loop keeps the parent's kinds the child names, in order |
| `Profile.FirstUnknownKind` | packages/profile-core/src/profile.rs:380-390 | validation finds no bad agent kind exactly when all are known |
| `Enforce.NarrowedDecisions` | packages/profile-core/src/enforce.rs:43-120 | for every engine, tool, kind and argument list: an inherited deny stays a deny, kinds only shrink, listed binaries keep their decision |
| `Enforce.WriteNarrowsExactly` | packages/profile-core/src/enforce.rs:194-241 | writes allowed below are allowed above, for every matching behaviour and path, exactly when the deny list below is not lost to a failed compilation |
| `Enforce.WriteWidensExactlyAt` | packages/profile-core/src/enforce.rs:194-241 | at one engine, path and root a write is allowed below and refused above exactly when the mode lets the path through, the list above matches it and the longer list below does not compile |
| `Inheritance.Loader.LoadWithCache` | packages/profile-core/src/profile.rs:226-243 | for every id whose own chain has no cycle the memoised loader ends, returns what the plain fold returns, keeps the cache right and only adds to it |
| `Inheritance.AcyclicIffRanked` | packages/profile-core/src/profile.rs:226-243 | the loader's termination measure exists exactly for the ids on whose chain no profile is its own ancestor |
| `Inheritance.ChainEndsIffAcyclic` | packages/profile-core/src/profile.rs:226-243 | the chain of profiles to load ends exactly when it has no cycle; otherwise there is always a next one |
| `Inheritance.DecisionsOverLineage` | packages/profile-core/src/enforce.rs:58-120 | for every loaded chain: tools, kinds and shell calls decided by the raw profiles of the chain, class and write mode by its root |
| `Inheritance.ListsOverLineage` | packages/profile-core/src/profile.rs:284-350 | approval requirements, deny globs, hosts and readable connectors are the unions over the chain; git, limits, audit and egress mode come from one known member |
| `Inheritance.DescendantNeverWidens` | packages/profile-core/src/profile.rs:245-362 | every ancestor of a loaded profile loads, and against it nothing widens, writes under the exact condition |
| `Inheritance.AssessorRootWritesNothing` | packages/profile-core/src/profile.rs:364-379 | below an assessor root: no git write flag, no connector write, every file write refused |
| `CanonicalJson.TextsApart` | packages/profile-core/src/hash.rs:25-48 | printed values delimit themselves, nested to any depth, with the string escapes written out |
| `CanonicalJson.CanonicalTextIff` | packages/profile-core/src/hash.rs:25-48 | two values have the same canonical text exactly when they are equal with objects as maps |
| `Ordering.SortForgetsOrder` | packages/profile-core/src/hash.rs:28-29 | sorting by an injective key gives one result for all arrangements |
| `Handoff.HandoffService.CreateHandoff` | apps/local-bridge/src/handoff/mod.rs:609-680 | the packet a creation stores, or its refusal for an incomplete strict pin |
| `Handoff.HandoffService.ApproveHandoff` | apps/local-bridge/src/handoff/mod.rs:687-815 | the packet after an approval, each refusal in order, and whether it became approved |
| `Handoff.HandoffService.RejectHandoff` | apps/local-bridge/src/handoff/mod.rs:818-896 | the packet after a rejection, or its refusal |
| `Handoff.HandoffService.MarkDispatchedCall` | apps/local-bridge/src/handoff/mod.rs:958-1022 | the packet after dispatch, or its refusal |
| `Handoff.HandoffService.RecordRejectedDispatch` | apps/local-bridge/src/handoff/mod.rs:1030-1089 | only a history entry is added |
| `Handoff.HandoffService.BindExecutorSession` | apps/local-bridge/src/handoff/mod.rs:1094-1161 | the packet after its executor is bound, or its refusal |
| `Handoff.HandoffService.RecordExecutionProgress` | apps/local-bridge/src/handoff/mod.rs:1165-1270 | one task's progress replaced, the session bound if it was not, or its refusal |
| `Handoff.HandoffService.CompleteExecution` | apps/local-bridge/src/handoff/mod.rs:1274-1363 | the packet completed or failed by its outcome, or its refusal |
| `HandoffRuns.HistoryIsPath` | apps/local-bridge/src/handoff/mod.rs:637-651 | for every call sequence: without rejected dispatches the history reads draft and then exactly the legal path of statuses up to the current one |
| `HandoffRuns.TerminalIsNeverLeft` | apps/local-bridge/src/handoff/mod.rs:845-853 | from any state no call moves a rejected, completed or failed packet |
| `HandoffRuns.NothingRunsUnapproved` | apps/local-bridge/src/handoff/mod.rs:971-991 | a dispatched, executing, completed or failed packet was approved on its path |
| `HandoffRuns.RunIsWellSigned` | apps/local-bridge/src/handoff/mod.rs:703-783 | in every run signers are distinct under their canonical identity, approvers are the signers after the author, and their number decides the status |
| `HandoffRuns.ApprovedAtTheCount` | apps/local-bridge/src/handoff/mod.rs:748-783 | for every required count and series of approvals: approved exactly at max(1, required - 1) accepted ones, none by the author; the 32-bit truncation is harmless |
| `HandoffRuns.RunIsConsistent` | apps/local-bridge/src/handoff/mod.rs:1118-1319 | in every run the approval time, executor session, progress and outcome are present exactly as the status says, and the outcome decides completed or failed |
| `HandoffRuns.PinIsKept` | apps/local-bridge/src/handoff/mod.rs:414-430 | no call changes the pin computed at creation |
| `HandoffRuns.StrictDispatchIffUnchanged` | apps/local-bridge/src/handoff/mod.rs:901-949 | in every run a strict check succeeds exactly for an approved packet with a complete unexpired pin, the same reference and commit, and the same content at every tracked path |
| `Pin.ComputeWorktreeDigest` | apps/local-bridge/src/handoff/pin.rs:65-93 | the filter, sort, join, hash loop computes the digest of the listing |
| `Pin.DigestForgetsOrder` | apps/local-bridge/src/handoff/pin.rs:74-92 | the digest does not depend on the order of the listing |
| `Pin.DigestIffSameEntries` | apps/local-bridge/src/handoff/pin.rs:65-93 | equal digests exactly when the tracked, not excluded paths have the same contents, a missing file read as empty, unless a path of one holds a colon, the content hash of a file of the other and a line break |
| `Pin.LineBreakConfuses` | apps/local-bridge/src/handoff/pin.rs:89-92 | for every hash and any such path, one file has the digest of the two files it spells out, when those sort in that order |
| `Pin.ExcludedIsUncovered` | apps/local-bridge/src/handoff/pin.rs:81-86 | a file whose path starts like an excluded name never changes the digest |
| `Pin.BuildScriptIsUncovered` | apps/local-bridge/src/handoff/pin.rs:81-86 | two worktrees that differ only in `build.rs`, in `.gitignore` or in a file below `targets/` have one digest |
| `Strings.TrimTwice` | apps/local-bridge/src/handoff/packet.rs:15-17 | trimming is idempotent, so a stored signer keeps its canonical identity |
| `Tokens.SingleUse` | apps/relay-service/src/tokens.rs:86-108 | however claims by opaque interleave at each map operation, no token is claimed twice and only minted ones are |
| `Tokens.NoncesDisjoint` | apps/relay-service/src/tokens.rs:86-108 | active, in-flight and claimed nonces never meet |
| `Tokens.ClaimReturnsItsBinding` | apps/relay-service/src/tokens.rs:86-95 | a successful claim is of the one minted token with the opaque it presented |
| `Tokens.RevokedNeverSucceeds` | apps/relay-service/src/tokens.rs:96-113 | a claim whose device is revoked before its revocation check never succeeds |
| `Tokens.DirectClaimsRace` | apps/relay-service/src/tokens.rs:96-108 | two interleaved claims of the token itself both succeed |
| `Tokens.BothSucceedIff` | apps/relay-service/src/tokens.rs:96-108 | in every run, claims by opaque and of bare tokens mixed, two finished claims of one nonce both succeed exactly when at some moment both are past the check and neither has inserted |
| `Tokens.SequentialClaimsSingleUse` | apps/relay-service/src/tokens.rs:96-108 | a claim begun after one of its nonce succeeded never succeeds |
| `Tokens.TokenStore.ClaimByOpaque` | apps/relay-service/src/tokens.rs:86-95 | one undisturbed claim: when it succeeds, what it returns, and what it leaves in both maps |
| `Registry.QueueIsItsView` | apps/relay-service/src/registry.rs:49-99 | for every call history a client's queue is exactly, in order, the frames forwarded to its device and session while it was attached |
| `Registry.CountIsClientsReached` | apps/relay-service/src/registry.rs:90-99 | the returned count is the number of live clients reached |
| `Registry.DeviceRegistry.ForwardToClients` | apps/relay-service/src/registry.rs:90-99 | the fan-out loop sends to each listed channel once and drops the closed ones |
| `Hmac.HmacSha256` | apps/relay-service/src/hmac.rs:9-31 | the pad loops compute section 2 of RFC 2104 for every key length (the bridge's copy at `tunnel.rs` 92-115 is the same code) |
| `Hmac.CtEq` | apps/relay-service/src/hmac.rs:34-43 | the constant-time comparison decides equality |
| `Decimal.ParsePrint` | apps/relay-service/src/tokens.rs:171 | a printed integer parses back exactly when it fits an i64 |
| `DialToken.HexReadsBack` | apps/relay-service/src/tokens.rs:177 | decoding encoded bytes gives them back |
| `DialToken.SplitThreeIff` | apps/relay-service/src/tokens.rs:163-167 | splitting at the first two dots gives three parts exactly for their joins with dot-free first two |
| `DialToken.MintDialToken` | apps/local-bridge/src/tunnel.rs:86-90 | the minted text, through the real HMAC loop |
| `DialToken.VerifyBridgeDialToken` | apps/relay-service/src/tokens.rs:157-182 | the verdict with each error, through the real HMAC and comparison loops |
| `DialToken.MintedVerifiesIff` | apps/local-bridge/src/tunnel.rs:86-90 | a minted token verifies exactly when the device id is dot-free and the expiry is not past, with the error otherwise |
| `DialToken.AcceptedIffSigned` | apps/relay-service/src/tokens.rs:157-182 | accepted tokens are exactly the unexpired ones carrying the HMAC of the device and parsed expiry |
| `Resource.CounterIsExact` | packages/bridge-core/src/resource.rs:43-107 | in every interleaving the counter is live guards plus undecided adds plus pending roll-backs modulo the word, at quiescence the live guards |
| `Resource.CounterNeverWrapsIff` | packages/bridge-core/src/resource.rs:43-107 | in every interleaving the counter is that sum itself after every step exactly when the sum fits the word throughout, and then no subtraction starts from zero |
| `Resource.LimitHoldsWhileItFits` | packages/bridge-core/src/resource.rs:43-107 | for any number of attempts and any interleaving, while the attempts in the counter fit its word no more than the limit hold a slot |
| `Resource.LimitHoldsForThreads` | packages/bridge-core/src/resource.rs:43-70 | threads with one attempt each at a time, any number in all, never exceed the limit when the limit plus the threads is below the word |
| `Resource.LimitHoldsIff` | packages/bridge-core/src/resource.rs:43-70 | every interleaving of any number of attempts of that many threads respects the limit exactly when the limit plus the threads is below the word |
| `Resource.ResourceUsage.IncrementToolCalls` | packages/bridge-core/src/resource.rs:43-55 | one undisturbed call: granted or rolled back, with the counter afterwards |
| `EventRing.EventRing.Push` | packages/bridge-core/src/event_ring.rs:32-40 | after any pushes the ring is the last min(cap, n) entries of the log numbered 1 to n |
| `EventRing.EventRing.ReplayAfter` | packages/bridge-core/src/event_ring.rs:43-66 | the ring answers as the whole log would: suffix, up to date, or out of range exactly when the next entry is gone |
| `EventRing.ReconnectsSeeTheLog` | packages/bridge-core/src/event_ring.rs:43-66 | any series of reconnects sees the log without gap or duplicate unless told out of range |
| `Template.RenderString` | tools/mock-engine/src/scenarios.rs:762-784 | the rendering loop is the concatenation of the values of the text's segments |
| `Template.SegmentsAreExact` | tools/mock-engine/src/scenarios.rs:762-784 | literal segments hold no placeholder and names no closing brace |
| `Template.UnboundValueIsKept` | tools/mock-engine/src/scenarios.rs:747-784 | a value none of whose placeholders is bound is rendered unchanged |
| `Template.RenderIsOnePass` | tools/mock-engine/src/scenarios.rs:762-784 | a bound placeholder becomes exactly its value, whatever that holds |
| `Scenario.MockEngine.EmitSingleStep` | tools/mock-engine/src/scenarios.rs:130-153 | lines, bindings and counter state after one step: skipped, aborted or emitted and then seeded |
| `Scenario.MockEngine.RunForeach` | tools/mock-engine/src/scenarios.rs:81-111 | the foreach loop, with its cloned bindings and mid-loop aborts, is the unrolled loop |
| `Scenario.MockEngine.TryRuntimeDispatch` | tools/mock-engine/src/scenarios.rs:55-122 | the whole dispatch: answer or nothing, and the state it leaves in either case |
| `Scenario.TimelineConcat` | tools/mock-engine/src/scenarios.rs:67-113 | the output of a timeline is the concatenation of its parts, each starting in the bindings and state the one before leaves |
| `Scenario.LoopUnrolls` | tools/mock-engine/src/scenarios.rs:91-109 | at any item, a loop is the items before, that item's body in the outer bindings, and the items after |
| `Scenario.LoopLeavesBindings` | tools/mock-engine/src/scenarios.rs:92-110 | steps after a loop see the bindings from before it, and the state from after it |
| `Scenario.AnswerEndsWithItsResponse` | tools/mock-engine/src/scenarios.rs:55-122 | an answer holds exactly one response, as its last line; the lines before it are those of the steps one after another, each from where the one before ended |

## Left out

- Audit records, notifications, message texts and acknowledgement envelopes: side output of the handlers.
- The decoding of git's file names: `pin.rs` reads them with `from_utf8_lossy` and opens the decoded name, so two names that decode alike are one; the listing here starts after that step.
- Session lookup and poisoned locks: the gate and release commands are taken on one existing session.
- The time between a command's change under its lock and its event (`gate.rs` 494-523, `release.rs` alike): a whole run takes both as one step.
- Two clock readings inside one command are one; a command that straddles an expiry by microseconds is not distinguished.
- Post-deploy observations: the live list is trimmed at 200 and the replayed one is not; no modelled handler appends any.
- fs.read decisions and network egress: a child may replace the read mode, so there is no narrowing to state.
- A binding race inside one handoff call: the service reads a packet and then updates it; each call is one step here.
- Handoff payload validation and the packet fields that only travel along (title, summary, tasks): the validation result is an input of the creation.
- `active_executor_packet`, `set_status` and `remove` of the packet registry: not called by the modelled transitions.
- Floating-point numbers in canonical JSON are their shortest texts, so `0.0` and `-0.0` are different values here.
- u64 overflow of the ring's sequence numbers: they are natural numbers.
- The scenario generators, the catalog itself and the legacy handlers: one seed evaluation is an arbitrary function of the seed, the state and the parameters.
- The file system inside a commit (temporary file, sync, rename): a commit replaces the file or fails as a whole.
- Pairing codes, WebSocket loops, process spawning, YAML and TOML formats, user interface: no part of this model.
