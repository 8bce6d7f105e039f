/**
 * Teleport tokens in the relay. A claim is the sequence of map operations `claim_by_opaque` makes, each its own
 * atomic step: remove from `active`, check expiry, check `revoked`, check `claimed`, insert into `claimed`.
 */
module Tokens {
  import opened Wrappers

  datatype Token = Token(device: string, session: string, nonce: string, expiresAt: int, opaqueId: string)

  datatype Reason = NotFound | Expired | DeviceRevoked | AlreadyClaimed

  datatype Claim =
    | Presented(opaqueId: string)
    | Removed(token: Token)
    | NotExpired(token: Token)
    | NotRevoked(token: Token)
    | NotClaimed(token: Token)
    | Succeeded(token: Token)
    | Failed(reason: Reason)

  /** `minted` is the history of tokens handed out; the other three are the store's concurrent maps. */
  datatype Store = Store(
    active: map<string, Token>, claimed: set<string>, revoked: set<string>,
    minted: seq<Token>, claims: seq<Claim>)

  datatype Action =
    | Mint(token: Token)
    | Revoke(device: string)
    | Present(opaqueId: string)
    | ClaimDirectly(token: Token)
    | Advance(claim: nat, now: int)

  const EMPTY := Store(map[], {}, {}, [], [])

  /** Random nonces, and opaques hashed from them, are new at each mint. */
  predicate Fresh(s: Store, t: Token) {
    forall u :: u in s.minted ==> u.nonce != t.nonce && u.opaqueId != t.opaqueId
  }

  function AdvanceClaim(s: Store, i: nat, now: int): Option<Store>
    requires i < |s.claims|
  {
    match s.claims[i]
    case Presented(o) =>
      if o in s.active
      then Some(s.(active := s.active - {o}, claims := s.claims[i := Removed(s.active[o])]))
      else Some(s.(claims := s.claims[i := Failed(NotFound)]))
    case Removed(t) => Some(s.(claims := s.claims[i := if t.expiresAt < now then Failed(Expired) else NotExpired(t)]))
    case NotExpired(t) => Some(s.(claims := s.claims[i := if t.device in s.revoked then Failed(DeviceRevoked) else NotRevoked(t)]))
    case NotRevoked(t) => Some(s.(claims := s.claims[i := if t.nonce in s.claimed then Failed(AlreadyClaimed) else NotClaimed(t)]))
    case NotClaimed(t) => Some(s.(claimed := s.claimed + {t.nonce}, claims := s.claims[i := Succeeded(t)]))
    case _ => None
  }

  function Act(s: Store, a: Action): Option<Store> {
    match a
    case Mint(t) =>
      if Fresh(s, t) then Some(s.(active := s.active[t.opaqueId := t], minted := s.minted + [t])) else None
    case Revoke(d) => Some(s.(revoked := s.revoked + {d}))
    case Present(o) => Some(s.(claims := s.claims + [Presented(o)]))
    case ClaimDirectly(t) => Some(s.(claims := s.claims + [Removed(t)]))
    case Advance(i, now) => if i < |s.claims| then AdvanceClaim(s, i, now) else None
  }

  function Run(s: Store, actions: seq<Action>): Option<Store>
    decreases |actions|
  {
    if actions == [] then Some(s)
    else match Act(s, actions[0]) case None => None case Some(t) => Run(t, actions[1..])
  }

  /** Every claim goes through `claim_by_opaque`. */
  predicate ByOpaque(actions: seq<Action>) {
    forall a :: a in actions ==> !a.ClaimDirectly?
  }

  // ---- the invariant ----

  predicate Carries(c: Claim) { !c.Presented? && !c.Failed? }

  predicate InFlight(c: Claim) { Carries(c) && !c.Succeeded? }

  /** Nonces of active tokens, of tokens in flight and of claimed tokens are pairwise disjoint, each held once. */
  ghost predicate Inv(s: Store) {
    && (forall o :: o in s.active ==> s.active[o].opaqueId == o && s.active[o] in s.minted)
    && (forall i, j :: 0 <= i < j < |s.minted| ==> s.minted[i].nonce != s.minted[j].nonce && s.minted[i].opaqueId != s.minted[j].opaqueId)
    && (forall i :: 0 <= i < |s.claims| && Carries(s.claims[i]) ==> s.claims[i].token in s.minted)
    && (forall i, o :: 0 <= i < |s.claims| && Carries(s.claims[i]) && o in s.active ==> s.active[o].nonce != s.claims[i].token.nonce)
    && (forall i, j :: 0 <= i < j < |s.claims| && Carries(s.claims[i]) && Carries(s.claims[j])
          ==> s.claims[i].token.nonce != s.claims[j].token.nonce)
    && (forall i :: 0 <= i < |s.claims| && Carries(s.claims[i]) ==> (s.claims[i].token.nonce in s.claimed <==> s.claims[i].Succeeded?))
    && (forall o :: o in s.active ==> s.active[o].nonce !in s.claimed)
    && (forall n :: n in s.claimed ==> exists t :: t in s.minted && t.nonce == n)
  }

  lemma MintedDistinct(s: Store, u: Token, v: Token)
    requires Inv(s) && u in s.minted && v in s.minted && u != v
    ensures u.nonce != v.nonce && u.opaqueId != v.opaqueId
  {
    var a :| 0 <= a < |s.minted| && s.minted[a] == u;
    var b :| 0 <= b < |s.minted| && s.minted[b] == v;
    assert a < b || b < a;
  }

  lemma RemoveKeepsInv(s: Store, i: nat, now: int)
    requires Inv(s) && i < |s.claims| && s.claims[i].Presented?
    ensures Inv(AdvanceClaim(s, i, now).value)
  {
    var t := AdvanceClaim(s, i, now).value;
    var presented := s.claims[i].opaqueId;
    if presented in s.active {
      var tok := s.active[presented];
      forall o | o in t.active ensures t.active[o].nonce != tok.nonce {
        MintedDistinct(s, s.active[o], tok);
      }
    }
  }

  lemma CheckKeepsInv(s: Store, i: nat, now: int)
    requires Inv(s) && i < |s.claims| && (s.claims[i].Removed? || s.claims[i].NotExpired? || s.claims[i].NotRevoked?)
    ensures Inv(AdvanceClaim(s, i, now).value)
  {
    var t := AdvanceClaim(s, i, now).value;
    assert t.claims == s.claims[i := t.claims[i]];
    assert Carries(t.claims[i]) ==> t.claims[i].token == s.claims[i].token && !t.claims[i].Succeeded?;
  }

  lemma InsertKeepsInv(s: Store, i: nat, now: int)
    requires Inv(s) && i < |s.claims| && s.claims[i].NotClaimed?
    ensures Inv(AdvanceClaim(s, i, now).value)
  {
    assert s.claims[i].token in s.minted;
  }

  lemma MintKeepsInv(s: Store, tok: Token)
    requires Inv(s) && Fresh(s, tok)
    ensures Inv(Act(s, Mint(tok)).value)
  {
    var t := Act(s, Mint(tok)).value;
    assert forall u :: u in s.minted ==> u in t.minted;
    assert tok in t.minted;
  }

  lemma ActKeepsInv(s: Store, a: Action)
    requires Inv(s) && Act(s, a).Some? && !a.ClaimDirectly?
    ensures Inv(Act(s, a).value)
  {
    match a {
      case Mint(tok) => MintKeepsInv(s, tok);
      case Advance(i, now) =>
        if s.claims[i].Presented? {
          RemoveKeepsInv(s, i, now);
        } else if s.claims[i].NotClaimed? {
          InsertKeepsInv(s, i, now);
        } else {
          CheckKeepsInv(s, i, now);
        }
      case Revoke(_) =>
      case Present(_) =>
    }
  }

  lemma {:induction false} RunKeepsInv(s: Store, actions: seq<Action>)
    requires Inv(s) && Run(s, actions).Some? && ByOpaque(actions)
    ensures Inv(Run(s, actions).value)
    decreases |actions|
  {
    if actions != [] {
      assert actions[0] in actions;
      ActKeepsInv(s, actions[0]);
      RunKeepsInv(Act(s, actions[0]).value, actions[1..]);
    }
  }

  // ---- main results ----

  /** However claims interleave, no token is claimed twice, and what is claimed was minted. */
  lemma SingleUse(actions: seq<Action>, i: nat, j: nat)
    requires Run(EMPTY, actions).Some? && ByOpaque(actions)
    requires i < |Run(EMPTY, actions).value.claims| && j < |Run(EMPTY, actions).value.claims|
    requires Run(EMPTY, actions).value.claims[i].Succeeded? && Run(EMPTY, actions).value.claims[j].Succeeded?
    ensures var s := Run(EMPTY, actions).value;
            && s.claims[i].token in s.minted
            && (i != j ==> s.claims[i].token.nonce != s.claims[j].token.nonce
                           && s.claims[i].token.opaqueId != s.claims[j].token.opaqueId)
  {
    RunKeepsInv(EMPTY, actions);
    var s := Run(EMPTY, actions).value;
    if i != j {
      assert s.claims[if i < j then i else j].token.nonce != s.claims[if i < j then j else i].token.nonce;
      MintedDistinct(s, s.claims[i].token, s.claims[j].token);
    }
  }

  /** Active, in-flight and claimed nonces never meet, although checking `claimed` and inserting are separate steps. */
  lemma NoncesDisjoint(actions: seq<Action>, i: nat)
    requires Run(EMPTY, actions).Some? && ByOpaque(actions)
    requires i < |Run(EMPTY, actions).value.claims| && InFlight(Run(EMPTY, actions).value.claims[i])
    ensures var s := Run(EMPTY, actions).value;
            && s.claims[i].token.nonce !in s.claimed
            && (forall o :: o in s.active ==> s.active[o].nonce != s.claims[i].token.nonce && s.active[o].nonce !in s.claimed)
  {
    RunKeepsInv(EMPTY, actions);
  }

  /** How one claim may look after more steps: it keeps its token, and the token is the one whose opaque it presented. */
  predicate Continues(c: Claim, d: Claim) {
    match c
    case Presented(o) => d == c || d.Failed? || (Carries(d) && d.token.opaqueId == o)
    case Succeeded(_) => d == c
    case Failed(_) => d == c
    case _ => d.Failed? || (Carries(d) && d.token == c.token)
  }

  lemma ActContinues(s: Store, a: Action, i: nat)
    requires Inv(s) && Act(s, a).Some? && i < |s.claims|
    ensures i < |Act(s, a).value.claims| && Continues(s.claims[i], Act(s, a).value.claims[i])
  {
  }

  lemma {:induction false} RunContinues(s: Store, actions: seq<Action>, i: nat)
    requires Inv(s) && Run(s, actions).Some? && ByOpaque(actions) && i < |s.claims|
    ensures i < |Run(s, actions).value.claims| && Continues(s.claims[i], Run(s, actions).value.claims[i])
    decreases |actions|
  {
    if actions != [] {
      assert actions[0] in actions;
      ActKeepsInv(s, actions[0]);
      ActContinues(s, actions[0], i);
      RunContinues(Act(s, actions[0]).value, actions[1..], i);
    }
  }

  /** A claim that succeeds returns the device and session of the one minted token with the opaque it presented. */
  lemma ClaimReturnsItsBinding(actions: seq<Action>, more: seq<Action>, i: nat, o: string)
    requires Run(EMPTY, actions).Some? && ByOpaque(actions + more)
    requires Run(Run(EMPTY, actions).value, more).Some?
    requires i < |Run(EMPTY, actions).value.claims| && Run(EMPTY, actions).value.claims[i] == Presented(o)
    ensures var t := Run(Run(EMPTY, actions).value, more).value;
            && i < |t.claims|
            && (t.claims[i].Succeeded? ==>
                  && t.claims[i].token in t.minted && t.claims[i].token.opaqueId == o
                  && forall u :: u in t.minted && u.opaqueId == o ==> u == t.claims[i].token)
  {
    forall a | a in actions ensures a in actions + more {}
    forall a | a in more ensures a in actions + more {}
    RunKeepsInv(EMPTY, actions);
    var s := Run(EMPTY, actions).value;
    RunKeepsInv(s, more);
    RunContinues(s, more, i);
    var t := Run(s, more).value;
    forall u | t.claims[i].Succeeded? && u in t.minted && u.opaqueId == o ensures u == t.claims[i].token {
      if u != t.claims[i].token { MintedDistinct(t, u, t.claims[i].token); }
    }
  }

  /** The claim has not passed its revocation check, and the device of the token it is for is revoked. */
  ghost predicate Doomed(s: Store, i: nat)
    requires i < |s.claims|
  {
    match s.claims[i]
    case Presented(o) => exists t :: t in s.minted && t.opaqueId == o && t.device in s.revoked
    case Removed(t) => t.device in s.revoked
    case NotExpired(t) => t.device in s.revoked
    case Failed(_) => true
    case _ => false
  }

  lemma ActKeepsDoomed(s: Store, a: Action, i: nat)
    requires Inv(s) && Act(s, a).Some? && !a.ClaimDirectly? && i < |s.claims| && Doomed(s, i)
    ensures i < |Act(s, a).value.claims| && Doomed(Act(s, a).value, i)
  {
    var t := Act(s, a).value;
    if s.claims[i].Presented? {
      var o := s.claims[i].opaqueId;
      var tok :| tok in s.minted && tok.opaqueId == o && tok.device in s.revoked;
      assert tok in t.minted;
      if a.Advance? && a.claim == i && o in s.active {
        if tok != s.active[o] { MintedDistinct(s, tok, s.active[o]); }
      }
    }
  }

  /** A claim whose device is revoked before the revocation check never succeeds. */
  lemma {:induction false} RevokedNeverSucceeds(s: Store, actions: seq<Action>, i: nat)
    requires Inv(s) && Run(s, actions).Some? && ByOpaque(actions) && i < |s.claims| && Doomed(s, i)
    ensures i < |Run(s, actions).value.claims| && !Run(s, actions).value.claims[i].Succeeded?
    decreases |actions|
  {
    if actions != [] {
      assert actions[0] in actions;
      ActKeepsInv(s, actions[0]);
      ActKeepsDoomed(s, actions[0], i);
      RevokedNeverSucceeds(Act(s, actions[0]).value, actions[1..], i);
    }
  }

  lemma RunCons(s: Store, a: Action, rest: seq<Action>)
    requires Act(s, a).Some?
    ensures Run(s, [a] + rest) == Run(Act(s, a).value, rest)
  {
    assert ([a] + rest)[1..] == rest;
  }

  lemma Updates(x: Claim, y: Claim, z: Claim)
    ensures [x, y][0 := z] == [z, y] && [x, y][1 := z] == [x, z]
  {
  }

  function Alternate(now: int, n: nat): seq<Action> {
    if n == 0 then [] else [Advance(0, now)] + ([Advance(1, now)] + Alternate(now, n - 1))
  }

  lemma BothAdvance(s: Store, now: int, n: nat, middle: Store, after: Store)
    requires n > 0 && Act(s, Advance(0, now)) == Some(middle) && Act(middle, Advance(1, now)) == Some(after)
    ensures Run(s, Alternate(now, n)) == Run(after, Alternate(now, n - 1))
  {
    RunCons(s, Advance(0, now), [Advance(1, now)] + Alternate(now, n - 1));
    RunCons(middle, Advance(1, now), Alternate(now, n - 1));
  }

  /** A store in which nothing happened but two direct claims of one token, both at the same point. */
  function Tied(c: Claim): Store { EMPTY.(claims := [c, c]) }

  lemma BothCheck(now: int, n: nat, c: Claim, d: Claim)
    requires n > 0 && Carries(c)
    requires Act(Tied(c), Advance(0, now)) == Some(EMPTY.(claims := [c, c][0 := d]))
    requires Act(EMPTY.(claims := [d, c]), Advance(1, now)) == Some(EMPTY.(claims := [d, c][1 := d]))
    ensures Run(Tied(c), Alternate(now, n)) == Run(Tied(d), Alternate(now, n - 1))
  {
    Updates(c, c, d);
    Updates(d, c, d);
    BothAdvance(Tied(c), now, n, EMPTY.(claims := [d, c]), Tied(d));
  }

  lemma BothSucceed(t: Token, now: int)
    ensures Run(Tied(NotClaimed(t)), Alternate(now, 1)) == Some(Tied(Succeeded(t)).(claimed := {t.nonce}))
  {
    var c, d := NotClaimed(t), Succeeded(t);
    Updates(c, c, d);
    Updates(d, c, d);
    assert EMPTY.claimed + {t.nonce} == {t.nonce} && {t.nonce} + {t.nonce} == {t.nonce};
    BothAdvance(Tied(c), now, 1, EMPTY.(claimed := {t.nonce}, claims := [d, c]), Tied(d).(claimed := {t.nonce}));
  }

  lemma TwoDirectClaims(t: Token, rest: seq<Action>)
    ensures Run(EMPTY, [ClaimDirectly(t)] + ([ClaimDirectly(t)] + rest)) == Run(Tied(Removed(t)), rest)
  {
    var d := ClaimDirectly(t);
    var s0 := EMPTY.(claims := [Removed(t)]);
    assert EMPTY.claims + [Removed(t)] == [Removed(t)] && s0.claims + [Removed(t)] == [Removed(t), Removed(t)];
    RunCons(EMPTY, d, [d] + rest);
    RunCons(s0, d, rest);
  }

  lemma BothPassChecks(t: Token, now: int)
    requires now <= t.expiresAt
    ensures Run(Tied(Removed(t)), Alternate(now, 4)) == Run(Tied(NotClaimed(t)), Alternate(now, 1))
  {
    BothCheck(now, 4, Removed(t), NotExpired(t));
    BothCheck(now, 3, NotExpired(t), NotRevoked(t));
    BothCheck(now, 2, NotRevoked(t), NotClaimed(t));
  }

  /**
   * Without the removal from `active` the check-then-insert is not single-use: two claims of the token itself,
   * interleaved between check and insert, both succeed.
   */
  lemma DirectClaimsRace(t: Token, now: int) returns (actions: seq<Action>)
    requires now <= t.expiresAt
    ensures Run(EMPTY, actions) == Some(Tied(Succeeded(t)).(claimed := {t.nonce}))
  {
    actions := [ClaimDirectly(t)] + ([ClaimDirectly(t)] + Alternate(now, 4));
    TwoDirectClaims(t, Alternate(now, 4));
    BothPassChecks(t, now);
    BothSucceed(t, now);
  }

  // ---- exactly when two claims of one nonce both succeed, direct ones included ----

  /** Claim `i` succeeded, with this nonce. */
  predicate Won(s: Store, i: nat, nonce: string) {
    i < |s.claims| && s.claims[i].Succeeded? && s.claims[i].token.nonce == nonce
  }

  /** Both claims, of this nonce, have passed the check of `claimed`, and neither has inserted. */
  predicate BothPast(s: Store, i: nat, j: nat, nonce: string) {
    && i < |s.claims| && s.claims[i].NotClaimed? && s.claims[i].token.nonce == nonce
    && j < |s.claims| && s.claims[j].NotClaimed? && s.claims[j].token.nonce == nonce
  }

  /** The nonce is claimed, and claim `i` has not passed the check with it, if it has begun at all. */
  predicate TooLate(s: Store, i: nat, nonce: string) {
    && nonce in s.claimed
    && (i < |s.claims| && (s.claims[i].NotClaimed? || s.claims[i].Succeeded?) ==> s.claims[i].token.nonce != nonce)
  }

  lemma ActKeepsTooLate(s: Store, a: Action, i: nat, nonce: string)
    requires Act(s, a).Some? && TooLate(s, i, nonce)
    ensures TooLate(Act(s, a).value, i, nonce)
  {}

  /** A claim that reaches its check after the nonce was inserted never succeeds with it. */
  lemma {:induction false} TooLateNeverWins(s: Store, actions: seq<Action>, i: nat, nonce: string)
    requires Run(s, actions).Some? && TooLate(s, i, nonce)
    ensures !Won(Run(s, actions).value, i, nonce)
    decreases |actions|
  {
    if actions != [] {
      ActKeepsTooLate(s, actions[0], i, nonce);
      TooLateNeverWins(Act(s, actions[0]).value, actions[1..], i, nonce);
    }
  }

  lemma InsertAgainstOther(s: Store, a: Action, i: nat, j: nat, nonce: string)
    requires i != j && Act(s, a).Some? && !Won(s, i, nonce) && !Won(s, j, nonce) && Won(Act(s, a).value, i, nonce)
    ensures BothPast(s, i, j, nonce) || TooLate(Act(s, a).value, j, nonce)
  {}

  /** The moment at which both winners were past the check and neither had inserted. */
  lemma {:induction false} WinnersMeet(s: Store, actions: seq<Action>, i: nat, j: nat, nonce: string) returns (k: nat)
    requires i != j && Run(s, actions).Some? && !Won(s, i, nonce) && !Won(s, j, nonce)
    requires Won(Run(s, actions).value, i, nonce) && Won(Run(s, actions).value, j, nonce)
    ensures k <= |actions| && Run(s, actions[..k]).Some? && BothPast(Run(s, actions[..k]).value, i, j, nonce)
    decreases |actions|
  {
    k := 0;
    if !BothPast(s, i, j, nonce) {
      var t := Act(s, actions[0]).value;
      if Won(t, i, nonce) {
        InsertAgainstOther(s, actions[0], i, j, nonce);
        TooLateNeverWins(t, actions[1..], j, nonce);
      } else if Won(t, j, nonce) {
        InsertAgainstOther(s, actions[0], j, i, nonce);
        TooLateNeverWins(t, actions[1..], i, nonce);
      } else {
        var n := WinnersMeet(t, actions[1..], i, j, nonce);
        assert actions[..n + 1][1..] == actions[1..][..n];
        k := n + 1;
      }
    }
  }

  lemma {:induction false} RunSplits(s: Store, actions: seq<Action>, k: nat)
    requires Run(s, actions).Some? && k <= |actions|
    ensures Run(s, actions[..k]).Some? && Run(Run(s, actions[..k]).value, actions[k..]) == Run(s, actions)
    decreases k
  {
    if k > 0 {
      RunSplits(Act(s, actions[0]).value, actions[1..], k - 1);
      assert actions[..k][1..] == actions[1..][..k - 1] && actions[1..][k - 1..] == actions[k..];
    }
  }

  /** Past the check nothing is left but the insert. */
  lemma {:induction false} PastCheckOnlyInserts(s: Store, actions: seq<Action>, i: nat)
    requires Run(s, actions).Some? && i < |s.claims| && (s.claims[i].NotClaimed? || s.claims[i].Succeeded?)
    ensures var t := Run(s, actions).value;
            i < |t.claims| && (t.claims[i] == NotClaimed(s.claims[i].token) || t.claims[i] == Succeeded(s.claims[i].token))
    decreases |actions|
  {
    if actions != [] { PastCheckOnlyInserts(Act(s, actions[0]).value, actions[1..], i); }
  }

  /** Claim `i` has come to its end. */
  predicate Finished(s: Store, i: nat) { i < |s.claims| && (s.claims[i].Succeeded? || s.claims[i].Failed?) }

  /**
   * In every run, whatever mixes claims by opaque and claims of a token itself, two finished claims of one nonce have
   * both succeeded exactly when at some moment both were past the check and neither had inserted.
   */
  lemma {:induction false} BothSucceedIff(actions: seq<Action>, i: nat, j: nat, nonce: string)
    requires i != j && Run(EMPTY, actions).Some?
    requires Finished(Run(EMPTY, actions).value, i) && Finished(Run(EMPTY, actions).value, j)
    ensures var s := Run(EMPTY, actions).value;
            (Won(s, i, nonce) && Won(s, j, nonce))
            <==> exists k: nat :: k <= |actions| && Run(EMPTY, actions[..k]).Some?
                                  && BothPast(Run(EMPTY, actions[..k]).value, i, j, nonce)
  {
    var s := Run(EMPTY, actions).value;
    if Won(s, i, nonce) && Won(s, j, nonce) { var k := WinnersMeet(EMPTY, actions, i, j, nonce); }
    if k: nat :| k <= |actions| && Run(EMPTY, actions[..k]).Some? && BothPast(Run(EMPTY, actions[..k]).value, i, j, nonce) {
      RunSplits(EMPTY, actions, k);
      PastCheckOnlyInserts(Run(EMPTY, actions[..k]).value, actions[k..], i);
      PastCheckOnlyInserts(Run(EMPTY, actions[..k]).value, actions[k..], j);
    }
  }

  /** Every success is on record in `claimed`. */
  ghost predicate WinsRecorded(s: Store) {
    forall i :: 0 <= i < |s.claims| && s.claims[i].Succeeded? ==> s.claims[i].token.nonce in s.claimed
  }

  lemma {:induction false} RunRecordsWins(s: Store, actions: seq<Action>)
    requires WinsRecorded(s) && Run(s, actions).Some?
    ensures WinsRecorded(Run(s, actions).value)
    decreases |actions|
  {
    if actions != [] { RunRecordsWins(Act(s, actions[0]).value, actions[1..]); }
  }

  /** So claims that do not overlap are single-use, direct ones too: one begun after a success with its nonce fails. */
  lemma SequentialClaimsSingleUse(actions: seq<Action>, more: seq<Action>, i: nat, j: nat, nonce: string)
    requires Run(EMPTY, actions).Some? && Run(Run(EMPTY, actions).value, more).Some?
    requires Won(Run(EMPTY, actions).value, i, nonce) && j >= |Run(EMPTY, actions).value.claims|
    ensures !Won(Run(Run(EMPTY, actions).value, more).value, j, nonce)
  {
    RunRecordsWins(EMPTY, actions);
    TooLateNeverWins(Run(EMPTY, actions).value, more, j, nonce);
  }

  // ---- the store object, one call at a time ----

  class TokenStore {
    var active: map<string, Token>
    var claimed: set<string>
    var revoked: set<string>

    constructor ()
      ensures active == map[] && claimed == {} && revoked == {}
    {
      active, claimed, revoked := map[], {}, {};
    }

    method Mint(token: Token)
      modifies this`active
      ensures active == old(active)[token.opaqueId := token]
    {
      active := active[token.opaqueId := token];
    }

    method ClaimByOpaque(opaqueId: string, now: int) returns (r: Result<(string, string), Reason>)
      modifies this`active, this`claimed
      ensures active == old(active) - {opaqueId}
      ensures r.Ok? <==> opaqueId in old(active) && now <= old(active)[opaqueId].expiresAt
                         && old(active)[opaqueId].device !in revoked && old(active)[opaqueId].nonce !in old(claimed)
      ensures r.Ok? ==> r.value == (old(active)[opaqueId].device, old(active)[opaqueId].session)
      ensures claimed == if r.Ok? then old(claimed) + {old(active)[opaqueId].nonce} else old(claimed)
    {
      if opaqueId !in active { return Err(NotFound); }
      var token := active[opaqueId];
      active := active - {opaqueId};
      var c := Claim(token, now);
      match c
      case Err(e) => return Err(e);
      case Ok(_) => return Ok((token.device, token.session));
    }

    method Claim(token: Token, now: int) returns (r: Result<(), Reason>)
      modifies this`claimed
      ensures r == (if token.expiresAt < now then Err(Expired)
                    else if token.device in revoked then Err(DeviceRevoked)
                    else if token.nonce in old(claimed) then Err(AlreadyClaimed)
                    else Ok(()))
      ensures claimed == if r.Ok? then old(claimed) + {token.nonce} else old(claimed)
    {
      if token.expiresAt < now { return Err(Expired); }
      if token.device in revoked { return Err(DeviceRevoked); }
      if token.nonce in claimed { return Err(AlreadyClaimed); }
      claimed := claimed + {token.nonce};
      return Ok(());
    }

    method RevokeDevice(device: string)
      modifies this`revoked
      ensures revoked == old(revoked) + {device}
    {
      revoked := revoked + {device};
    }
  }
}
