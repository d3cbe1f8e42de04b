/** The record of a match, field by field: which calls change a field, and to what. */
module EscrowRecords {
  import opened Prelude
  import opened EscrowModel
  import opened EscrowInvariants
  import opened EscrowRuns

  /** The other player of the match has already done what `p` is doing. */
  predicate OtherConsented(m: Match, p: Address) {
    if p == m.terms.player1 then m.rollback2 else m.rollback1
  }

  predicate OtherDeposited(m: Match, p: Address) {
    if p == m.terms.player1 then m.deposited2 else m.deposited1
  }

  function NextState(s: State, op: Op, m: Match): MatchState {
    match op
    case DepositStake(_, who) => if OtherDeposited(m, who) then Active else m.state
    case SubmitResult(_, _, _) => if s.config.disputePeriod == 0 then Completed else PendingResult
    case CancelMatch(_, _) => Cancelled
    case ExpireMatch(_) => Cancelled
    case VoteRollback(_, who, _) => if OtherConsented(m, who) then Cancelled else m.state
    case PauseMatch(_, _) => Paused
    case ResumeMatch(_, _) => Active
    case AdminResolve(_, _, _) => Completed
    case FinalizeMatch(_) => Completed
    case SettleDispute(_) => Completed
    case _ => m.state
  }

  /** The flags of the two players. */
  ghost predicate Flags(op: Op, m: Match, m': Match) {
    var p1, p2 := m.terms.player1, m.terms.player2;
    && (m'.deposited1 <==> m.deposited1 || (op.DepositStake? && op.who == p1))
    && (m'.deposited2 <==> m.deposited2 || (op.DepositStake? && op.who == p2))
    && (m'.rollback1 <==> m.rollback1 || (op.VoteRollback? && op.who == p1))
    && (m'.rollback2 <==> m.rollback2 || (op.VoteRollback? && op.who == p2))
    && (m'.claimed1 <==> m.claimed1 || (op.ClaimPayout? && op.who == p1))
    && (m'.claimed2 <==> m.claimed2 || (op.ClaimPayout? && op.who == p2))
  }

  ghost predicate Times(s: State, op: Op, m: Match, m': Match) {
    var t, t' := m.timing, m'.timing;
    && t'.heartbeat == (if op.DepositStake? || op.Heartbeat? then s.time else t.heartbeat)
    && t'.activatedAt == (if m.state == Pending && m'.state == Active then Some(s.time) else t.activatedAt)
    && t'.vestedAt == (if op.SubmitResult? then Some(s.time) else t.vestedAt)
    && t'.completedAt == (if !Terminal(m.state) && Terminal(m'.state) then Some(s.ledger) else t.completedAt)
    && t'.pausedAt == (if op.PauseMatch? then Some(s.ledger) else if op.ResumeMatch? then None else t.pausedAt)
    && t'.pauseTotal == if op.ResumeMatch? && t.pausedAt.Some?
                        then Min(t.pauseTotal + SatSub(s.ledger, t.pausedAt.value), U32_MAX) else t.pauseTotal
  }

  /** How an accepted call rewrites the record of its match. */
  ghost predicate Rewrites(s: State, op: Op, m: Match, m': Match) {
    && m'.terms == m.terms
    && m'.state == NextState(s, op, m)
    && m'.winner == (if op.SubmitResult? || op.AdminResolve? then op.winner else m.winner)
    && Flags(op, m, m') && Times(s, op, m, m')
  }

  ghost predicate Rewritten(s: State, op: Op, e: Effect, id: nat) {
    id in s.core.matches && id in e.core.matches && Rewrites(s, op, s.core.matches[id], e.core.matches[id])
  }

  lemma DepositRewrites(s: State, id: nat, p: Address)
    requires Deposit(s, id, p).Ok? && id in s.core.matches && Ready(s, id)
    ensures Rewritten(s, DepositStake(id, p), Deposit(s, id, p).value, id)
  {
    hide AtCap, TierAllows;
  }

  lemma SettledNowRewrites(s: State, id: nat, winner: Winner, p: Address)
    requires Ready(s, id) && Live(s.core.matches[id].state) && s.config.disputePeriod == 0
    ensures Rewritten(s, SubmitResult(id, winner, p), SettledNow(s, id, winner), id)
  {
    hide SnapshotBoth, CountBoth, ReleaseBoth;
    var m := s.core.matches[id];
    var m1 := Settled(m, winner, s.time);
    var c1 := Put(s.core, id, m1.(timing := m1.timing.(completedAt := Some(s.ledger))));
    SnapshotFrames(c1, m, s.ledger);
    ReleaseBothSpec(CountBoth(c1, m), m);
    SnapshotFrames(ReleaseBoth(CountBoth(c1, m), m), m, s.ledger);
  }

  lemma SettledLaterRewrites(s: State, id: nat, winner: Winner, p: Address)
    requires Ready(s, id) && Live(s.core.matches[id].state) && s.config.disputePeriod != 0
    ensures Rewritten(s, SubmitResult(id, winner, p), SettledLater(s, id, winner), id)
  {
    hide CountBoth;
    var m := s.core.matches[id];
    SnapshotFrames(Put(s.core, id, Settled(m, winner, s.time).(state := PendingResult)), m, s.ledger);
  }

  lemma SettleRewrites(s: State, id: nat, winner: Winner, p: Address)
    requires Settle(s, id, winner, p).Ok? && Ready(s, id)
    ensures Rewritten(s, SubmitResult(id, winner, p), Settle(s, id, winner, p).value, id)
  {
    hide SettledNow, SettledLater, Rewritten, MatchOk;
    if s.config.disputePeriod == 0 {
      SettledNowRewrites(s, id, winner, p);
    } else {
      SettledLaterRewrites(s, id, winner, p);
    }
  }

  lemma CallOffRewrites(s: State, op: Op)
    requires (op.CancelMatch? || op.ExpireMatch?) && Attempt(s, op).Ok? && op.id in s.core.matches && Ready(s, op.id)
    ensures Rewritten(s, op, Attempt(s, op).value, op.id)
  {
    hide ReleaseDeposited, RefundDeposited;
    var m := s.core.matches[op.id];
    ReleaseDepositedSpec(Put(s.core, op.id, CalledOff(m, s.ledger)), m, s.ledger);
  }

  lemma RollbackRewrites(s: State, id: nat, p: Address, reasonLen: nat)
    requires Rollback(s, id, p, reasonLen).Ok? && id in s.core.matches && Ready(s, id)
    ensures Rewritten(s, VoteRollback(id, p, reasonLen), Rollback(s, id, p, reasonLen).value, id)
  {
    hide SnapshotDeposited, RefundDeposited;
    var m1 := Consent(s.core.matches[id], p);
    SnapshotFrames(Put(s.core, id, CalledOff(m1, s.ledger)), m1, s.ledger);
  }

  lemma StalledRewrites(s: State, id: nat, p: Address, winner: Winner)
    requires ResolveStalled(s, id, p, winner).Ok? && id in s.core.matches && Ready(s, id)
    ensures Rewritten(s, AdminResolve(id, p, winner), ResolveStalled(s, id, p, winner).value, id)
  {
    hide SnapshotBoth, CountBoth, Payout, PotOverflows;
    var m := s.core.matches[id];
    var m1 := m.(state := Completed, winner := winner, timing := m.timing.(completedAt := Some(s.ledger)));
    SnapshotFrames(Put(s.core, id, m1), m, s.ledger);
    SnapshotFrames(SnapshotBoth(Put(s.core, id, m1), m, s.ledger), m, s.ledger);
  }

  lemma ClaimRewrites(s: State, id: nat, p: Address)
    requires Claim(s, id, p).Ok? && id in s.core.matches && Ready(s, id)
    ensures Rewritten(s, ClaimPayout(id, p), Claim(s, id, p).value, id)
  {
    hide Share;
  }

  lemma FinalizeRewrites(s: State, id: nat)
    requires Finalize(s, id).Ok? && id in s.core.matches && Ready(s, id)
    ensures Rewritten(s, FinalizeMatch(id), Finalize(s, id).value, id)
  {
    hide SnapshotBoth, CountBoth, ReleaseBoth, Payout, PotOverflows;
    var m := s.core.matches[id];
    var c1 := Put(s.core, id, m.(state := Completed, timing := m.timing.(completedAt := Some(s.ledger))));
    ReleaseBothSpec(c1, m);
    SnapshotFrames(ReleaseBoth(c1, m), m, s.ledger);
    SnapshotFrames(CountBoth(ReleaseBoth(c1, m), m), m, s.ledger);
  }

  lemma ResolveRewrites(s: State, d: nat)
    requires Inv(s) && ResolveDispute(s, d).Ok?
    ensures d in s.docket.disputes
    ensures Rewritten(s, SettleDispute(d), ResolveDispute(s, d).value, s.docket.disputes[d].matchId)
  {
    hide CountBoth, ResolutionPays, PotOverflows, Inv;
    var id := s.docket.disputes[d].matchId;
    var m := s.core.matches[id];
    DisputeReady(s, d);
    SnapshotFrames(Put(s.core, id, m.(state := Completed, timing := m.timing.(completedAt := Some(s.ledger)))), m,
      s.ledger);
  }

  lemma LiveRewrites(s: State, op: Op)
    requires op.PauseMatch? || op.ResumeMatch? || op.Heartbeat?
    requires Attempt(s, op).Ok?
    ensures Rewritten(s, op, Attempt(s, op).value, op.id)
  {
  }

  lemma DisputeRewrites(s: State, op: Op)
    requires Inv(s) && (op.RaiseDispute? || op.VoteDispute?) && Attempt(s, op).Ok?
    ensures Rewritten(s, op, Attempt(s, op).value, Target(s, op))
  {
    hide Inv, WeightAt, BondFor, BondRate;
    if op.VoteDispute? {
      DisputeReady(s, op.dispute);
    }
  }

  /** Every accepted call on an existing match rewrites its record in exactly that way. */
  lemma CallRewrites(s: State, op: Op)
    requires Inv(s) && Attempt(s, op).Ok? && !op.CreateMatch?
    ensures Rewritten(s, op, Attempt(s, op).value, Target(s, op))
  {
    hide Inv, Attempt, Rewritten, Ready, Deposit, Settle, Rollback, ResolveStalled, Claim, Finalize, ResolveDispute;
    if op.SettleDispute? {
      ResolveAttempt(s, op.dispute);
      ResolveRewrites(s, op.dispute);
    } else if op.RaiseDispute? || op.VoteDispute? {
      DisputeRewrites(s, op);
    } else if op.PauseMatch? || op.ResumeMatch? || op.Heartbeat? {
      LiveRewrites(s, op);
    } else {
      CallFinds(s, op);
      ReadyAt(s, op.id);
      match op
      case DepositStake(id, who) => DepositAttempt(s, id, who); DepositRewrites(s, id, who);
      case SubmitResult(id, winner, who) => SettleAttempt(s, id, winner, who); SettleRewrites(s, id, winner, who);
      case VoteRollback(id, who, n) => RollbackAttempt(s, id, who, n); RollbackRewrites(s, id, who, n);
      case AdminResolve(id, who, winner) => StalledAttempt(s, id, who, winner); StalledRewrites(s, id, who, winner);
      case ClaimPayout(id, who) => ClaimAttempt(s, id, who); ClaimRewrites(s, id, who);
      case FinalizeMatch(id) => FinalizeAttempt(s, id); FinalizeRewrites(s, id);
      case CancelMatch(_, _) => CallOffRewrites(s, op);
      case ExpireMatch(_) => CallOffRewrites(s, op);
    }
  }

  lemma SettleAttempt(s: State, id: nat, winner: Winner, p: Address)
    ensures Attempt(s, SubmitResult(id, winner, p)) == Settle(s, id, winner, p)
  {
    hide Settle;
  }

  lemma CallFinds(s: State, op: Op)
    requires Attempt(s, op).Ok? && !op.CreateMatch? && !op.VoteDispute? && !op.SettleDispute?
    ensures op.id in s.core.matches
  {
    hide Share, ReleaseDeposited, RefundDeposited, SnapshotDeposited, SettledNow, SettledLater, SnapshotBoth, CountBoth,
      ReleaseBoth, Payout, PotOverflows, BondFor, BondRate, AtCap, TierAllows, Stalled;
  }

  // ----- steps

  /** The step is an accepted call on match `id`. */
  ghost predicate Acts(s: State, e: Event, id: nat) {
    e.Call? && Perform(s, e.op).Ok? && Target(s, e.op) == id
  }

  /** A match record changes only by an accepted call on that match. */
  lemma StepRewrites(s: State, e: Event, id: nat)
    requires Inv(s) && Legal(s, e) && id in s.core.matches
    ensures id in Step(s, e).core.matches
    ensures var m, m' := s.core.matches[id], Step(s, e).core.matches[id];
      if Acts(s, e, id) then !e.op.CreateMatch? && Rewrites(s, e.op, m, m') else m' == m
  {
    hide Inv, Attempt, PayAll, Local, Rewrites;
    if e.Call? && Perform(s, e.op).Ok? {
      CallLocal(s, e.op);
      LocalParts(s, Attempt(s, e.op).value, Target(s, e.op));
      if Target(s, e.op) == id {
        NoRecreate(s, e.op);
        CallRewrites(s, e.op);
      }
    }
  }

  lemma NoRecreate(s: State, op: Op)
    requires Inv(s) && Target(s, op) in s.core.matches
    ensures !op.CreateMatch?
  {
    hide DocketOk, CountersOk, WithinCap, LogOk;
  }

  /** A match appears by an accepted creation, with the terms given to it and nothing done yet. */
  lemma StepCreates(s: State, e: Event, id: nat)
    requires Inv(s) && Legal(s, e) && id !in s.core.matches && id in Step(s, e).core.matches
    ensures Acts(s, e, id) && e.op.CreateMatch?
    ensures var m := Step(s, e).core.matches[id];
      && m.terms == e.op.terms.(created := s.ledger)
      && m.state == Pending && m.winner == NoWinner
      && !m.deposited1 && !m.deposited2 && !m.claimed1 && !m.claimed2 && !m.rollback1 && !m.rollback2
      && m.timing == Timing(None, 0, s.time, None, None, None)
  {
    hide Inv, Attempt, PayAll, Local;
    CallLocal(s, e.op);
    LocalParts(s, Attempt(s, e.op).value, Target(s, e.op));
    if !e.op.CreateMatch? {
      CallRewrites(s, e.op);
    }
    CreatedRecord(s, e.op);
  }

  lemma CreatedRecord(s: State, op: Op)
    requires op.CreateMatch? && Attempt(s, op).Ok?
    ensures var e := Attempt(s, op).value;
      && Target(s, op) in e.core.matches
      && e.core.matches[Target(s, op)] == NewMatch(op.terms.(created := s.ledger), s.time)
      && e.core.games == s.core.games + {op.terms.game} && op.terms.game !in s.core.games
  {
    hide TokenFault, TierAllows, GameIdOk;
  }
}
