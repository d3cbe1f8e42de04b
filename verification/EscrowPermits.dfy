/** When a call goes through: for every call but a claim, the exact condition under which a contract
    without a deficit accepts it. */
module EscrowPermits {
  import opened Prelude
  import opened EscrowModel
  import opened EscrowInvariants
  import opened EscrowRuns
  import opened EscrowMoney
  import opened EscrowSolvency
  import opened EscrowAccounts
  import opened EscrowRecords
  import opened EscrowTimelines

  predicate TokenUsable(c: Config, token: Address) {
    && token !in c.blocked && (c.allowed.Some? ==> token in c.allowed.value)
    && (c.stablecoins.Some? ==> token in c.stablecoins.value)
  }

  predicate StakeAllowed(s: State, t: Terms) {
    && s.config.stakes.minimum <= t.stake
    && (s.config.stakes.maximum.Some? ==> t.stake <= s.config.stakes.maximum.value)
    && TierAllows(s.core, t.player1, t.stake) && TierAllows(s.core, t.player2, t.stake)
  }

  /** How many of the three stake limits a stake is above. */
  function StakeBand(stake: int): nat {
    (if stake > 100 then 1 else 0) + (if stake > 500 then 1 else 0) + (if stake > 1_000 then 1 else 0)
  }

  /** How many of the three promotions a player with that many completed matches has had. */
  function Rank(completed: nat): nat {
    (if completed >= 3 then 1 else 0) + (if completed >= 6 then 1 else 0) + (if completed >= 10 then 1 else 0)
  }

  /** Every positive stake is open to the players of exactly one rank, the one of its band. */
  lemma TiersExact(c: Core, p: Address, stake: int)
    ensures TierAllows(c, p, stake) <==> 1 <= stake <= I128_MAX && StakeBand(stake) == Rank(Lookup(c.completed, p, 0))
  {
  }

  /** The pot of the match can be paid out to one player. */
  predicate PotFits(m: Match, winner: Winner) {
    winner == Draw || 2 * m.terms.stake <= I128_MAX
  }

  /** The condition on the match `m` that call `op` is about. */
  predicate PermittedOn(s: State, op: Op, id: nat, m: Match) {
    match op
    case DepositStake(_, who) =>
      && !s.config.paused && who !in s.config.frozen && m.state == Pending && Plays(m, who) && !HasDeposit(m, who)
      && TierAllows(s.core, who, m.terms.stake) && BalanceOf(s.balances, m.terms.token, who) >= m.terms.stake
      && (OtherDeposited(m, who) ==>
            !AtCap(s.core.matches, m.terms.player1) && !AtCap(s.core.matches, m.terms.player2))
    case SubmitResult(_, winner, who) =>
      && !s.config.paused && who == s.config.oracle && winner != NoWinner && Live(m.state)
      && (if s.config.disputePeriod == 0 then 2 * m.terms.stake <= I128_MAX
          else s.ledger + s.config.disputePeriod <= U32_MAX)
    case CancelMatch(_, who) =>
      && !s.config.paused && m.state == Pending && Plays(m, who)
      && m.terms.stake * s.config.fees.cancelBps <= I128_MAX
    case ExpireMatch(_) =>
      && m.state == Pending && m.terms.token !in s.config.blocked
      && SatSub(s.ledger, m.terms.created) * SECONDS_PER_LEDGER >= s.config.timeoutSecs
    case PauseMatch(_, who) =>
      m.state == Active && Plays(m, who) && m.timing.pauseTotal < MAX_PAUSE_DURATION_LEDGERS
    case ResumeMatch(_, who) => m.state == Paused && Plays(m, who)
    case Heartbeat(_, who) => m.state == Active && Plays(m, who)
    case VoteRollback(_, who, reasonLen) =>
      && 1 <= reasonLen <= MAX_REASON_LEN && m.state == Active && Plays(m, who)
      && s.time <= m.timing.heartbeat + ROLLBACK_WINDOW_SECONDS
    case AdminResolve(_, who, winner) =>
      && who == s.config.admin && winner != NoWinner && Live(m.state) && PotFits(m, winner)
      && s.time > ADMIN_STALL_WINDOW_SECONDS +
           if m.timing.activatedAt.Some? then m.timing.activatedAt.value else m.timing.heartbeat
    case FinalizeMatch(_) =>
      && m.state == PendingResult && id !in s.docket.byMatch && PotFits(m, m.winner)
      && id in s.docket.deadline && s.ledger >= s.docket.deadline[id]
    case RaiseDispute(_, who, hashOk) =>
      var rate := BondRate(s.config.stakes, m.terms.stake);
      var cut := Cut(m.terms.stake, rate);
      var bond := if cut < 1 then 1 else cut;
      && m.state == PendingResult && Plays(m, who) && hashOk && id !in s.docket.byMatch
      && id in s.docket.deadline && s.ledger < s.docket.deadline[id]
      && m.terms.stake * rate <= I128_MAX && s.ledger + VOTING_PERIOD_LEDGERS <= U32_MAX
      && (BalanceOf(s.balances, m.terms.token, s.self) + bond) * s.config.quorumBps <= I128_MAX
      && BalanceOf(s.balances, m.terms.token, who) >= bond
    case _ => true
  }

  predicate PermittedDispute(s: State, op: Op)
    requires op.VoteDispute? || op.SettleDispute?
  {
    && op.dispute in s.docket.disputes
    && var d := s.docket.disputes[op.dispute];
       && d.state == Ongoing
       && match op
          case VoteDispute(k, who, _) =>
            var weight := WeightAt(Lookup(s.core.log, who, []), SatSub(d.snapshotLedger, s.config.holdDuration));
            && s.ledger < d.votingDeadline && who !in Lookup(s.docket.ballots, k, map[])
            && weight.Some? && weight.value > 0
          case SettleDispute(_) =>
            && s.ledger >= d.votingDeadline && d.yes + d.no >= d.quorum
            && (d.yes > d.no || (d.matchId in s.core.matches && PotFits(s.core.matches[d.matchId],
                  s.core.matches[d.matchId].winner)))
  }

  predicate Permitted(s: State, op: Op) {
    if op.CreateMatch? then
      var t := op.terms;
      && !s.config.paused && t.player1 !in s.config.frozen && t.player2 !in s.config.frozen
      && TokenUsable(s.config, t.token) && StakeAllowed(s, t)
      && (t.referrer.Some? ==> t.referrer.value !in {t.player1, t.player2, s.self})
      && GameIdOk(t.game, op.platform) && t.game !in s.core.games
      && t.player1 != t.player2 && t.player2 != s.self
    else if op.VoteDispute? || op.SettleDispute? then PermittedDispute(s, op)
    else op.id in s.core.matches && PermittedOn(s, op, op.id, s.core.matches[op.id])
  }

  lemma CreatePermitted(s: State, t: Terms, platform: Platform)
    ensures Create(s, t, platform).Ok? <==> Permitted(s, CreateMatch(t, platform))
  {
    hide TierAllows, GameIdOk;
  }

  lemma DepositPermitted(s: State, id: nat, who: Address)
    requires Inv(s)
    ensures Deposit(s, id, who).Ok? <==> Permitted(s, DepositStake(id, who))
  {
    hide TierAllows, AtCap, DocketOk, CountersOk, WithinCap, LogOk, BalanceOf, Snapshot, Adjust;
    if id in s.core.matches { ReadyAt(s, id); }
  }

  lemma SettlePermitted(s: State, id: nat, winner: Winner, who: Address)
    requires Inv(s)
    ensures Settle(s, id, winner, who).Ok? <==> Permitted(s, SubmitResult(id, winner, who))
  {
    hide SettledNow, SettledLater, DocketOk, CountersOk, WithinCap, LogOk;
    if id in s.core.matches { ReadyAt(s, id); }
  }

  lemma SimplePermitted(s: State, op: Op)
    requires op.CancelMatch? || op.ExpireMatch? || op.PauseMatch? || op.ResumeMatch? || op.Heartbeat?
    ensures Attempt(s, op).Ok? <==> Permitted(s, op)
  {
    hide ReleaseDeposited, RefundDeposited;
  }

  lemma RollbackPermitted(s: State, id: nat, who: Address, reasonLen: nat)
    ensures Rollback(s, id, who, reasonLen).Ok? <==> Permitted(s, VoteRollback(id, who, reasonLen))
  {
    hide SnapshotDeposited, RefundDeposited, Consent, CalledOff;
  }

  lemma StalledPermitted(s: State, id: nat, who: Address, winner: Winner)
    requires Inv(s)
    ensures ResolveStalled(s, id, who, winner).Ok? <==> Permitted(s, AdminResolve(id, who, winner))
  {
    hide ResolveStalled, Inv;
    StalledGate(s, id, who, winner);
  }

  lemma FinalizePermitted(s: State, id: nat)
    requires Inv(s)
    ensures Finalize(s, id).Ok? <==> Permitted(s, FinalizeMatch(id))
  {
    hide SnapshotBoth, CountBoth, ReleaseBoth, Payout, DocketOk, CountersOk, WithinCap, LogOk;
    if id in s.core.matches { ReadyAt(s, id); }
  }

  lemma RaisePermitted(s: State, id: nat, who: Address, hashOk: bool)
    ensures OpenDispute(s, id, who, hashOk).Ok? <==> Permitted(s, RaiseDispute(id, who, hashOk))
  {
    hide BondFor, BondRate, BalanceOf;
    if id in s.core.matches { BondExact(s.config.stakes, s.core.matches[id].terms.stake); }
  }

  lemma CastPermitted(s: State, d: nat, who: Address, vote: bool)
    requires Inv(s)
    ensures Cast(s, d, who, vote).Ok? <==> Permitted(s, VoteDispute(d, who, vote))
  {
    hide WeightAt, Inv, BalanceOf;
    if d in s.docket.disputes { DisputeReady(s, d); }
  }

  lemma ResolvePermitted(s: State, d: nat)
    requires Inv(s)
    ensures ResolveDispute(s, d).Ok? <==> Permitted(s, SettleDispute(d))
  {
    hide CountBoth, ResolutionPays, MatchesOk, CountersOk, WithinCap, LogOk, VoteSum;
    if d in s.docket.disputes {
      assert DisputeOk(s.docket, s.core.matches, d);
      ReadyAt(s, s.docket.disputes[d].matchId);
    }
  }

  lemma AttemptExactly(s: State, op: Op)
    requires Inv(s) && !op.ClaimPayout?
    ensures Attempt(s, op).Ok? <==> Permitted(s, op)
  {
    hide Inv, Permitted, Create, Deposit, Settle, Rollback, ResolveStalled, Finalize, OpenDispute, Cast, ResolveDispute;
    match op
    case CreateMatch(t, platform) => CreatePermitted(s, t, platform);
    case DepositStake(id, who) => DepositPermitted(s, id, who);
    case SubmitResult(id, winner, who) => SettlePermitted(s, id, winner, who);
    case VoteRollback(id, who, n) => RollbackPermitted(s, id, who, n);
    case AdminResolve(id, who, winner) => StalledPermitted(s, id, who, winner);
    case FinalizeMatch(id) => FinalizePermitted(s, id);
    case RaiseDispute(id, who, hashOk) => RaisePermitted(s, id, who, hashOk);
    case VoteDispute(d, who, vote) => CastPermitted(s, d, who, vote);
    case SettleDispute(d) => ResolvePermitted(s, d);
    case _ => SimplePermitted(s, op);
  }

  /** In a contract that is not in deficit a call other than a claim succeeds, transfers included,
      exactly when it is permitted. */
  lemma SucceedsExactly(s: State, op: Op)
    requires Inv(s) && !op.ClaimPayout?
    requires Target(s, op) in s.core.matches ==> Surplus(s, TokenOf(s, op)) >= 0
    ensures Perform(s, op).Ok? <==> Permitted(s, op)
  {
    AttemptExactly(s, op);
    hide Inv, Attempt, Permitted, Surplus;
    if Attempt(s, op).Ok? {
      PayoutsSucceed(s, op);
    }
  }

  /** The state a while later. */
  function Later(s: State, ledgers: nat, seconds: nat): State {
    s.(ledger := s.ledger + ledgers, time := s.time + seconds)
  }

  lemma WaitKeeps(s: State, ledgers: nat, seconds: nat, t: Address)
    requires Inv(s)
    ensures Inv(Later(s, ledgers, seconds)) && Surplus(Later(s, ledgers, seconds), t) == Surplus(s, t)
  {
    hide Inv;
    AdvanceKeeps(s, s.ledger + ledgers, s.time + seconds);
  }

  /** Stakes are never locked in: without a deficit, a match under way can, after a wait, be drawn by the
      admin, and a match that waits for deposits can, after a wait, be expired by anyone unless its token
      is blocked. Either way every depositor gets the stake back. */
  lemma StakesComeBack(s: State, id: nat, a: Address) returns (ledgers: nat, seconds: nat, op: Op)
    requires Inv(s) && id in s.core.matches && Surplus(s, s.core.matches[id].terms.token) >= 0 && a != s.self
    requires Live(s.core.matches[id].state)
             || (s.core.matches[id].state == Pending && s.core.matches[id].terms.token !in s.config.blocked)
    ensures var s1, m := Later(s, ledgers, seconds), s.core.matches[id];
      && Perform(s1, op).Ok?
      && BalanceOf(Perform(s1, op).value.balances, m.terms.token, a)
         == BalanceOf(s.balances, m.terms.token, a) + if HasDeposit(m, a) then m.terms.stake else 0
  {
    var m := s.core.matches[id];
    if Live(m.state) {
      var start := if m.timing.activatedAt.Some? then m.timing.activatedAt.value else m.timing.heartbeat;
      ledgers, seconds, op := 0, ADMIN_STALL_WINDOW_SECONDS + start + 1, AdminResolve(id, s.config.admin, Draw);
      DrawPermitted(s, id, seconds);
    } else {
      ledgers, seconds, op := s.config.timeoutSecs + m.terms.created, 0, ExpireMatch(id);
      ExpiryPermitted(s, id, ledgers);
    }
    hide Inv, Surplus, Perform, BalanceOf, Permitted, Gain, Legal;
    WaitKeeps(s, ledgers, seconds, m.terms.token);
    DepositorsGain(s, id, a, Later(s, ledgers, seconds), op);
    SucceedsExactly(Later(s, ledgers, seconds), op);
    PlainlyLegal(Later(s, ledgers, seconds), op);
    AccountsMove(Later(s, ledgers, seconds), op, m.terms.token, a);
  }

  lemma PlainlyLegal(s: State, op: Op)
    requires !op.CreateMatch?
    ensures Legal(s, Call(op))
  {
  }

  lemma DrawPermitted(s: State, id: nat, seconds: nat)
    requires id in s.core.matches && Live(s.core.matches[id].state)
    requires var t := s.core.matches[id].timing;
      seconds > ADMIN_STALL_WINDOW_SECONDS + if t.activatedAt.Some? then t.activatedAt.value else t.heartbeat
    ensures Permitted(Later(s, 0, seconds), AdminResolve(id, s.config.admin, Draw))
  {
  }

  lemma ExpiryPermitted(s: State, id: nat, ledgers: nat)
    requires id in s.core.matches && s.core.matches[id].state == Pending
    requires s.core.matches[id].terms.token !in s.config.blocked
    requires ledgers >= s.config.timeoutSecs + s.core.matches[id].terms.created
    ensures Permitted(Later(s, ledgers, 0), ExpireMatch(id))
  {
  }

  lemma DepositorsGain(s: State, id: nat, a: Address, s1: State, op: Op)
    requires Inv(s) && id in s.core.matches && s1.core == s.core
    requires (op == ExpireMatch(id)) || (op.AdminResolve? && op.id == id && op.winner == Draw
                                         && Live(s.core.matches[id].state))
    ensures var m := s.core.matches[id]; Gain(s1, op, a) == if HasDeposit(m, a) then m.terms.stake else 0
  {
    hide DocketOk, CountersOk, WithinCap, LogOk;
    ReadyAt(s, id);
  }
}
