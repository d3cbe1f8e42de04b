/** The timed protocols of the escrow over whole runs: dispute period and voting window, timeout,
    rollback, stall window and pause budget, each measured from the call that started it. */
module EscrowTimelines {
  import opened Prelude
  import opened EscrowModel
  import opened EscrowInvariants
  import opened EscrowRuns
  import opened EscrowMoney
  import opened EscrowSolvency
  import opened EscrowAccounts
  import opened EscrowRecords
  import opened EscrowHistory
  import opened EscrowDisputes

  lemma {:induction false} ClocksRun(trace: seq<State>, events: seq<Event>, i: nat, j: nat)
    requires Run(trace, events) && i <= j < |trace|
    ensures trace[i].ledger <= trace[j].ledger && trace[i].time <= trace[j].time && trace[i].self == trace[j].self
  {
    hide Perform;
    if i < j {
      ClocksRun(trace, events, i, j - 1);
      var s, e := trace[j - 1], events[j - 1];
      if e.Call? && Perform(s, e.op).Ok? { PerformFrame(s, e.op); }
    }
  }

  // ----- the docket

  /** The docket entry of match `id` after a step. */
  ghost predicate DocketMoves(s: State, e: Event, id: nat, d': Docket) {
    && (if Acts(s, e, id) && e.op.SubmitResult? && s.config.disputePeriod != 0
        then Get(d'.winner, id) == Some(e.op.winner) && Get(d'.deadline, id) == Some(s.ledger + s.config.disputePeriod)
        else Get(d'.winner, id) == Get(s.docket.winner, id) && Get(d'.deadline, id) == Get(s.docket.deadline, id))
    && Get(d'.byMatch, id) == if Acts(s, e, id) && e.op.RaiseDispute? then Some(s.docket.disputeCount)
                              else Get(s.docket.byMatch, id)
  }

  lemma CallDocketAt(s: State, op: Op)
    requires Inv(s) && Attempt(s, op).Ok?
    ensures var id, d, d' := Target(s, op), s.docket, Attempt(s, op).value.docket;
      && (if op.SubmitResult? && s.config.disputePeriod != 0
          then Get(d'.winner, id) == Some(op.winner) && Get(d'.deadline, id) == Some(s.ledger + s.config.disputePeriod)
          else d'.winner == d.winner && d'.deadline == d.deadline)
      && d'.byMatch == if op.RaiseDispute? then d.byMatch[id := d.disputeCount] else d.byMatch
  {
    hide Inv, WeightAt, BondFor, BondRate, Payout, PotOverflows, Verdict, SnapshotBoth, CountBoth, ReleaseBoth;
    if !op.SubmitResult? && !op.RaiseDispute? && !op.VoteDispute? && !op.SettleDispute? {
      NoNewDispute(s, op);
    }
  }

  lemma StepDocket(s: State, e: Event, id: nat)
    requires Inv(s) && Legal(s, e)
    ensures DocketMoves(s, e, id, Step(s, e).docket)
  {
    hide Inv, Attempt, PayAll, Local;
    if e.Call? && Perform(s, e.op).Ok? {
      CallDocketAt(s, e.op);
      CallLocal(s, e.op);
      LocalParts(s, Attempt(s, e.op).value, Target(s, e.op));
    }
  }

  /** A result waiting on the docket is the one the oracle submitted, and its deadline lies one dispute
      period, as set then, after that submission. */
  lemma {:induction false} DocketTraced(trace: seq<State>, events: seq<Event>, id: nat, n: nat) returns (i: nat)
    requires Run(trace, events) && Inv(trace[0]) && id !in trace[0].core.matches
    requires n < |trace| && id in trace[n].core.matches && trace[n].core.matches[id].state == PendingResult
    ensures id in trace[n].docket.winner && id in trace[n].docket.deadline
    ensures i < n && events[i] == Call(SubmitResult(id, trace[n].docket.winner[id], trace[i].config.oracle))
    ensures Perform(trace[i], events[i].op).Ok? && trace[i].config.disputePeriod > 0
    ensures trace[n].docket.deadline[id] == trace[i].ledger + trace[i].config.disputePeriod
  {
    hide Inv, Step, Legal, Perform, Flags, Times;
    var s, e := trace[n - 1], events[n - 1];
    RunKeeps(trace, events, n - 1);
    RunKeeps(trace, events, n);
    ReadyAt(trace[n], id);
    StepDocket(s, e, id);
    if id !in s.core.matches {
      StepCreates(s, e, id);
      assert false;
    }
    StepRewrites(s, e, id);
    if Acts(s, e, id) && e.op.SubmitResult? {
      Attempted(s, e.op);
      DecisionGate(s, e.op);
      i := n - 1;
    } else {
      i := DocketTraced(trace, events, id, n - 1);
    }
  }

  lemma FinalizeGate(s: State, id: nat)
    requires Finalize(s, id).Ok?
    ensures id in s.core.matches && s.core.matches[id].state == PendingResult
    ensures id in s.docket.winner && id in s.docket.deadline && id !in s.docket.byMatch
    ensures s.ledger >= s.docket.deadline[id]
  {
    hide SnapshotBoth, CountBoth, ReleaseBoth, Payout, PotOverflows;
  }

  /** In every run a finalisation comes at least the dispute period after the oracle's submission, on a
      match nobody disputed, and pays the pot as that submission says: to the player it names, or each
      stake back. */
  lemma FinalisedAsSubmitted(trace: seq<State>, events: seq<Event>, id: nat, j: nat, t: Address, a: Address)
    returns (i: nat, w: Winner)
    requires Run(trace, events) && Inv(trace[0]) && id !in trace[0].core.matches && j < |events|
    requires events[j] == Call(FinalizeMatch(id)) && Perform(trace[j], events[j].op).Ok?
    requires a != trace[0].self
    ensures i < j && events[i] == Call(SubmitResult(id, w, trace[i].config.oracle))
    ensures Perform(trace[i], events[i].op).Ok?
    ensures trace[j].ledger >= trace[i].ledger + trace[i].config.disputePeriod
    ensures id in trace[j].core.matches && id !in trace[j].docket.byMatch
    ensures var terms := trace[j].core.matches[id].terms;
      BalanceOf(trace[j + 1].balances, t, a)
      == BalanceOf(trace[j].balances, t, a) + if t == terms.token then Prize(terms, w, a) else 0
  {
    hide Inv, Legal, Perform, Prize, BalanceOf, Finalize;
    RunKeeps(trace, events, j);
    Attempted(trace[j], events[j].op);
    FinalizeAttempt(trace[j], id);
    FinalizeGate(trace[j], id);
    i := DocketTraced(trace, events, id, j);
    w := trace[j].docket.winner[id];
    AccountsMove(trace[j], events[j].op, t, a);
  }

  // ----- disputes

  /** What a raised dispute records. */
  lemma RaisedRecord(s: State, id: nat, p: Address, hashOk: bool)
    requires OpenDispute(s, id, p, hashOk).Ok?
    ensures id in s.core.matches && Plays(s.core.matches[id], p)
    ensures s.core.matches[id].state == PendingResult && id in s.docket.deadline && s.ledger < s.docket.deadline[id]
    ensures var d, docket := s.docket.disputeCount, OpenDispute(s, id, p, hashOk).value.docket;
      var stake, token := s.core.matches[id].terms.stake, s.core.matches[id].terms.token;
      && docket.disputes.Keys == s.docket.disputes.Keys + {d} && d in docket.disputes
      && var dispute, cut := docket.disputes[d], Cut(stake, BondRate(s.config.stakes, stake));
         && dispute.matchId == id && dispute.disputer == p && dispute.state == Ongoing
         && dispute.bond == (if cut < 1 then 1 else cut)
         && dispute.yes == 0 && dispute.no == 0
         && dispute.snapshotLedger == s.ledger && dispute.votingDeadline == s.ledger + VOTING_PERIOD_LEDGERS
         && dispute.quorum == Cut(BalanceOf(s.balances, token, s.self) + dispute.bond, s.config.quorumBps)
  {
    hide BondFor, BondRate, BalanceOf;
    BondExact(s.config.stakes, s.core.matches[id].terms.stake);
  }

  lemma NewDispute(s: State, op: Op, d: nat)
    requires Inv(s) && Attempt(s, op).Ok? && d !in s.docket.disputes && d in Attempt(s, op).value.docket.disputes
    ensures op.RaiseDispute? && d == s.docket.disputeCount
  {
    hide Inv, WeightAt, BondFor, BondRate, Payout, PotOverflows, Verdict, SnapshotBoth, CountBoth, ReleaseBoth;
    if !op.SubmitResult? && !op.RaiseDispute? && !op.VoteDispute? && !op.SettleDispute? {
      NoNewDispute(s, op);
    }
  }

  /** Every dispute was raised in the run by the player on record. */
  lemma {:induction false} DisputeTraced(trace: seq<State>, events: seq<Event>, d: nat, n: nat)
    returns (i: nat, hashOk: bool)
    requires Run(trace, events) && Inv(trace[0]) && d !in trace[0].docket.disputes
    requires n < |trace| && d in trace[n].docket.disputes
    ensures var dispute := trace[n].docket.disputes[d];
      && i < n && events[i] == Call(RaiseDispute(dispute.matchId, dispute.disputer, hashOk))
      && Perform(trace[i], events[i].op).Ok? && trace[i].docket.disputeCount == d
      && dispute.votingDeadline == trace[i].ledger + VOTING_PERIOD_LEDGERS
      && dispute.snapshotLedger == trace[i].ledger
  {
    hide Inv, Legal, Attempt, PayAll, OpenDispute;
    var s, e := trace[n - 1], events[n - 1];
    RunKeeps(trace, events, n - 1);
    if d in s.docket.disputes {
      i, hashOk := DisputeTraced(trace, events, d, n - 1);
      RunKeepsDispute(trace, events, d, n - 1, n);
    } else {
      NewDispute(s, e.op, d);
      DisputeAttempt(s, e.op.id, e.op.who, e.op.hashOk);
      RaisedRecord(s, e.op.id, e.op.who, e.op.hashOk);
      i, hashOk := n - 1, e.op.hashOk;
    }
  }

  lemma ResolveGate(s: State, d: nat)
    requires ResolveDispute(s, d).Ok?
    ensures d in s.docket.disputes
    ensures var dispute := s.docket.disputes[d];
      && dispute.state == Ongoing && s.ledger >= dispute.votingDeadline && dispute.yes + dispute.no >= dispute.quorum
      && dispute.matchId in s.core.matches && s.core.matches[dispute.matchId].state == PendingResult
      && dispute.matchId in s.docket.winner
  {
    hide CountBoth, ResolutionPays, PotOverflows, Verdict;
  }

  lemma RecordedTotals(s: State, d: nat)
    requires Inv(s) && d in s.docket.disputes
    ensures d in s.docket.ballots
    ensures var dispute, ballots := s.docket.disputes[d], s.docket.ballots[d];
      dispute.yes == VoteSum(ballots, true) && dispute.no == VoteSum(ballots, false)
  {
    hide MatchesOk, CountersOk, WithinCap, LogOk, VoteSum;
    assert DisputeOk(s.docket, s.core.matches, d);
  }

  /** In every run a dispute is resolved no earlier than a voting period after it was raised, with the
      quorum of recorded weight. If more of that weight is for overturning, both stakes and the bond go
      back; otherwise the pot goes as the oracle submitted and the bond goes to the treasury. */
  lemma ResolvedAsVoted(trace: seq<State>, events: seq<Event>, d: nat, j: nat, a: Address)
    returns (i: nat, k: nat, w: Winner)
    requires Run(trace, events) && Inv(trace[0]) && trace[0].core.matches == map[] && d !in trace[0].docket.disputes
    requires j < |events| && events[j] == Call(SettleDispute(d)) && Perform(trace[j], events[j].op).Ok?
    requires a != trace[0].self
    ensures d in trace[j].docket.disputes && d in trace[j].docket.ballots
    ensures var s, dispute := trace[j], trace[j].docket.disputes[d];
      var id, yes, no := dispute.matchId, VoteSum(s.docket.ballots[d], true), VoteSum(s.docket.ballots[d], false);
      && i < j && events[i].Call? && events[i].op.RaiseDispute? && trace[i].docket.disputeCount == d
      && events[i].op.id == id && events[i].op.who == dispute.disputer
      && s.ledger >= trace[i].ledger + VOTING_PERIOD_LEDGERS
      && k < j && events[k] == Call(SubmitResult(id, w, trace[k].config.oracle)) && Perform(trace[k], events[k].op).Ok?
      && yes + no >= dispute.quorum
      && id in s.core.matches
      && var terms := s.core.matches[id].terms;
         BalanceOf(trace[j + 1].balances, terms.token, a) == BalanceOf(s.balances, terms.token, a)
         + if yes > no then Prize(terms, Draw, a) + (if a == dispute.disputer then dispute.bond else 0)
           else Prize(terms, w, a) + (if a == s.config.fees.treasury then dispute.bond else 0)
  {
    hide Inv, Legal, Perform, Prize, BalanceOf, VoteSum, ResolveDispute;
    var s := trace[j];
    RunKeeps(trace, events, j);
    Attempted(s, events[j].op);
    ResolveAttempt(s, d);
    ResolveGate(s, d);
    RecordedTotals(s, d);
    var hashOk;
    i, hashOk := DisputeTraced(trace, events, d, j);
    k := DocketTraced(trace, events, s.docket.disputes[d].matchId, j);
    w := s.docket.winner[s.docket.disputes[d].matchId];
    AccountsMove(s, events[j].op, s.core.matches[s.docket.disputes[d].matchId].terms.token, a);
  }

  // ----- timeout

  /** Every match was created in the run, with the terms on record. */
  lemma {:induction false} CreationTraced(trace: seq<State>, events: seq<Event>, id: nat, n: nat) returns (i: nat)
    requires Run(trace, events) && Inv(trace[0]) && id !in trace[0].core.matches
    requires n < |trace| && id in trace[n].core.matches
    ensures i < n && Acts(trace[i], events[i], id) && events[i].op.CreateMatch?
    ensures trace[n].core.matches[id].terms == events[i].op.terms.(created := trace[i].ledger)
  {
    hide Inv, Step, Legal, Acts, Flags, Times;
    RunKeeps(trace, events, n - 1);
    if id in trace[n - 1].core.matches {
      StepRewrites(trace[n - 1], events[n - 1], id);
      i := CreationTraced(trace, events, id, n - 1);
    } else {
      StepCreates(trace[n - 1], events[n - 1], id);
      i := n - 1;
    }
  }

  /** An expiry passes its checks exactly on a pending match whose age, at five seconds a ledger, covers
      the timeout, in a token that is not blocked. */
  lemma ExpireGate(s: State, id: nat)
    ensures Expire(s, id).Ok? <==>
      && id in s.core.matches && s.core.matches[id].state == Pending
      && SatSub(s.ledger, s.core.matches[id].terms.created) * SECONDS_PER_LEDGER >= s.config.timeoutSecs
      && s.core.matches[id].terms.token !in s.config.blocked
  {
    hide ReleaseDeposited, RefundDeposited;
  }

  /** In every run a match expires no earlier than the timeout after its creation, and each player who
      deposited gets exactly the stake back. */
  lemma ExpiredAfterTimeout(trace: seq<State>, events: seq<Event>, id: nat, j: nat, a: Address) returns (i: nat)
    requires Run(trace, events) && Inv(trace[0]) && id !in trace[0].core.matches && j < |events|
    requires events[j] == Call(ExpireMatch(id)) && Perform(trace[j], events[j].op).Ok? && a != trace[0].self
    ensures i < j && Acts(trace[i], events[i], id) && events[i].op.CreateMatch?
    ensures (trace[j].ledger - trace[i].ledger) * SECONDS_PER_LEDGER >= trace[j].config.timeoutSecs
    ensures id in trace[j].core.matches
    ensures var m := trace[j].core.matches[id];
      BalanceOf(trace[j + 1].balances, m.terms.token, a)
      == BalanceOf(trace[j].balances, m.terms.token, a) + if HasDeposit(m, a) then m.terms.stake else 0
  {
    hide Inv, Legal, Perform, BalanceOf, Expire, Acts;
    RunKeeps(trace, events, j);
    Attempted(trace[j], events[j].op);
    ExpireAttempt(trace[j], id);
    ExpireGate(trace[j], id);
    i := CreationTraced(trace, events, id, j);
    ClocksRun(trace, events, i, j);
    AccountsMove(trace[j], events[j].op, trace[j].core.matches[id].terms.token, a);
  }

  lemma ExpireAttempt(s: State, id: nat)
    ensures Attempt(s, ExpireMatch(id)) == Expire(s, id)
  {
    hide Expire;
  }

  // ----- consent

  predicate HasConsented(m: Match, p: Address) {
    (p == m.terms.player1 && m.rollback1) || (p == m.terms.player2 && m.rollback2)
  }

  /** The step is an accepted rollback vote of `p` on match `id`. */
  ghost predicate Consents(s: State, e: Event, id: nat, p: Address) {
    Acts(s, e, id) && e.op.VoteRollback? && e.op.who == p
  }

  lemma {:induction false} ConsentTraced(trace: seq<State>, events: seq<Event>, id: nat, p: Address, n: nat)
    returns (i: nat)
    requires Run(trace, events) && Inv(trace[0]) && id !in trace[0].core.matches
    requires n < |trace| && id in trace[n].core.matches && HasConsented(trace[n].core.matches[id], p)
    ensures i < n && Consents(trace[i], events[i], id, p)
  {
    hide Inv, Step, Legal, Acts, Times;
    RunKeeps(trace, events, n - 1);
    if id !in trace[n - 1].core.matches {
      StepCreates(trace[n - 1], events[n - 1], id);
      assert false;
    }
    StepRewrites(trace[n - 1], events[n - 1], id);
    if HasConsented(trace[n - 1].core.matches[id], p) {
      i := ConsentTraced(trace, events, id, p, n - 1);
    } else {
      i := n - 1;
    }
  }

  lemma CallOffGate(s: State, op: Op)
    requires (op.CancelMatch? || op.ExpireMatch?) && Attempt(s, op).Ok?
    ensures op.id in s.core.matches && s.core.matches[op.id].state == Pending
  {
    hide ReleaseDeposited, RefundDeposited;
  }

  /** A match that is under way is called off only after an accepted rollback vote of each player. */
  lemma RolledBackByBoth(trace: seq<State>, events: seq<Event>, id: nat, j: nat) returns (i: nat, k: nat)
    requires Run(trace, events) && Inv(trace[0]) && id !in trace[0].core.matches && j < |events|
    requires id in trace[j].core.matches && Live(trace[j].core.matches[id].state)
    requires id in trace[j + 1].core.matches && trace[j + 1].core.matches[id].state == Cancelled
    ensures i <= j && Consents(trace[i], events[i], id, trace[j].core.matches[id].terms.player1)
    ensures k <= j && Consents(trace[k], events[k], id, trace[j].core.matches[id].terms.player2)
  {
    hide Inv, Step, Legal, Perform, Times, Consents;
    var s, e, m := trace[j], events[j], trace[j].core.matches[id];
    RunKeeps(trace, events, j);
    StepRewrites(s, e, id);
    Attempted(s, e.op);
    if e.op.CancelMatch? || e.op.ExpireMatch? {
      CallOffGate(s, e.op);
      assert false;
    }
    assert e.op.VoteRollback? && HasConsented(trace[j + 1].core.matches[id], e.op.who);
    RollbackGate(s, e.op.id, e.op.who, e.op.reasonLen);
    i := ConsentTraced(trace, events, id, m.terms.player1, j + 1);
    k := ConsentTraced(trace, events, id, m.terms.player2, j + 1);
  }

  lemma RollbackGate(s: State, id: nat, p: Address, reasonLen: nat)
    requires Attempt(s, VoteRollback(id, p, reasonLen)).Ok?
    ensures id in s.core.matches && Plays(s.core.matches[id], p) && s.core.matches[id].state == Active
    ensures SatSub(s.time, s.core.matches[id].timing.heartbeat) <= ROLLBACK_WINDOW_SECONDS
  {
    hide SnapshotDeposited, RefundDeposited, Consent, CalledOff;
  }

  /** The step shows that match `id` is alive: its creation, a deposit or a heartbeat. */
  ghost predicate ShowsLife(s: State, e: Event, id: nat) {
    Acts(s, e, id) && (e.op.CreateMatch? || e.op.DepositStake? || e.op.Heartbeat?)
  }

  /** The heartbeat on record is the time of the latest sign of life. */
  lemma {:induction false} HeartbeatTraced(trace: seq<State>, events: seq<Event>, id: nat, n: nat) returns (i: nat)
    requires Run(trace, events) && Inv(trace[0]) && id !in trace[0].core.matches
    requires n < |trace| && id in trace[n].core.matches
    ensures i < n && ShowsLife(trace[i], events[i], id)
    ensures trace[n].core.matches[id].timing.heartbeat == trace[i].time
    ensures forall k :: i < k < n ==> !ShowsLife(trace[k], events[k], id)
  {
    hide Inv, Step, Legal, Perform, Flags, NextState;
    var s, e := trace[n - 1], events[n - 1];
    RunKeeps(trace, events, n - 1);
    if id !in s.core.matches {
      StepCreates(s, e, id);
      i := n - 1;
    } else {
      StepRewrites(s, e, id);
      if ShowsLife(s, e, id) {
        i := n - 1;
      } else {
        i := HeartbeatTraced(trace, events, id, n - 1);
      }
    }
  }

  /** In every run a rollback vote is accepted only within a day of the latest sign of life. */
  lemma ConsentInTime(trace: seq<State>, events: seq<Event>, id: nat, p: Address, j: nat) returns (i: nat)
    requires Run(trace, events) && Inv(trace[0]) && id !in trace[0].core.matches && j < |events|
    requires Consents(trace[j], events[j], id, p)
    ensures i < j && ShowsLife(trace[i], events[i], id)
    ensures forall k :: i < k < j ==> !ShowsLife(trace[k], events[k], id)
    ensures trace[j].time - trace[i].time <= ROLLBACK_WINDOW_SECONDS
  {
    hide Inv, Step, Legal, Perform, ShowsLife;
    Attempted(trace[j], events[j].op);
    RollbackGate(trace[j], id, p, events[j].op.reasonLen);
    i := HeartbeatTraced(trace, events, id, j);
    ClocksRun(trace, events, i, j);
  }

  // ----- stalled matches

  /** A match that is past its deposits was activated by a deposit, at the time on record. */
  lemma {:induction false} ActivationTraced(trace: seq<State>, events: seq<Event>, id: nat, n: nat) returns (i: nat)
    requires Run(trace, events) && Inv(trace[0]) && id !in trace[0].core.matches
    requires n < |trace| && id in trace[n].core.matches && Live(trace[n].core.matches[id].state)
    ensures i < n && Acts(trace[i], events[i], id) && events[i].op.DepositStake?
    ensures trace[n].core.matches[id].timing.activatedAt == Some(trace[i].time)
  {
    hide Inv, Step, Legal, Perform, Flags;
    var s, e := trace[n - 1], events[n - 1];
    RunKeeps(trace, events, n - 1);
    if id !in s.core.matches {
      StepCreates(s, e, id);
      assert false;
    }
    StepRewrites(s, e, id);
    if s.core.matches[id].state == Pending {
      LiveByDeposit(s, e, id);
      i := n - 1;
    } else {
      LiveBefore(s, e, id);
      i := ActivationTraced(trace, events, id, n - 1);
    }
  }

  lemma LiveByDeposit(s: State, e: Event, id: nat)
    requires Inv(s) && Legal(s, e) && id in s.core.matches && s.core.matches[id].state == Pending
    requires id in Step(s, e).core.matches && Live(Step(s, e).core.matches[id].state)
    ensures Acts(s, e, id) && e.op.DepositStake? && Step(s, e).core.matches[id].state == Active
  {
    StepRewrites(s, e, id);
    hide Inv, Step, Legal, Flags, Times, Attempt;
    Attempted(s, e.op);
    LiveGate(s, e.op);
  }

  lemma LiveGate(s: State, op: Op)
    requires (op.PauseMatch? || op.ResumeMatch?) ==> Attempt(s, op).Ok?
    ensures (op.PauseMatch? || op.ResumeMatch?) ==> op.id in s.core.matches && Live(s.core.matches[op.id].state)
  {
  }

  lemma LiveBefore(s: State, e: Event, id: nat)
    requires Inv(s) && Legal(s, e) && id in s.core.matches && s.core.matches[id].state != Pending
    requires id in Step(s, e).core.matches && Live(Step(s, e).core.matches[id].state)
    ensures Live(s.core.matches[id].state)
  {
    hide Inv, Legal;
    StepMoves(s, e, id);
  }

  /** An admin resolution passes its checks exactly for a proper result on a live match that has been
      under way for longer than the stall window; the shorter stall test adds nothing. */
  lemma StalledGate(s: State, id: nat, p: Address, winner: Winner)
    requires Inv(s)
    ensures ResolveStalled(s, id, p, winner).Ok? <==>
      && p == s.config.admin && winner != NoWinner && id in s.core.matches
      && var m := s.core.matches[id];
         var since := if m.timing.activatedAt.Some? then m.timing.activatedAt.value else m.timing.heartbeat;
         && Live(m.state) && SatSub(s.time, since) > ADMIN_STALL_WINDOW_SECONDS
         && (winner == Draw || 2 * m.terms.stake <= I128_MAX)
  {
    hide SnapshotBoth, CountBoth, Payout, DocketOk, CountersOk, WithinCap, LogOk;
    if id in s.core.matches { ReadyAt(s, id); }
  }

  /** In every run the admin resolves a match only when more than the stall window has passed since the
      deposit that activated it, and the pot goes as the admin says. */
  lemma ResolvedWhenStalled(trace: seq<State>, events: seq<Event>, id: nat, p: Address, w: Winner, j: nat, t: Address,
                            a: Address)
    returns (i: nat)
    requires Run(trace, events) && Inv(trace[0]) && id !in trace[0].core.matches && j < |events|
    requires events[j] == Call(AdminResolve(id, p, w)) && Perform(trace[j], events[j].op).Ok? && a != trace[0].self
    ensures p == trace[j].config.admin
    ensures i < j && Acts(trace[i], events[i], id) && events[i].op.DepositStake?
    ensures trace[j].time > trace[i].time + ADMIN_STALL_WINDOW_SECONDS
    ensures id in trace[j].core.matches
    ensures var terms := trace[j].core.matches[id].terms;
      BalanceOf(trace[j + 1].balances, t, a)
      == BalanceOf(trace[j].balances, t, a) + if t == terms.token then Prize(terms, w, a) else 0
  {
    hide Inv, Legal, Perform, Prize, BalanceOf, ResolveStalled, Acts;
    RunKeeps(trace, events, j);
    Attempted(trace[j], events[j].op);
    StalledAttempt(trace[j], id, p, w);
    StalledGate(trace[j], id, p, w);
    i := ActivationTraced(trace, events, id, j);
    AccountsMove(trace[j], events[j].op, t, a);
  }

  // ----- pauses

  /** The number of ledgers match `id` has spent paused in the first `n` steps. */
  ghost function PausedFor(trace: seq<State>, id: nat, n: nat): int
    requires n < |trace|
  {
    if n == 0 then 0
    else PausedFor(trace, id, n - 1) +
         if id in trace[n - 1].core.matches && trace[n - 1].core.matches[id].state == Paused
         then trace[n].ledger - trace[n - 1].ledger else 0
  }

  /** The pause account of a match: the closed pauses, and the open one if there is one. */
  ghost predicate PauseKept(m: Match, ledger: nat, span: int) {
    var t := m.timing;
    && (m.state == Pending || m.state == Active ==> t.pausedAt.None? && t.pauseTotal == Min(span, U32_MAX))
    && (m.state == Paused ==> t.pausedAt.Some? && t.pausedAt.value <= ledger
                              && span >= ledger - t.pausedAt.value
                              && t.pauseTotal == Min(span - (ledger - t.pausedAt.value), U32_MAX))
  }

  lemma PauseGate(s: State, op: Op)
    requires (op.PauseMatch? || op.ResumeMatch?) && Attempt(s, op).Ok?
    ensures op.id in s.core.matches
    ensures var m := s.core.matches[op.id];
      if op.PauseMatch? then m.state == Active && m.timing.pauseTotal < MAX_PAUSE_DURATION_LEDGERS
      else m.state == Paused
  {
  }

  lemma PauseStep(s: State, e: Event, id: nat, span: int)
    requires Inv(s) && Legal(s, e) && id in s.core.matches && span >= 0 && PauseKept(s.core.matches[id], s.ledger, span)
    ensures var s' := Step(s, e);
      && id in s'.core.matches && s'.ledger >= s.ledger
      && PauseKept(s'.core.matches[id], s'.ledger,
           span + if s.core.matches[id].state == Paused then s'.ledger - s.ledger else 0)
  {
    StepRewrites(s, e, id);
    StepMoves(s, e, id);
    LedgerStep(s, e);
    hide Inv, Step, Legal, Flags, Attempt, Perform, Moves;
    if Acts(s, e, id) {
      Attempted(s, e.op);
      if e.op.PauseMatch? || e.op.ResumeMatch? {
        PauseGate(s, e.op);
      }
      Reopening(s, e.op);
    }
  }

  /** Only a deposit makes a pending match active, and only a resumption a paused one. */
  lemma Reopening(s: State, op: Op)
    requires Inv(s) && Attempt(s, op).Ok? && Target(s, op) in s.core.matches && !op.CreateMatch?
    ensures var m := s.core.matches[Target(s, op)];
      && (op.VoteRollback? ==> m.state == Active)
      && (op.DepositStake? ==> m.state == Pending)
  {
    hide Inv, AtCap, TierAllows, SnapshotDeposited, RefundDeposited, Consent, CalledOff, Snapshot, Adjust;
  }

  lemma LedgerStep(s: State, e: Event)
    requires Legal(s, e)
    ensures Step(s, e).ledger >= s.ledger && (e.Call? ==> Step(s, e).ledger == s.ledger)
  {
    hide Perform;
    if e.Call? && Perform(s, e.op).Ok? { PerformFrame(s, e.op); }
  }

  /** The pause account of a match that is not over is exact in every state of a run, up to the ceiling
      of the counter. */
  lemma {:induction false} PauseAccount(trace: seq<State>, events: seq<Event>, id: nat, n: nat)
    requires Run(trace, events) && Inv(trace[0]) && id !in trace[0].core.matches && n < |trace|
    ensures PausedFor(trace, id, n) >= 0
    ensures id !in trace[n].core.matches ==> PausedFor(trace, id, n) == 0
    ensures id in trace[n].core.matches ==>
      PauseKept(trace[n].core.matches[id], trace[n].ledger, PausedFor(trace, id, n))
  {
    hide Inv, Step, Legal, PauseKept;
    if n > 0 {
      var s, e := trace[n - 1], events[n - 1];
      PauseAccount(trace, events, id, n - 1);
      RunKeeps(trace, events, n - 1);
      if id in s.core.matches {
        PauseStep(s, e, id, PausedFor(trace, id, n - 1));
      } else if id in trace[n].core.matches {
        StepCreates(s, e, id);
        FreshPause(trace[n].core.matches[id], trace[n].ledger);
      }
    }
  }

  lemma FreshPause(m: Match, ledger: nat)
    requires m.state == Pending && m.timing.pausedAt.None? && m.timing.pauseTotal == 0
    ensures PauseKept(m, ledger, 0)
  {
  }

  /** Hence a match is paused only while it has spent less than the pause budget paused. */
  lemma PausedWithinBudget(trace: seq<State>, events: seq<Event>, id: nat, p: Address, j: nat)
    requires Run(trace, events) && Inv(trace[0]) && id !in trace[0].core.matches && j < |events|
    requires events[j] == Call(PauseMatch(id, p)) && Perform(trace[j], events[j].op).Ok?
    ensures PausedFor(trace, id, j) < MAX_PAUSE_DURATION_LEDGERS
  {
    hide Inv, Step, Legal, Perform;
    Attempted(trace[j], events[j].op);
    PauseGate(trace[j], events[j].op);
    PauseAccount(trace, events, id, j);
  }
}
