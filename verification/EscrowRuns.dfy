/** Every escrow transaction, hence every run, keeps the invariant. */
module EscrowRuns {
  import opened Prelude
  import opened EscrowModel
  import opened EscrowInvariants

  lemma ReadyAt(s: State, id: nat)
    requires Inv(s) && id in s.core.matches
    ensures Ready(s, id)
  {
  }

  lemma DisputeReady(s: State, d: nat)
    requires Inv(s) && d in s.docket.disputes
    ensures Ready(s, s.docket.disputes[d].matchId)
  {
    assert DisputeOk(s.docket, s.core.matches, d);
  }

  lemma Parts(s: State)
    requires Inv(s)
    ensures ConfigOk(s.config, s.self) && MatchesOk(s.core, s.docket, s.self) && DocketOk(s.docket, s.core.matches)
  {
  }

  // ----- dispatch

  lemma DepositAttempt(s: State, id: nat, p: Address)
    ensures Attempt(s, DepositStake(id, p)) == Deposit(s, id, p)
  {
    hide Deposit;
  }

  lemma RollbackAttempt(s: State, id: nat, p: Address, reasonLen: nat)
    ensures Attempt(s, VoteRollback(id, p, reasonLen)) == Rollback(s, id, p, reasonLen)
  {
    hide Rollback;
  }

  lemma StalledAttempt(s: State, id: nat, p: Address, winner: Winner)
    ensures Attempt(s, AdminResolve(id, p, winner)) == ResolveStalled(s, id, p, winner)
  {
    hide ResolveStalled;
  }

  lemma FinalizeAttempt(s: State, id: nat)
    ensures Attempt(s, FinalizeMatch(id)) == Finalize(s, id)
  {
    hide Finalize;
  }

  lemma ResolveAttempt(s: State, d: nat)
    ensures Attempt(s, SettleDispute(d)) == ResolveDispute(s, d)
  {
    hide ResolveDispute;
  }

  lemma DisputeAttempt(s: State, id: nat, p: Address, hashOk: bool)
    ensures Attempt(s, RaiseDispute(id, p, hashOk)) == OpenDispute(s, id, p, hashOk)
  {
    hide OpenDispute;
  }

  lemma ClaimAttempt(s: State, id: nat, p: Address)
    ensures Attempt(s, ClaimPayout(id, p)) == Claim(s, id, p)
  {
    hide Claim;
  }

  /** Every call that passes its checks is sound at its match and touches no other. */
  lemma CallLocal(s: State, op: Op)
    requires Inv(s) && Legal(s, Call(op)) && Attempt(s, op).Ok?
    ensures Local(s, Attempt(s, op).value, Target(s, op))
  {
    hide Inv, Local, Ready, MatchesOk, DocketOk, Deposit, SettledNow, SettledLater, Claim, Finalize, OpenDispute, Cast,
      ResolveDispute, ResolveStalled, Rollback, Create;
    Parts(s);
    if Target(s, op) in s.core.matches {
      ReadyAt(s, Target(s, op));
    }
    match op
    case CreateMatch(terms, platform) => CreateLocal(s, terms, platform);
    case DepositStake(id, who) => DepositOnce(s, id, who); DepositLocal(s, id, who);
    case SubmitResult(id, winner, who) =>
      SettledNowLocal(s, id, winner);
      SettledLaterLocal(s, id, winner);
    case CancelMatch(id, who) => CallOffLocal(s, id, Attempt(s, op).value.pays);
    case ExpireMatch(id) => CallOffLocal(s, id, Attempt(s, op).value.pays);
    case VoteRollback(id, who, reasonLen) => RollbackFinds(s, id, who, reasonLen); RollbackLocal(s, id, who, reasonLen);
    case AdminResolve(id, who, winner) => StalledFinds(s, id, who, winner); StalledLocal(s, id, who, winner);
    case ClaimPayout(id, who) => ClaimShape(s, id, who); ClaimLocal(s, id, who);
    case FinalizeMatch(id) => FinalizeFinds(s, id); FinalizeLocal(s, id);
    case RaiseDispute(id, who, hashOk) => DisputeFinds(s, id, who, hashOk); DisputeLocal(s, id, who, hashOk);
    case VoteDispute(d, who, vote) => CastFinds(s, d, who, vote); DisputeReady(s, d); CastLocal(s, d, who, vote);
    case SettleDispute(d) => ResolveFinds(s, d); DisputeReady(s, d); ResolveLocal(s, d);
    case _ => LiveLocal(s, op);
  }

  lemma RollbackFinds(s: State, id: nat, p: Address, reasonLen: nat)
    requires Rollback(s, id, p, reasonLen).Ok?
    ensures id in s.core.matches
  {
  }

  lemma StalledFinds(s: State, id: nat, p: Address, winner: Winner)
    requires ResolveStalled(s, id, p, winner).Ok?
    ensures id in s.core.matches
  {
  }

  lemma FinalizeFinds(s: State, id: nat)
    requires Finalize(s, id).Ok?
    ensures id in s.core.matches
  {
  }

  lemma DisputeFinds(s: State, id: nat, p: Address, hashOk: bool)
    requires OpenDispute(s, id, p, hashOk).Ok?
    ensures id in s.core.matches
  {
  }

  lemma CastFinds(s: State, d: nat, p: Address, vote: bool)
    requires Cast(s, d, p, vote).Ok?
    ensures d in s.docket.disputes
  {
  }

  lemma ResolveFinds(s: State, d: nat)
    requires ResolveDispute(s, d).Ok?
    ensures d in s.docket.disputes
  {
  }

  // ----- from one match to all

  lemma OtherMatchSame(s: State, e: Effect, id: nat, k: nat)
    requires OthersSame(s, e, id) && k != id && k in s.core.matches
    requires MatchOk(s.core.matches[k], s.docket, k, s.self)
    ensures k in e.core.matches && e.core.matches[k] == s.core.matches[k]
    ensures MatchOk(e.core.matches[k], e.docket, k, s.self)
  {
    assert Get(e.docket.winner, k) == Get(s.docket.winner, k);
    assert Get(e.docket.deadline, k) == Get(s.docket.deadline, k);
    assert Get(e.docket.byMatch, k) == Get(s.docket.byMatch, k);
  }

  lemma MatchesKeep(s: State, e: Effect, id: nat)
    requires MatchesOk(s.core, s.docket, s.self) && OthersSame(s, e, id) && SoundAt(s, e, id)
    ensures MatchesOk(e.core, e.docket, s.self)
  {
    hide MatchOk, OthersSame;
    assert e.core.matches == s.core.matches[id := e.core.matches[id]] by { Updated(s, e, id); }
    forall k | k in e.core.matches
      ensures MatchOk(e.core.matches[k], e.docket, k, s.self)
    {
      if k != id {
        OtherMatchSame(s, e, id, k);
      }
    }
  }

  lemma Updated(s: State, e: Effect, id: nat)
    requires OthersSame(s, e, id)
    ensures id in e.core.matches && e.core.matches == s.core.matches[id := e.core.matches[id]]
  {
  }

  lemma HeldElsewhere(s: State, e: Effect, id: nat, k: nat, p: Address)
    requires OthersSame(s, e, id) && k != id
    ensures Held(e.core, e.docket, k, p) == Held(s.core, s.docket, k, p)
  {
    assert Get(e.docket.byMatch, k) == Get(s.docket.byMatch, k);
  }

  /** The sum over all matches moves by the change at the one match. */
  lemma HeldMoves(s: State, e: Effect, id: nat, p: Address)
    requires OthersSame(s, e, id)
    ensures HeldAll(e.core, e.docket, p) ==
      HeldAll(s.core, s.docket, p) + Held(e.core, e.docket, id, p) - Held(s.core, s.docket, id, p)
  {
    hide Held, OthersSame, MapSum;
    Updated(s, e, id);
    var before, after := HeldBy(s.core, s.docket, p), HeldBy(e.core, e.docket, p);
    forall k | k in e.core.matches && k != id
      ensures Held(e.core, e.docket, k, p) == Held(s.core, s.docket, k, p)
    {
      HeldElsewhere(s, e, id, k, p);
    }
    assert after == before[id := after[id]];
    MapSumUpdate(before, id, after[id]);
    AbsentHeld(s.core, s.docket, id, p);
  }

  lemma AbsentHeld(c: Core, d: Docket, id: nat, p: Address)
    ensures id !in c.matches ==> Held(c, d, id, p) == 0
  {
  }

  lemma CountersKeep(s: State, e: Effect, id: nat)
    requires CountersOk(s.core, s.docket) && OthersSame(s, e, id) && CountsAt(s, e, id)
    ensures CountersOk(e.core, e.docket)
  {
    hide Held, OthersSame, HeldAll;
    forall p: Address
      ensures Lookup(e.core.counter, p, 0) == HeldAll(e.core, e.docket, p)
    {
      HeldMoves(s, e, id, p);
    }
  }

  lemma CapKeeps(s: State, e: Effect, id: nat)
    requires WithinCap(s.core.matches) && OthersSame(s, e, id) && SoundAt(s, e, id) && CapAt(s, e, id)
    ensures WithinCap(e.core.matches)
  {
    hide OthersSame, MatchOk;
    Updated(s, e, id);
    forall p: Address
      ensures |ActiveOf(e.core.matches, p)| <= MAX_ACTIVE_MATCHES
    {
      var before, after := ActiveOf(s.core.matches, p), ActiveOf(e.core.matches, p);
      if id in after && id !in before {
        assert after == before + {id};
        assert !AtCap(s.core.matches, p);
      } else {
        assert after <= before;
        SubsetSize(after, before);
      }
    }
  }

  // ----- the docket

  /** A dispute record is unaffected by changes to other disputes and other matches. */
  lemma DisputeElsewhere(d: Docket, matches: map<nat, Match>, d': Docket, matches': map<nat, Match>, k: nat)
    requires k in d.disputes && DisputeOk(d, matches, k) && d'.disputeCount >= d.disputeCount
    requires Get(d'.disputes, k) == Get(d.disputes, k) && Get(d'.ballots, k) == Get(d.ballots, k)
    requires var id := d.disputes[k].matchId;
      && Get(d'.byMatch, id) == Get(d.byMatch, id)
      && id in matches' && matches'[id].state == matches[id].state && matches'[id].terms == matches[id].terms
    ensures k in d'.disputes && DisputeOk(d', matches', k)
  {
    hide VoteSum;
  }

  lemma DocketFrame(s: State, e: Effect, id: nat)
    requires DocketOk(s.docket, s.core.matches) && OthersSame(s, e, id) && e.docket == s.docket
    requires id in s.docket.byMatch ==>
      && id in s.core.matches
      && e.core.matches[id].state == s.core.matches[id].state
      && e.core.matches[id].terms == s.core.matches[id].terms
    ensures DocketOk(e.docket, e.core.matches)
  {
    hide VoteSum;
    forall k | k in e.docket.disputes
      ensures DisputeOk(e.docket, e.core.matches, k)
    {
      assert DisputeOk(s.docket, s.core.matches, k);
    }
  }

  lemma SettledDocket(s: State, id: nat, winner: Winner)
    requires DocketOk(s.docket, s.core.matches) && Ready(s, id) && Live(s.core.matches[id].state) && winner != NoWinner
    ensures var e := SettledLater(s, id, winner); DocketOk(e.docket, e.core.matches)
  {
    hide VoteSum, CountBoth;
    var m, e := s.core.matches[id], SettledLater(s, id, winner);
    SnapshotFrames(Put(s.core, id, Settled(m, winner, s.time).(state := PendingResult)), m, s.ledger);
    forall k | k in e.docket.disputes
      ensures DisputeOk(e.docket, e.core.matches, k)
    {
      assert DisputeOk(s.docket, s.core.matches, k);
    }
  }

  lemma OpenedDocketOk(d: Docket, matches: map<nat, Match>, d': Docket, id: nat, dispute: Dispute)
    requires DocketOk(d, matches) && id in matches && id !in d.byMatch && matches[id].state == PendingResult
    requires dispute.matchId == id && dispute.bond >= 1 && dispute.yes == dispute.no == 0 && dispute.state == Ongoing
    requires Plays(matches[id], dispute.disputer)
    requires d' == d.(byMatch := d.byMatch[id := d.disputeCount], disputes := d.disputes[d.disputeCount := dispute],
                      disputeCount := d.disputeCount + 1, ballots := d.ballots[d.disputeCount := map[]])
    ensures DocketOk(d', matches)
  {
    hide VoteSum;
    FreshDispute(d, matches);
    NoVotes();
    forall k | k in d'.disputes
      ensures DisputeOk(d', matches, k)
    {
      if k != d.disputeCount {
        DisputeElsewhere(d, matches, d', matches, k);
      }
    }
  }

  lemma NoVotes()
    ensures VoteSum(map[], true) == 0 && VoteSum(map[], false) == 0
  {
    assert Weights(map[], true) == map[] && Weights(map[], false) == map[];
  }

  lemma OpenedDocket(s: State, id: nat, p: Address, hashOk: bool)
    requires DocketOk(s.docket, s.core.matches) && OpenDispute(s, id, p, hashOk).Ok?
    ensures var e := OpenDispute(s, id, p, hashOk).value; DocketOk(e.docket, e.core.matches)
  {
    hide BondRate, DocketOk;
    var e := OpenDispute(s, id, p, hashOk).value;
    OpenedDocketOk(s.docket, s.core.matches, e.docket, id, e.docket.disputes[s.docket.disputeCount]);
  }

  /** Recording a new ballot adds its weight to the total of its side and leaves the other alone. */
  lemma BallotAdds(ballots: map<Address, Ballot>, voter: Address, b: Ballot, vote: bool)
    requires voter !in ballots
    ensures VoteSum(ballots[voter := b], vote) == VoteSum(ballots, vote) + if b.vote == vote then b.weight else 0
  {
    var w := if b.vote == vote then b.weight else 0;
    assert Weights(ballots[voter := b], vote) == Weights(ballots, vote)[voter := w];
    MapSumUpdate(Weights(ballots, vote), voter, w);
  }

  lemma CastDocket(s: State, d: nat, p: Address, vote: bool)
    requires DocketOk(s.docket, s.core.matches) && Cast(s, d, p, vote).Ok?
    ensures var e := Cast(s, d, p, vote).value; DocketOk(e.docket, e.core.matches)
  {
    hide VoteSum, WeightAt;
    var e := Cast(s, d, p, vote).value;
    assert DisputeOk(s.docket, s.core.matches, d);
    BallotAdds(s.docket.ballots[d], p, e.docket.ballots[d][p], true);
    BallotAdds(s.docket.ballots[d], p, e.docket.ballots[d][p], false);
    forall k | k in e.docket.disputes
      ensures DisputeOk(e.docket, e.core.matches, k)
    {
      if k != d {
        DisputeElsewhere(s.docket, s.core.matches, e.docket, e.core.matches, k);
      }
    }
  }

  lemma ResolvedDocketOk(d: Docket, matches: map<nat, Match>, k: nat, m: Match)
    requires DocketOk(d, matches) && k in d.disputes
    requires var id := d.disputes[k].matchId; id in matches && m.terms == matches[id].terms && m.state == Completed
    ensures DocketOk(d.(disputes := d.disputes[k := Resolved(d.disputes[k])]), matches[d.disputes[k].matchId := m])
  {
    hide VoteSum;
    var id := d.disputes[k].matchId;
    var d', matches' := d.(disputes := d.disputes[k := Resolved(d.disputes[k])]), matches[id := m];
    InByMatch(d, matches, k);
    assert DisputeOk(d, matches, k);
    forall i | i in d'.disputes
      ensures DisputeOk(d', matches', i)
    {
      InByMatch(d, matches, i);
      if i != k {
        DisputeElsewhere(d, matches, d', matches', i);
      }
    }
  }

  lemma ResolvedDocket(s: State, d: nat)
    requires DocketOk(s.docket, s.core.matches) && ResolveDispute(s, d).Ok?
    ensures var e := ResolveDispute(s, d).value; DocketOk(e.docket, e.core.matches)
  {
    hide DocketOk, CountBoth, ResolutionPays, PotOverflows, Verdict, Resolved;
    var id := s.docket.disputes[d].matchId;
    var m := s.core.matches[id];
    var m1 := m.(state := Completed, timing := m.timing.(completedAt := Some(s.ledger)));
    SnapshotFrames(Put(s.core, id, m1), m, s.ledger);
    ResolvedDocketOk(s.docket, s.core.matches, d, m1);
  }

  /** After a call every dispute record still agrees with its match and its ballots. */
  lemma CallDocket(s: State, op: Op)
    requires Inv(s) && Legal(s, Call(op)) && Attempt(s, op).Ok?
    ensures var e := Attempt(s, op).value; DocketOk(e.docket, e.core.matches)
  {
    hide Inv, Local, Ready, MatchesOk, DocketOk, OthersSame, Deposit, SettledNow, SettledLater, Claim, Finalize,
      OpenDispute, Cast,
      ResolveDispute, ResolveStalled, Rollback, Create;
    Parts(s);
    CallLocal(s, op);
    var e, id := Attempt(s, op).value, Target(s, op);
    LocalOthers(s, e, id);
    match op
    case SubmitResult(_, winner, who) =>
      ReadyAt(s, id);
      SettledDocket(s, id, winner);
      SettledFrame(s, id, winner);
      NotDisputed(s, id);
      if s.config.disputePeriod == 0 { DocketFrame(s, e, id); }
    case RaiseDispute(_, who, hashOk) => OpenedDocket(s, id, who, hashOk);
    case VoteDispute(d, who, vote) => CastDocket(s, d, who, vote);
    case SettleDispute(d) => ResolvedDocket(s, d);
    case _ =>
      NoNewDispute(s, op);
      DocketFrame(s, e, id);
  }

  lemma LocalOthers(s: State, e: Effect, id: nat)
    requires Local(s, e, id)
    ensures OthersSame(s, e, id)
  {
  }

  lemma SettledFrame(s: State, id: nat, winner: Winner)
    requires id in s.core.matches
    ensures SettledNow(s, id, winner).docket == s.docket
  {
  }

  lemma NotDisputed(s: State, id: nat)
    requires Ready(s, id) && Live(s.core.matches[id].state)
    ensures id !in s.docket.byMatch
  {
  }

  /** Only a settlement or a dispute call writes to the docket. */
  lemma DocketUntouched(s: State, op: Op)
    requires Attempt(s, op).Ok?
    requires !op.SubmitResult? && !op.RaiseDispute? && !op.VoteDispute? && !op.SettleDispute?
    ensures Attempt(s, op).value.docket == s.docket
  {
    hide Claim, DepositFault, CreateFault, ReleaseDeposited, SnapshotDeposited, SnapshotBoth, CountBoth, ReleaseBoth,
      Payout,
      RefundDeposited, CalledOff, Consent, Put, Stalled, PotOverflows;
    if op.ClaimPayout? {
      ClaimShape(s, op.id, op.who);
    }
  }

  /** Of those calls, only a claim gets through on a match that has a dispute. */
  lemma OnlyClaims(s: State, op: Op)
    requires Attempt(s, op).Ok? && !op.CreateMatch? && !op.SubmitResult? && !op.RaiseDispute? && !op.VoteDispute?
    requires !op.SettleDispute?
    requires op.id in s.core.matches && Ready(s, op.id) && op.id in s.docket.byMatch
    ensures op.ClaimPayout?
  {
    hide AtCap, TierAllows, Claim, ReleaseDeposited, SnapshotDeposited, SnapshotBoth, CountBoth, ReleaseBoth, Payout,
      RefundDeposited, CalledOff, Consent, Put, PotOverflows;
  }

  /** A call on a match without a pending result leaves the docket alone, and only a claim acts on a
      match that has a dispute. */
  lemma NoNewDispute(s: State, op: Op)
    requires Inv(s) && Attempt(s, op).Ok?
    requires !op.SubmitResult? && !op.RaiseDispute? && !op.VoteDispute? && !op.SettleDispute?
    ensures var e, id := Attempt(s, op).value, Target(s, op);
      && e.docket == s.docket
      && (id in s.docket.byMatch ==>
            && id in s.core.matches && id in e.core.matches
            && e.core.matches[id].state == s.core.matches[id].state
            && e.core.matches[id].terms == s.core.matches[id].terms)
  {
    DocketUntouched(s, op);
    hide Attempt, MatchOk, Ready, CountersOk, WithinCap, LogOk, VoteSum;
    var id := Target(s, op);
    if id in s.docket.byMatch {
      assert id in s.core.matches;
      ReadyAt(s, id);
      OnlyClaims(s, op);
      assert Attempt(s, op) == Claim(s, id, op.who) by { ClaimAttempt(s, id, op.who); }
      ClaimShape(s, id, op.who);
    }
  }

  // ----- snapshots

  /** Each log stays, or gains the counter after the call. */
  ghost predicate LogsAt(c: Core, c': Core, ledger: nat) {
    forall p: Address :: Grown(Lookup(c.log, p, []), Lookup(c'.log, p, []), Snap(ledger, Lookup(c'.counter, p, 0)))
  }

  ghost predicate Grown(log: seq<Snap>, log': seq<Snap>, snap: Snap) {
    log' == log || log' == log + [snap]
  }

  lemma SnapshotLogs(c: Core, m: Match, ledger: nat)
    requires m.terms.player1 != m.terms.player2
    ensures LogsAt(c, SnapshotBoth(c, m, ledger), ledger)
    ensures LogsAt(c, SnapshotDeposited(c, m, ledger), ledger)
  {
  }

  lemma LogFrames(c: Core, m: Match)
    ensures CountBoth(c, m).log == c.log && ReleaseBoth(c, m).log == c.log && CountBoth(c, m).counter == c.counter
  {
  }

  lemma ReleaseLogs(c: Core, m: Match, ledger: nat)
    requires m.terms.player1 != m.terms.player2
    ensures LogsAt(c, ReleaseDeposited(c, m, ledger), ledger)
  {
    hide SnapshotDeposited;
    var c1 := if m.deposited1 then Adjust(c, m.terms.player1, -m.terms.stake) else c;
    var c2 := if m.deposited2 then Adjust(c1, m.terms.player2, -m.terms.stake) else c1;
    SnapshotLogs(c2, m, ledger);
  }

  lemma SettledNowLogs(s: State, id: nat, winner: Winner)
    requires Ready(s, id)
    ensures LogsAt(s.core, SettledNow(s, id, winner).core, s.ledger)
  {
    hide SnapshotBoth, CountBoth, ReleaseBoth, LogsAt;
    var m := s.core.matches[id];
    var m1 := Settled(m, winner, s.time);
    var c1 := Put(s.core, id, m1.(timing := m1.timing.(completedAt := Some(s.ledger))));
    LogFrames(c1, m);
    LogFrames(CountBoth(c1, m), m);
    SnapshotLogs(ReleaseBoth(CountBoth(c1, m), m), m, s.ledger);
    SameLogs(ReleaseBoth(CountBoth(c1, m), m), s.core, SettledNow(s, id, winner).core, s.ledger);
  }

  lemma SameLogs(c: Core, c1: Core, c': Core, ledger: nat)
    requires LogsAt(c, c', ledger) && c1.log == c.log
    ensures LogsAt(c1, c', ledger)
  {
  }

  lemma SilentLogs(c: Core, c': Core, ledger: nat)
    requires c'.log == c.log
    ensures LogsAt(c, c', ledger)
  {
  }

  lemma FinalizeLogs(s: State, id: nat)
    requires Ready(s, id) && Finalize(s, id).Ok?
    ensures LogsAt(s.core, Finalize(s, id).value.core, s.ledger)
  {
    hide SnapshotBoth, CountBoth, ReleaseBoth, LogsAt, Payout, PotOverflows, MatchOk;
    var m := s.core.matches[id];
    assert m.terms.player1 != m.terms.player2 by { DistinctPlayers(s, id); }
    var c1 := Put(s.core, id, m.(state := Completed, timing := m.timing.(completedAt := Some(s.ledger))));
    LogFrames(c1, m);
    LogFrames(ReleaseBoth(c1, m), m);
    SnapshotLogs(CountBoth(ReleaseBoth(c1, m), m), m, s.ledger);
    SameLogs(CountBoth(ReleaseBoth(c1, m), m), s.core, Finalize(s, id).value.core, s.ledger);
  }

  lemma DistinctPlayers(s: State, id: nat)
    requires Ready(s, id)
    ensures s.core.matches[id].terms.player1 != s.core.matches[id].terms.player2
  {
  }

  lemma StalledLogs(s: State, id: nat, p: Address, winner: Winner)
    requires Ready(s, id) && ResolveStalled(s, id, p, winner).Ok?
    ensures LogsAt(s.core, ResolveStalled(s, id, p, winner).value.core, s.ledger)
  {
    hide SnapshotBoth, CountBoth, LogsAt, Payout, PotOverflows, MatchOk, Stalled;
    var m, e := s.core.matches[id], ResolveStalled(s, id, p, winner).value;
    DistinctPlayers(s, id);
    var c1 := Put(s.core, id, m.(state := Completed, winner := winner,
      timing := m.timing.(completedAt := Some(s.ledger))));
    SnapshotLogs(c1, m, s.ledger);
    LogFrames(SnapshotBoth(c1, m, s.ledger), m);
    assert e.core.log == SnapshotBoth(c1, m, s.ledger).log && e.core.counter == SnapshotBoth(c1, m, s.ledger).counter;
    SameLogs(c1, s.core, SnapshotBoth(c1, m, s.ledger), s.ledger);
    SameFinish(s.core, SnapshotBoth(c1, m, s.ledger), e.core, s.ledger);
  }

  lemma SameFinish(c: Core, c1: Core, c': Core, ledger: nat)
    requires LogsAt(c, c1, ledger) && c'.log == c1.log && c'.counter == c1.counter
    ensures LogsAt(c, c', ledger)
  {
  }

  lemma RollbackLogs(s: State, id: nat, p: Address, reasonLen: nat)
    requires Ready(s, id) && Rollback(s, id, p, reasonLen).Ok?
    ensures LogsAt(s.core, Rollback(s, id, p, reasonLen).value.core, s.ledger)
  {
    hide SnapshotDeposited, LogsAt, RefundDeposited, MatchOk;
    var m, e := s.core.matches[id], Rollback(s, id, p, reasonLen).value;
    DistinctPlayers(s, id);
    var m1 := Consent(m, p);
    if m1.rollback1 && m1.rollback2 {
      var c1 := Put(s.core, id, CalledOff(m1, s.ledger));
      SnapshotLogs(c1, m1, s.ledger);
      SameLogs(c1, s.core, e.core, s.ledger);
    } else {
      SilentLogs(s.core, e.core, s.ledger);
    }
  }

  lemma OneSnapshot(c: Core, p: Address, ledger: nat)
    ensures LogsAt(c, Snapshot(c, p, ledger), ledger)
  {
  }

  /** A call leaves each log as it was or appends the player's counter as the call leaves it. */
  lemma CallLogs(s: State, op: Op)
    requires Inv(s) && Attempt(s, op).Ok?
    ensures LogsAt(s.core, Attempt(s, op).value.core, s.ledger)
  {
    hide Inv, LogsAt, Ready, ReleaseDeposited, Snapshot, SettledNow, CountBoth, Claim, Finalize, ResolveStalled,
      Rollback,
      RefundDeposited, AtCap, TierAllows, Payout, PotOverflows, BondFor, WeightAt;
    var e, id := Attempt(s, op).value, Target(s, op);
    if id in s.core.matches {
      ReadyAt(s, id);
    }
    match op
    case DepositStake(_, who) =>
      var m := s.core.matches[id];
      var c1 := Adjust(Put(s.core, id, Deposited(m, who, s.time)), who, m.terms.stake);
      OneSnapshot(c1, who, s.ledger);
      SameLogs(c1, s.core, e.core, s.ledger);
    case CancelMatch(_, _) => CallOffLogs(s, id);
    case ExpireMatch(_) => CallOffLogs(s, id);
    case SubmitResult(_, winner, _) =>
      SettledNowLogs(s, id, winner);
      LogFrames(Put(s.core, id, Settled(s.core.matches[id], winner, s.time).(state := PendingResult)),
        s.core.matches[id]);
      if s.config.disputePeriod != 0 { SilentLogs(s.core, e.core, s.ledger); }
    case VoteRollback(_, who, reasonLen) => RollbackFinds(s, id, who, reasonLen); RollbackLogs(s, id, who, reasonLen);
    case AdminResolve(_, who, winner) => StalledFinds(s, id, who, winner); StalledLogs(s, id, who, winner);
    case ClaimPayout(_, who) =>
      ClaimShape(s, id, who);
      var m := s.core.matches[id];
      var c1 := Put(s.core, id, Claimed(m, who));
      OneSnapshot(c1, who, s.ledger);
      SameLogs(c1, s.core, e.core, s.ledger);
    case FinalizeMatch(_) => FinalizeFinds(s, id); FinalizeLogs(s, id);
    case SettleDispute(d) =>
      var m := s.core.matches[id];
      LogFrames(Put(s.core, id, m.(state := Completed, timing := m.timing.(completedAt := Some(s.ledger)))), m);
      SilentLogs(s.core, e.core, s.ledger);
    case _ => SilentLogs(s.core, e.core, s.ledger);
  }

  lemma CallOffLogs(s: State, id: nat)
    requires Ready(s, id)
    ensures var m := s.core.matches[id];
      LogsAt(s.core, ReleaseDeposited(Put(s.core, id, CalledOff(m, s.ledger)), m, s.ledger), s.ledger)
  {
    hide ReleaseDeposited, LogsAt;
    var m := s.core.matches[id];
    var c1 := Put(s.core, id, CalledOff(m, s.ledger));
    ReleaseLogs(c1, m, s.ledger);
    SameLogs(c1, s.core, ReleaseDeposited(c1, m, s.ledger), s.ledger);
  }

  lemma LogKeeps(c: Core, c': Core, ledger: nat)
    requires LogOk(c.log, ledger) && LogsAt(c, c', ledger)
    ensures LogOk(c'.log, ledger)
  {
    forall p: Address
      ensures Chronological(Lookup(c'.log, p, []), ledger)
    {
      assert Chronological(Lookup(c.log, p, []), ledger);
      assert Grown(Lookup(c.log, p, []), Lookup(c'.log, p, []), Snap(ledger, Lookup(c'.counter, p, 0)));
    }
  }

  // ----- steps and runs

  lemma LocalParts(s: State, e: Effect, id: nat)
    requires Local(s, e, id)
    ensures OthersSame(s, e, id) && SoundAt(s, e, id) && CountsAt(s, e, id) && CapAt(s, e, id)
  {
  }

  lemma CallKeeps(s: State, op: Op)
    requires Inv(s) && Legal(s, Call(op)) && Perform(s, op).Ok?
    ensures Inv(Perform(s, op).value)
  {
    hide Attempt, PayAll, Local, OthersSame, SoundAt, CountsAt, CapAt, LogsAt, MatchesOk, DocketOk, CountersOk,
      WithinCap, LogOk, Target;
    var e, id := Attempt(s, op).value, Target(s, op);
    CallLocal(s, op);
    LocalParts(s, e, id);
    MatchesKeep(s, e, id);
    CallDocket(s, op);
    CountersKeep(s, e, id);
    CapKeeps(s, e, id);
    CallLogs(s, op);
    LogKeeps(s.core, e.core, s.ledger);
  }

  lemma AdvanceKeeps(s: State, ledger: nat, time: nat)
    requires Inv(s) && ledger >= s.ledger
    ensures Inv(s.(ledger := ledger, time := time))
  {
    hide MatchesOk, DocketOk, CountersOk, WithinCap;
    forall p: Address
      ensures Chronological(Lookup(s.core.log, p, []), ledger)
    {
      assert Chronological(Lookup(s.core.log, p, []), s.ledger);
    }
  }

  /** Every transaction keeps the invariant: the index of states, the docket, the counters, the caps
      and the logs stay consistent with the matches. */
  lemma StepKeeps(s: State, e: Event)
    requires Inv(s) && Legal(s, e)
    ensures Inv(Step(s, e)) && Step(s, e).self == s.self
  {
    hide Perform, MatchesOk, DocketOk, CountersOk, WithinCap, LogOk;
    match e
    case Call(op) =>
      if Perform(s, op).Ok? {
        PerformFrame(s, op);
        CallKeeps(s, op);
      }
    case Advance(l, t) => AdvanceKeeps(s, l, t);
    case _ =>
  }

  lemma PerformFrame(s: State, op: Op)
    requires Perform(s, op).Ok?
    ensures var s' := Perform(s, op).value;
      s'.self == s.self && s'.config == s.config && s'.ledger == s.ledger && s'.time == s.time
  {
    hide Attempt, PayAll;
  }

  lemma {:induction false} RunKeeps(trace: seq<State>, events: seq<Event>, i: nat)
    requires Run(trace, events) && Inv(trace[0]) && i < |trace|
    ensures Inv(trace[i]) && trace[i].self == trace[0].self
  {
    hide Inv, Step, Legal;
    if i > 0 {
      RunKeeps(trace, events, i - 1);
      StepKeeps(trace[i - 1], events[i - 1]);
    }
  }

  /** Lifecycle over whole runs: a pending match is not fully funded, every other match that is not
      cancelled is, and no player is in more live matches than the cap allows. */
  lemma RunLifecycle(trace: seq<State>, events: seq<Event>, i: nat, id: nat, p: Address)
    requires Run(trace, events) && Inv(trace[0]) && i < |trace| && id in trace[i].core.matches
    ensures var m := trace[i].core.matches[id];
      && (m.state == Pending ==> !Funded(m))
      && (m.state != Pending && m.state != Cancelled ==> Funded(m))
      && (Funded(m) && m.state == Cancelled ==> m.winner == NoWinner)
    ensures |ActiveOf(trace[i].core.matches, p)| <= MAX_ACTIVE_MATCHES
  {
    hide Step, Legal, DocketOk, CountersOk, LogOk;
    RunKeeps(trace, events, i);
    ReadyAt(trace[i], id);
  }

  /** A newly initialised contract satisfies the invariant. */
  lemma FreshInv(s: State)
    requires ConfigOk(s.config, s.self)
    requires s.core == Core(map[], 0, {}, map[], map[], map[])
    requires s.docket == Docket(map[], map[], map[], map[], 0, map[])
    ensures Inv(s)
  {
    forall p: Address
      ensures ActiveOf(s.core.matches, p) == {} && HeldBy(s.core, s.docket, p) == map[]
    {
    }
  }
}
