/** The dispute protocol over whole runs. */
module EscrowDisputes {
  import opened Prelude
  import opened EscrowModel
  import opened EscrowInvariants
  import opened EscrowRuns
  import opened BalanceHistory

  // ----- matches over a run

  lemma StepMoves(s: State, e: Event, id: nat)
    requires Inv(s) && Legal(s, e) && id in s.core.matches
    ensures var s' := Step(s, e);
      id in s'.core.matches && s'.core.matches[id].terms == s.core.matches[id].terms
      && Moves(s.core.matches[id].state, s'.core.matches[id].state)
  {
    hide Inv, Attempt, PayAll, Target, Local, Moves;
    assert Moves(s.core.matches[id].state, s.core.matches[id].state) by { MovesNowhere(s.core.matches[id].state); }
    if e.Call? && Perform(s, e.op).Ok? {
      CallLocal(s, e.op);
      LocalParts(s, Attempt(s, e.op).value, Target(s, e.op));
    }
  }

  lemma MovesNowhere(state: MatchState)
    ensures Moves(state, state)
  {
  }

  /** Completed and Cancelled are absorbing, and the terms of a match never change. */
  lemma {:induction false} RunAbsorbs(trace: seq<State>, events: seq<Event>, id: nat, i: nat, j: nat)
    requires Run(trace, events) && Inv(trace[0]) && i <= j < |trace| && id in trace[i].core.matches
    ensures id in trace[j].core.matches && trace[j].core.matches[id].terms == trace[i].core.matches[id].terms
    ensures Terminal(trace[i].core.matches[id].state) ==>
      trace[j].core.matches[id].state == trace[i].core.matches[id].state
    decreases j
  {
    hide Inv, Step, Legal;
    if i < j {
      RunAbsorbs(trace, events, id, i, j - 1);
      RunKeeps(trace, events, j - 1);
      StepMoves(trace[j - 1], events[j - 1], id);
    }
  }

  // ----- one payout

  /** The step runs `execute_payout` for match `id`. */
  ghost predicate PaysOut(s: State, e: Event, id: nat) {
    && e.Call? && (e.op.FinalizeMatch? || e.op.SettleDispute?)
    && Perform(s, e.op).Ok? && Target(s, e.op) == id
  }

  lemma PayoutCompletes(s: State, e: Event, id: nat)
    requires Inv(s) && PaysOut(s, e, id)
    ensures id in s.core.matches && s.core.matches[id].state == PendingResult
    ensures id in Step(s, e).core.matches && Step(s, e).core.matches[id].state == Completed
  {
    hide Inv, PayAll, SnapshotBoth, CountBoth, ReleaseBoth, Payout, PotOverflows;
    match e.op
    case FinalizeMatch(_) =>
      var m := s.core.matches[id];
      var c1 := Put(s.core, id, m.(state := Completed, timing := m.timing.(completedAt := Some(s.ledger))));
      ReleaseBothFrame(c1, m);
      SnapshotFrames(ReleaseBoth(c1, m), m, s.ledger);
      SnapshotFrames(CountBoth(ReleaseBoth(c1, m), m), m, s.ledger);
    case SettleDispute(_) =>
      var m := s.core.matches[id];
      SnapshotFrames(Put(s.core, id, m.(state := Completed, timing := m.timing.(completedAt := Some(s.ledger)))), m,
        s.ledger);
  }

  lemma ReleaseBothFrame(c: Core, m: Match)
    ensures ReleaseBoth(c, m).matches == c.matches
  {
  }

  /** A match is paid out through finalisation or dispute resolution at most once in a run. */
  lemma PaidOutOnce(trace: seq<State>, events: seq<Event>, id: nat, i: nat, j: nat)
    requires Run(trace, events) && Inv(trace[0]) && i < |events| && j < |events|
    requires PaysOut(trace[i], events[i], id) && PaysOut(trace[j], events[j], id)
    ensures i == j
  {
    hide Inv, Step, Legal, PaysOut;
    RunKeeps(trace, events, i);
    RunKeeps(trace, events, j);
    PayoutCompletes(trace[i], events[i], id);
    PayoutCompletes(trace[j], events[j], id);
    if i < j {
      RunAbsorbs(trace, events, id, i + 1, j);
    } else if j < i {
      RunAbsorbs(trace, events, id, j + 1, i);
    }
  }

  // ----- one dispute, one bond

  /** The parts of a dispute that never change, and its state once resolved. */
  ghost predicate SameDispute(a: Dispute, b: Dispute) {
    && b.matchId == a.matchId && b.disputer == a.disputer && b.bond == a.bond && b.quorum == a.quorum
    && b.snapshotLedger == a.snapshotLedger && b.votingDeadline == a.votingDeadline
    && (a.state != Ongoing ==> b == a)
  }

  lemma CallKeepsDispute(s: State, op: Op, d: nat)
    requires Inv(s) && Attempt(s, op).Ok? && d in s.docket.disputes
    ensures var docket := Attempt(s, op).value.docket;
      d in docket.disputes && SameDispute(s.docket.disputes[d], docket.disputes[d])
  {
    hide Inv, WeightAt, BondFor, BondRate, Payout, PotOverflows, Verdict, SnapshotBoth, CountBoth, ReleaseBoth,
      DocketOk, MatchesOk;
    Parts(s);
    if op.RaiseDispute? {
      FreshDispute(s.docket, s.core.matches);
    } else if !op.SubmitResult? && !op.VoteDispute? && !op.SettleDispute? {
      NoNewDispute(s, op);
    }
  }

  lemma {:induction false} RunKeepsDispute(trace: seq<State>, events: seq<Event>, d: nat, i: nat, j: nat)
    requires Run(trace, events) && Inv(trace[0]) && i <= j < |trace| && d in trace[i].docket.disputes
    ensures d in trace[j].docket.disputes && SameDispute(trace[i].docket.disputes[d], trace[j].docket.disputes[d])
    decreases j
  {
    hide Inv, Attempt, PayAll, Legal;
    if i < j {
      RunKeepsDispute(trace, events, d, i, j - 1);
      RunKeeps(trace, events, j - 1);
      var s, e := trace[j - 1], events[j - 1];
      if e.Call? && Perform(s, e.op).Ok? {
        CallKeepsDispute(s, e.op, d);
      }
    }
  }

  /** A match has at most one dispute over a whole run. */
  lemma OneDisputePerMatch(trace: seq<State>, events: seq<Event>, d: nat, k: nat, i: nat, j: nat)
    requires Run(trace, events) && Inv(trace[0]) && i <= j < |trace|
    requires d in trace[i].docket.disputes && k in trace[j].docket.disputes
    requires trace[i].docket.disputes[d].matchId == trace[j].docket.disputes[k].matchId
    ensures d == k
  {
    hide Step, Legal, MatchesOk, CountersOk, WithinCap, LogOk, DocketOk;
    RunKeepsDispute(trace, events, d, i, j);
    RunKeeps(trace, events, j);
    InByMatch(trace[j].docket, trace[j].core.matches, d);
    InByMatch(trace[j].docket, trace[j].core.matches, k);
  }

  /** An ongoing dispute has its match waiting for a result; a resolved one has it completed. */
  lemma OngoingMeansPending(trace: seq<State>, events: seq<Event>, d: nat, i: nat)
    requires Run(trace, events) && Inv(trace[0]) && i < |trace| && d in trace[i].docket.disputes
    ensures var s := trace[i]; var dispute := s.docket.disputes[d];
      && dispute.matchId in s.core.matches
      && s.core.matches[dispute.matchId].state == if dispute.state == Ongoing then PendingResult else Completed
  {
    hide Step, Legal, MatchesOk, CountersOk, WithinCap, LogOk;
    RunKeeps(trace, events, i);
    assert DisputeOk(trace[i].docket, trace[i].core.matches, d);
  }

  /** In no state can a match be both disputed and finalised. */
  lemma NeverBothEnabled(s: State, id: nat, p: Address, hashOk: bool)
    ensures OpenDispute(s, id, p, hashOk).Err? || Finalize(s, id).Err?
  {
    hide BondFor, BondRate, Payout, PotOverflows, SnapshotBoth, CountBoth, ReleaseBoth;
  }

  /** The step returns or forfeits the bond of dispute `d`. */
  ghost predicate BondLeaves(s: State, e: Event, d: nat) {
    e == Call(SettleDispute(d)) && Perform(s, e.op).Ok?
  }

  lemma SettlingEnds(s: State, d: nat)
    requires Perform(s, SettleDispute(d)).Ok?
    ensures d in s.docket.disputes && s.docket.disputes[d].state == Ongoing
    ensures var s' := Perform(s, SettleDispute(d)).value;
      d in s'.docket.disputes && s'.docket.disputes[d].state != Ongoing
  {
    hide PayAll, CountBoth, Payout, PotOverflows, Verdict;
  }

  /** The bond of a dispute leaves the contract at most once in a run. */
  lemma BondLeavesOnce(trace: seq<State>, events: seq<Event>, d: nat, i: nat, j: nat)
    requires Run(trace, events) && Inv(trace[0]) && i < |events| && j < |events|
    requires BondLeaves(trace[i], events[i], d) && BondLeaves(trace[j], events[j], d)
    ensures i == j
  {
    hide Inv, Perform, Legal;
    SettlingEnds(trace[i], d);
    SettlingEnds(trace[j], d);
    if i < j {
      RunKeepsDispute(trace, events, d, i + 1, j);
    } else if j < i {
      RunKeepsDispute(trace, events, d, j + 1, i);
    }
  }

  /** Only the settling call ends an ongoing dispute, and a new dispute starts as ongoing. */
  lemma EndsBySettling(s: State, op: Op, d: nat)
    requires Inv(s) && Attempt(s, op).Ok? && op != SettleDispute(d)
    requires d in s.docket.disputes ==> s.docket.disputes[d].state == Ongoing
    ensures var docket := Attempt(s, op).value.docket; d in docket.disputes ==> docket.disputes[d].state == Ongoing
  {
    hide Inv, WeightAt, BondFor, BondRate, ResolutionPays, PotOverflows, SnapshotBoth, CountBoth, ReleaseBoth,
      DocketOk, MatchesOk;
    if !op.SubmitResult? && !op.RaiseDispute? && !op.VoteDispute? && !op.SettleDispute? {
      NoNewDispute(s, op);
    }
  }

  /** Once a dispute is resolved its bond has left: with BondLeavesOnce, exactly once. */
  lemma {:induction false} ResolvedBondHasLeft(trace: seq<State>, events: seq<Event>, d: nat, j: nat) returns (k: nat)
    requires Run(trace, events) && Inv(trace[0]) && d !in trace[0].docket.disputes && j < |trace|
    requires d in trace[j].docket.disputes && trace[j].docket.disputes[d].state != Ongoing
    ensures k < j && BondLeaves(trace[k], events[k], d)
  {
    hide Inv, Attempt, PayAll, Legal;
    k := j - 1;
    var s, e := trace[k], events[k];
    if !BondLeaves(s, e, d) {
      if d !in s.docket.disputes || s.docket.disputes[d].state == Ongoing {
        RunKeeps(trace, events, k);
        if e.Call? && Perform(s, e.op).Ok? {
          EndsBySettling(s, e.op, d);
        }
      }
      k := ResolvedBondHasLeft(trace, events, d, k);
    }
  }

  // ----- the recorded votes decide

  /** Both stakes back after a draw, otherwise the pot to the one player the result names; then the bond. */
  function SentOut(s: State, m: Match, result: Winner, holder: Address, bond: int): seq<Pay> {
    var t, last := m.terms, Pay(m.terms.token, s.self, holder, bond);
    if result == Draw then [Pay(t.token, s.self, t.player1, t.stake), Pay(t.token, s.self, t.player2, t.stake), last]
    else [Pay(t.token, s.self, if result == Player1 then t.player1 else t.player2, 2 * t.stake), last]
  }

  /** How the recorded weights of dispute `d` determine its resolution. */
  ghost predicate DecidedByVotes(s: State, d: nat)
    requires d in s.docket.disputes
  {
    var dispute := s.docket.disputes[d];
    var id := dispute.matchId;
    && d in s.docket.ballots && id in s.core.matches && id in s.docket.winner
    && var m, r := s.core.matches[id], ResolveDispute(s, d);
       var yes, no := VoteSum(s.docket.ballots[d], true), VoteSum(s.docket.ballots[d], false);
       && (r == Err(QuorumNotMet) <==> yes + no < dispute.quorum)
       && (r.Ok? ==>
             && d in r.value.docket.disputes
             && r.value.docket.disputes[d].state == (if yes > no then Overturned else Upheld)
             && r.value.pays == SentOut(s, m, if yes > no then Draw else s.docket.winner[id],
                                        if yes > no then dispute.disputer else s.config.fees.treasury, dispute.bond))
       && (r.Err? && yes + no >= dispute.quorum ==>
             r == Err(Overflow) && yes <= no && PotOverflows(m, s.docket.winner[id]))
  }

  /** After the voting window the recorded weights alone decide: below the quorum nothing happens;
      otherwise a majority to overturn refunds both stakes and the bond, and anything else pays the
      pending winner and forfeits the bond to the treasury. */
  lemma VotesDecide(s: State, d: nat)
    requires Inv(s) && d in s.docket.disputes && s.docket.disputes[d].state == Ongoing
    requires s.ledger >= s.docket.disputes[d].votingDeadline
    ensures DecidedByVotes(s, d)
  {
    hide CountersOk, WithinCap, LogOk, MatchesOk, VoteSum, CountBoth;
    assert DisputeOk(s.docket, s.core.matches, d);
    ReadyAt(s, s.docket.disputes[d].matchId);
  }

  // ----- frozen weights

  /** The weight a vote by `voter` on dispute `d` would carry. */
  function VoterWeight(s: State, d: nat, voter: Address): Option<int>
    requires d in s.docket.disputes
  {
    WeightAt(Lookup(s.core.log, voter, []), SatSub(s.docket.disputes[d].snapshotLedger, s.config.holdDuration))
  }

  lemma RaisedDispute(s: State, id: nat, p: Address, hashOk: bool)
    requires Perform(s, RaiseDispute(id, p, hashOk)).Ok?
    ensures var s' := Perform(s, RaiseDispute(id, p, hashOk)).value;
      && s.docket.disputeCount in s'.docket.disputes
      && s'.docket.disputes[s.docket.disputeCount].snapshotLedger == s.ledger
  {
    hide PayAll, BondFor, BondRate;
  }

  /** From the step that raises a dispute on, and with a fixed positive hold duration, a voter's
      weight in it never changes again; it can only lapse. */
  lemma VoteWeightFrozen(trace: seq<State>, events: seq<Event>, d: nat, voter: Address, i: nat, a: nat, b: nat)
    requires Run(trace, events) && Inv(trace[0]) && i < a <= b < |trace|
    requires events[i].Call? && events[i].op.RaiseDispute? && Perform(trace[i], events[i].op).Ok?
    requires d == trace[i].docket.disputeCount && trace[i].ledger >= 1
    requires trace[a].config.holdDuration == trace[b].config.holdDuration >= 1
    ensures d in trace[a].docket.disputes && d in trace[b].docket.disputes
    ensures
      || VoterWeight(trace[b], d, voter) == VoterWeight(trace[a], d, voter)
      || VoterWeight(trace[b], d, voter) == None
  {
    hide Inv, Legal, WeightAt, Perform;
    RaisedDispute(trace[i], events[i].op.id, events[i].op.who, events[i].op.hashOk);
    RunKeepsDispute(trace, events, d, i + 1, a);
    RunKeepsDispute(trace, events, d, i + 1, b);
    RunLog(trace, events, voter, i, a);
    RunLog(trace, events, voter, a, b);
    var log, log' := Lookup(trace[a].core.log, voter, []), Lookup(trace[b].core.log, voter, []);
    assert log' == log + log'[|log|..];
    LaterSnapshotsFreeze(log, log'[|log|..], SatSub(trace[i].ledger, trace[a].config.holdDuration));
  }

  // ----- recorded weights

  /** The balance a log shows at a ledger. */
  function LoggedAt(log: seq<Snap>, ledger: nat): int {
    var n := NewestAt(log, ledger);
    if n == 0 then 0 else log[n - 1].balance
  }

  /** Every ballot of dispute `d` carries the positive balance its voter's log shows at the dispute's
      ledger less the hold duration. */
  ghost predicate WeightsLogged(s: State, d: nat, hold: nat)
    requires d in s.docket.disputes
  {
    var snapshot := s.docket.disputes[d].snapshotLedger;
    && 1 <= snapshot <= s.ledger && d in s.docket.ballots
    && forall v :: v in s.docket.ballots[d] ==>
         s.docket.ballots[d][v].weight == LoggedAt(Lookup(s.core.log, v, []), SatSub(snapshot, hold)) > 0
  }

  ghost predicate AllWeightsLogged(s: State, hold: nat) {
    forall d :: d in s.docket.disputes ==> WeightsLogged(s, d, hold)
  }

  lemma LoggedStays(log: seq<Snap>, log': seq<Snap>, now: nat, ledger: nat)
    requires Extends(log, log', now) && ledger < now
    ensures LoggedAt(log', ledger) == LoggedAt(log, ledger)
  {
    hide NewestAt;
    var n := NewestAt(log, ledger);
    assert forall i :: 0 <= i < |log| ==> log'[i] == log'[..|log|][i];
    NewestUnique(log', ledger, n);
  }

  /** A ballot after a call was there before, or carries the weight read from the log. */
  ghost predicate BallotSource(s: State, docket: Docket, d: nat, v: Address)
    requires d in docket.disputes && d in docket.ballots && v in docket.ballots[d]
  {
    || (d in s.docket.ballots && v in s.docket.ballots[d] && s.docket.ballots[d][v] == docket.ballots[d][v])
    || (var w := docket.ballots[d][v].weight;
        var at := SatSub(docket.disputes[d].snapshotLedger, s.config.holdDuration);
        w > 0 && WeightAt(Lookup(s.core.log, v, []), at) == Some(w))
  }

  /** What a call may do to the ballots of dispute `d`. */
  ghost predicate BallotsMove(s: State, docket: Docket, d: nat) {
    d in docket.disputes ==>
      && d in docket.ballots
      && (d in s.docket.disputes ==> docket.disputes[d].snapshotLedger == s.docket.disputes[d].snapshotLedger)
      && (d !in s.docket.disputes ==> docket.disputes[d].snapshotLedger == s.ledger && docket.ballots[d] == map[])
      && forall v :: v in docket.ballots[d] ==> BallotSource(s, docket, d, v)
  }

  lemma BallotsKept(s: State, docket: Docket, d: nat)
    requires docket.ballots == s.docket.ballots
    requires (d in docket.disputes ==> d in s.docket.disputes && d in s.docket.ballots)
    requires d in docket.disputes ==> docket.disputes[d].snapshotLedger == s.docket.disputes[d].snapshotLedger
    ensures BallotsMove(s, docket, d)
  {
    hide WeightAt;
  }

  lemma CastBallots(s: State, k: nat, p: Address, vote: bool, d: nat)
    requires Cast(s, k, p, vote).Ok? && (d in s.docket.disputes ==> d in s.docket.ballots)
    ensures BallotsMove(s, Cast(s, k, p, vote).value.docket, d)
  {
    hide WeightAt;
  }

  lemma OpenBallots(s: State, id: nat, p: Address, hashOk: bool, d: nat)
    requires OpenDispute(s, id, p, hashOk).Ok? && s.docket.disputeCount !in s.docket.disputes
    requires d in s.docket.disputes ==> d in s.docket.ballots
    ensures BallotsMove(s, OpenDispute(s, id, p, hashOk).value.docket, d)
  {
    hide WeightAt, BondFor, BondRate;
  }

  lemma CallBallots(s: State, op: Op, d: nat)
    requires Inv(s) && Attempt(s, op).Ok?
    ensures BallotsMove(s, Attempt(s, op).value.docket, d)
  {
    hide Inv, BallotsMove, Cast, OpenDispute, ResolutionPays, PotOverflows, SnapshotBoth, CountBoth, ReleaseBoth,
      MatchesOk, DocketOk,
      Resolved, Verdict;
    Parts(s);
    if d in s.docket.disputes {
      HasBallots(s.docket, s.core.matches, d);
    }
    match op
    case VoteDispute(k, who, vote) => CastBallots(s, k, who, vote, d);
    case RaiseDispute(id, who, hashOk) =>
      FreshDispute(s.docket, s.core.matches);
      OpenBallots(s, id, who, hashOk, d);
    case SubmitResult(_, _, _) => BallotsKept(s, Attempt(s, op).value.docket, d);
    case SettleDispute(k) => ResolvedKeeps(s.docket.disputes[k]); BallotsKept(s, Attempt(s, op).value.docket, d);
    case _ =>
      NoNewDispute(s, op);
      BallotsKept(s, Attempt(s, op).value.docket, d);
  }

  lemma HasBallots(d: Docket, matches: map<nat, Match>, k: nat)
    requires DocketOk(d, matches) && k in d.disputes
    ensures k in d.ballots
  {
    assert DisputeOk(d, matches, k);
  }

  lemma ResolvedKeeps(dispute: Dispute)
    ensures Resolved(dispute).snapshotLedger == dispute.snapshotLedger
  {
  }

  lemma StepWeights(s: State, e: Event, hold: nat)
    requires Inv(s) && Legal(s, e) && AllWeightsLogged(s, hold) && s.config.holdDuration == hold >= 1 && s.ledger >= 1
    ensures AllWeightsLogged(Step(s, e), hold) && Step(s, e).ledger >= 1
  {
    hide Inv, Attempt, PayAll, LoggedAt, BallotSource;
    var s' := Step(s, e);
    forall d | d in s'.docket.disputes
      ensures WeightsLogged(s', d, hold)
    {
      if e.Call? && Perform(s, e.op).Ok? {
        CallBallots(s, e.op, d);
        assert BallotsMove(s, s'.docket, d);
        forall v | v in s'.docket.ballots[d]
          ensures s'.docket.ballots[d][v].weight ==
            LoggedAt(Lookup(s'.core.log, v, []), SatSub(s'.docket.disputes[d].snapshotLedger, hold)) > 0
        {
          assert d in s.docket.disputes ==> WeightsLogged(s, d, hold);
          StepLog(s, e, v);
          LoggedStays(Lookup(s.core.log, v, []), Lookup(s'.core.log, v, []), s.ledger,
            SatSub(s'.docket.disputes[d].snapshotLedger, hold));
          SourceLogged(s, s'.docket, d, v, hold);
        }
      } else {
        assert WeightsLogged(s, d, hold);
      }
    }
  }

  lemma SourceLogged(s: State, docket: Docket, d: nat, v: Address, hold: nat)
    requires d in docket.disputes && d in docket.ballots && v in docket.ballots[d] && BallotSource(s, docket, d, v)
    requires s.config.holdDuration == hold
    requires d in s.docket.disputes ==>
      WeightsLogged(s, d, hold) && docket.disputes[d].snapshotLedger == s.docket.disputes[d].snapshotLedger
    requires d !in s.docket.disputes ==> docket.ballots[d] == map[]
    ensures docket.ballots[d][v].weight == LoggedAt(Lookup(s.core.log, v, []),
      SatSub(docket.disputes[d].snapshotLedger, hold)) > 0
  {
    hide NewestAt;
  }

  /** Over every run with a fixed positive hold duration, every recorded ballot carries its voter's
      logged balance at one ledger: that of the dispute less the hold duration. */
  lemma {:induction false} BallotsAreBalances(trace: seq<State>, events: seq<Event>, hold: nat, n: nat)
    requires Run(trace, events) && Inv(trace[0]) && n < |trace|
    requires trace[0].docket.disputes == map[] && trace[0].ledger >= 1
    requires hold >= 1 && forall i :: 0 <= i < |trace| ==> trace[i].config.holdDuration == hold
    ensures AllWeightsLogged(trace[n], hold) && trace[n].ledger >= 1
  {
    hide Inv, Step, Legal, WeightsLogged;
    if n > 0 {
      BallotsAreBalances(trace, events, hold, n - 1);
      RunKeeps(trace, events, n - 1);
      StepWeights(trace[n - 1], events[n - 1], hold);
    }
  }

  /** The logged balances of the voters of one side. */
  ghost function LoggedSide(s: State, ballots: map<Address, Ballot>, vote: bool, ledger: nat): map<Address, int> {
    map v | v in ballots :: if ballots[v].vote == vote then LoggedAt(Lookup(s.core.log, v, []), ledger) else 0
  }

  lemma SideIsLogged(s: State, d: nat, hold: nat, vote: bool)
    requires d in s.docket.disputes && WeightsLogged(s, d, hold)
    ensures var at := SatSub(s.docket.disputes[d].snapshotLedger, hold);
      LoggedSide(s, s.docket.ballots[d], vote, at) == Weights(s.docket.ballots[d], vote)
  {
    hide LoggedAt;
  }

  /** So the two totals of a dispute are sums of balances at one ledger. */
  lemma TotalsAreBalances(s: State, d: nat, hold: nat)
    requires Inv(s) && d in s.docket.disputes && WeightsLogged(s, d, hold)
    ensures var dispute, ballots := s.docket.disputes[d], s.docket.ballots[d];
      var ledger := SatSub(dispute.snapshotLedger, hold);
      && dispute.yes == MapSum(LoggedSide(s, ballots, true, ledger))
      && dispute.no == MapSum(LoggedSide(s, ballots, false, ledger))
  {
    hide MatchesOk, CountersOk, WithinCap, LogOk, LoggedSide, Weights;
    assert DisputeOk(s.docket, s.core.matches, d);
    SideIsLogged(s, d, hold, true);
    SideIsLogged(s, d, hold, false);
  }
}
