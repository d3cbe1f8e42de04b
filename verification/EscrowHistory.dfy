/** Where a payment comes from: every result, claim, refund and dispute of a run traced to the calls
    that led to it. */
module EscrowHistory {
  import opened Prelude
  import opened EscrowModel
  import opened EscrowInvariants
  import opened EscrowRuns
  import opened EscrowMoney
  import opened EscrowSolvency
  import opened EscrowAccounts
  import opened EscrowRecords

  // ----- results

  /** The step decides match `id`: the oracle submits `w`, or the admin resolves a stalled match to it. */
  ghost predicate Decides(s: State, e: Event, id: nat, w: Winner) {
    && e.Call? && Perform(s, e.op).Ok?
    && (e.op == SubmitResult(id, w, s.config.oracle) || e.op == AdminResolve(id, s.config.admin, w))
  }

  /** Only the oracle and the admin decide, only a live match, and always for a proper result. */
  lemma DecisionGate(s: State, op: Op)
    requires (op.SubmitResult? || op.AdminResolve?) && Attempt(s, op).Ok?
    ensures op.id in s.core.matches && Live(s.core.matches[op.id].state) && op.winner != NoWinner
    ensures op.who == if op.SubmitResult? then s.config.oracle else s.config.admin
  {
    hide SettledNow, SettledLater, SnapshotBoth, CountBoth, Payout, PotOverflows;
  }

  lemma DecidingStep(s: State, e: Event, id: nat)
    requires Inv(s) && Legal(s, e) && id in s.core.matches
    ensures id in Step(s, e).core.matches
    ensures var m, m' := s.core.matches[id], Step(s, e).core.matches[id];
      || (m'.winner == m.winner && m'.timing.vestedAt == m.timing.vestedAt)
      || (&& m.winner == NoWinner && m'.winner != NoWinner && Decides(s, e, id, m'.winner)
          && m'.timing.vestedAt == if e.op.SubmitResult? then Some(s.time) else None)
  {
    StepRewrites(s, e, id);
    hide Inv, Step, Flags, NextState, Legal, Attempt;
    if Acts(s, e, id) && (e.op.SubmitResult? || e.op.AdminResolve?) {
      Attempted(s, e.op);
      DecisionGate(s, e.op);
      ReadyAt(s, id);
    }
  }

  /** Once a match has a result it keeps it. */
  lemma {:induction false} ResultStays(trace: seq<State>, events: seq<Event>, id: nat, i: nat, j: nat)
    requires Run(trace, events) && Inv(trace[0]) && i <= j < |trace| && id in trace[i].core.matches
    requires trace[i].core.matches[id].winner != NoWinner
    ensures id in trace[j].core.matches
    ensures var m, m' := trace[i].core.matches[id], trace[j].core.matches[id];
      m'.winner == m.winner && m'.timing.vestedAt == m.timing.vestedAt
  {
    hide Inv, Step, Legal, Decides;
    if i < j {
      ResultStays(trace, events, id, i, j - 1);
      RunKeeps(trace, events, j - 1);
      DecidingStep(trace[j - 1], events[j - 1], id);
    }
  }

  /** Every result stored in a run was decided in it: submitted by the oracle, and then vested from
      that moment, or fixed by the admin. */
  lemma {:induction false} ResultTraced(trace: seq<State>, events: seq<Event>, id: nat, n: nat) returns (i: nat)
    requires Run(trace, events) && Inv(trace[0]) && id !in trace[0].core.matches
    requires n < |trace| && id in trace[n].core.matches && trace[n].core.matches[id].winner != NoWinner
    ensures i < n && Decides(trace[i], events[i], id, trace[n].core.matches[id].winner)
    ensures trace[n].core.matches[id].timing.vestedAt
            == if events[i].op.SubmitResult? then Some(trace[i].time) else None
  {
    hide Inv, Step, Legal, Perform;
    var s, e := trace[n - 1], events[n - 1];
    RunKeeps(trace, events, n - 1);
    if id !in s.core.matches {
      StepCreates(s, e, id);
      assert false;
    }
    DecidingStep(s, e, id);
    if s.core.matches[id].winner == trace[n].core.matches[id].winner {
      i := ResultTraced(trace, events, id, n - 1);
    } else {
      i := n - 1;
    }
  }

  lemma DecidedNow(s: State, e: Event, id: nat, w: Winner)
    requires Inv(s) && Legal(s, e) && Decides(s, e, id, w)
    ensures id in s.core.matches && s.core.matches[id].winner == NoWinner
    ensures id in Step(s, e).core.matches && Step(s, e).core.matches[id].winner == w != NoWinner
  {
    Attempted(s, e.op);
    DecisionGate(s, e.op);
    ReadyAt(s, id);
    StepRewrites(s, e, id);
    hide Inv, Step, Flags, Times, NextState, Legal, Attempt, Perform;
  }

  /** A match is decided at most once in a run. */
  lemma DecidedOnce(trace: seq<State>, events: seq<Event>, id: nat, w: Winner, w': Winner, i: nat, j: nat)
    requires Run(trace, events) && Inv(trace[0]) && i < |events| && j < |events|
    requires Decides(trace[i], events[i], id, w) && Decides(trace[j], events[j], id, w')
    ensures i == j && w == w'
  {
    hide Inv, Step, Legal, Decides;
    RunKeeps(trace, events, i);
    RunKeeps(trace, events, j);
    DecidedNow(trace[i], events[i], id, w);
    DecidedNow(trace[j], events[j], id, w');
    if i < j {
      ResultStays(trace, events, id, i + 1, j);
    } else if j < i {
      ResultStays(trace, events, id, j + 1, i);
    }
  }

  // ----- claims

  /** `w` entitles `p` to claim: it names `p`, or it is a draw in a match `p` plays. */
  predicate Entitles(t: Terms, w: Winner, p: Address) {
    Named(t, w) == Some(p) || (w == Draw && (p == t.player1 || p == t.player2))
  }

  predicate HasClaimed(m: Match, p: Address) {
    (p == m.terms.player1 && m.claimed1) || (p == m.terms.player2 && m.claimed2)
  }

  /** A claim passes its checks exactly when the match has a vested result that entitles the claimant,
      the vesting time has passed, the claimant has not claimed before, and the fees can be computed. */
  lemma ClaimGate(s: State, id: nat, p: Address)
    requires Inv(s)
    ensures Claim(s, id, p).Ok? <==>
      && id in s.core.matches
      && var m := s.core.matches[id];
         && m.state == Completed && m.timing.vestedAt.Some?
         && s.time >= m.timing.vestedAt.value + s.config.vestingSecs
         && Entitles(m.terms, m.winner, p) && !HasClaimed(m, p)
         && (m.winner == Draw || (2 * m.terms.stake <= I128_MAX && ProtocolFee(s.config, 2 * m.terms.stake).Some?
                                  && ReferralFee(s.config, m, 2 * m.terms.stake).Some?))
  {
    hide ProtocolFee, ReferralFee, ClaimPays, Snapshot, DocketOk, CountersOk, WithinCap, LogOk;
    if id in s.core.matches { ReadyAt(s, id); }
  }

  /** In every run a successful claim is made by a player whom the oracle's one decision on the match
      entitles, at least the vesting time after that decision. */
  lemma ClaimedByNamed(trace: seq<State>, events: seq<Event>, id: nat, p: Address, j: nat) returns (i: nat, w: Winner)
    requires Run(trace, events) && Inv(trace[0]) && id !in trace[0].core.matches && j < |events|
    requires events[j] == Call(ClaimPayout(id, p)) && Perform(trace[j], events[j].op).Ok?
    ensures i < j && id in trace[j].core.matches
    ensures events[i] == Call(SubmitResult(id, w, trace[i].config.oracle)) && Perform(trace[i], events[i].op).Ok?
    ensures Entitles(trace[j].core.matches[id].terms, w, p)
    ensures trace[j].time >= trace[i].time + trace[j].config.vestingSecs
    ensures forall k, w' :: 0 <= k < |events| && Decides(trace[k], events[k], id, w') ==> k == i && w' == w
  {
    hide Inv, Step, Legal, Perform, Claim;
    RunKeeps(trace, events, j);
    Attempted(trace[j], events[j].op);
    ClaimAttempt(trace[j], id, p);
    ClaimGate(trace[j], id, p);
    w := trace[j].core.matches[id].winner;
    i := ResultTraced(trace, events, id, j);
    forall k, w' | 0 <= k < |events| && Decides(trace[k], events[k], id, w')
      ensures k == i && w' == w
    {
      DecidedOnce(trace, events, id, w, w', i, k);
    }
  }

  lemma {:induction false} ClaimStays(trace: seq<State>, events: seq<Event>, id: nat, p: Address, i: nat, j: nat)
    requires Run(trace, events) && Inv(trace[0]) && i <= j < |trace| && id in trace[i].core.matches
    requires HasClaimed(trace[i].core.matches[id], p)
    ensures id in trace[j].core.matches && HasClaimed(trace[j].core.matches[id], p)
  {
    hide Inv, Step, Legal, Times, NextState, Acts;
    if i < j {
      ClaimStays(trace, events, id, p, i, j - 1);
      RunKeeps(trace, events, j - 1);
      StepRewrites(trace[j - 1], events[j - 1], id);
    }
  }

  lemma ClaimStep(s: State, id: nat, p: Address)
    requires Inv(s) && Perform(s, ClaimPayout(id, p)).Ok?
    ensures id in s.core.matches && !HasClaimed(s.core.matches[id], p)
    ensures var s' := Step(s, Call(ClaimPayout(id, p)));
      id in s'.core.matches && HasClaimed(s'.core.matches[id], p)
  {
    hide Inv, Attempt, Claim, Perform, Times, NextState;
    Attempted(s, ClaimPayout(id, p));
    ClaimAttempt(s, id, p);
    ClaimGate(s, id, p);
    StepRewrites(s, Call(ClaimPayout(id, p)), id);
  }

  /** No player claims twice on one match. */
  lemma ClaimedOnce(trace: seq<State>, events: seq<Event>, id: nat, p: Address, i: nat, j: nat)
    requires Run(trace, events) && Inv(trace[0]) && i < |events| && j < |events|
    requires events[i] == events[j] == Call(ClaimPayout(id, p))
    requires Perform(trace[i], events[i].op).Ok? && Perform(trace[j], events[j].op).Ok?
    ensures i == j
  {
    hide Inv, Step, Legal, Perform, HasClaimed;
    RunKeeps(trace, events, i);
    RunKeeps(trace, events, j);
    ClaimStep(trace[i], id, p);
    ClaimStep(trace[j], id, p);
    if i < j {
      ClaimStays(trace, events, id, p, i + 1, j);
    } else if j < i {
      ClaimStays(trace, events, id, p, j + 1, i);
    }
  }
}
