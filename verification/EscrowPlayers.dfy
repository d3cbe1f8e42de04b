/** What the escrow keeps about each player: the balance counter, the snapshot log and the number of
    completed matches, call by call and over runs; and that no game is wagered twice. */
module EscrowPlayers {
  import opened Prelude
  import opened EscrowModel
  import opened EscrowInvariants
  import opened EscrowRuns
  import opened EscrowRecords

  function CounterOf(c: Core, p: Address): int {
    Lookup(c.counter, p, 0)
  }

  function LogOf(c: Core, p: Address): seq<Snap> {
    Lookup(c.log, p, [])
  }

  function CompletedOf(c: Core, p: Address): nat {
    Lookup(c.completed, p, 0)
  }

  /** From `c` to `c'` the counter of `p` moves by `delta`, the log gains the new counter if `snaps`, and
      one more match counts as completed if `counts`. */
  ghost predicate Moved(c: Core, c': Core, p: Address, delta: int, snaps: bool, counts: bool, ledger: nat) {
    && CounterOf(c', p) == CounterOf(c, p) + delta
    && LogOf(c', p) == LogOf(c, p) + (if snaps then [Snap(ledger, CounterOf(c', p))] else [])
    && CompletedOf(c', p) == if counts then Min(CompletedOf(c, p) + 1, U32_MAX) else CompletedOf(c, p)
  }

  /** Two moves in a row, with nothing counted twice and nothing changed after a snapshot. */
  lemma Chain(c: Core, c1: Core, c2: Core, p: Address, d1: int, d2: int, s1: bool, s2: bool, k1: bool, k2: bool,
              ledger: nat)
    requires Moved(c, c1, p, d1, s1, k1, ledger) && Moved(c1, c2, p, d2, s2, k2, ledger)
    requires !(k1 && k2) && (s1 ==> d2 == 0 && !s2)
    ensures Moved(c, c2, p, d1 + d2, s1 || s2, k1 || k2, ledger)
  {
  }

  lemma PutMoves(c: Core, id: nat, m: Match, p: Address, ledger: nat)
    ensures Moved(c, Put(c, id, m), p, 0, false, false, ledger)
  {
  }

  lemma SnapshotMoves(c: Core, m: Match, p: Address, ledger: nat)
    requires m.terms.player1 != m.terms.player2
    ensures Moved(c, SnapshotBoth(c, m, ledger), p, 0, Plays(m, p), false, ledger)
    ensures Moved(c, SnapshotDeposited(c, m, ledger), p, 0, HasDeposit(m, p), false, ledger)
  {
  }

  lemma CountMoves(c: Core, m: Match, p: Address, ledger: nat)
    requires m.terms.player1 != m.terms.player2
    ensures Moved(c, CountBoth(c, m), p, 0, false, Plays(m, p), ledger)
  {
  }

  lemma ReleaseMoves(c: Core, m: Match, p: Address, ledger: nat)
    requires m.terms.player1 != m.terms.player2
    ensures Moved(c, ReleaseBoth(c, m), p, if Plays(m, p) then -m.terms.stake else 0, false, false, ledger)
  {
  }

  lemma AdjustMoves(c: Core, q: Address, delta: int, p: Address, ledger: nat)
    ensures Moved(c, Adjust(c, q, delta), p, if p == q then delta else 0, false, false, ledger)
    ensures Moved(c, c, p, 0, false, false, ledger)
  {
  }

  lemma RefundMoves(c: Core, m: Match, p: Address, ledger: nat)
    requires m.terms.player1 != m.terms.player2
    ensures Moved(c, ReleaseDeposited(c, m, ledger), p, if HasDeposit(m, p) then -m.terms.stake else 0,
                  HasDeposit(m, p), false, ledger)
  {
    hide SnapshotDeposited, Adjust, Moved;
    var p1, p2, n := m.terms.player1, m.terms.player2, m.terms.stake;
    var c1 := if m.deposited1 then Adjust(c, p1, -n) else c;
    var c2 := if m.deposited2 then Adjust(c1, p2, -n) else c1;
    AdjustMoves(c, p1, -n, p, ledger);
    AdjustMoves(c1, p2, -n, p, ledger);
    SnapshotMoves(c2, m, p, ledger);
    var d1, d2 := if m.deposited1 && p == p1 then -n else 0, if m.deposited2 && p == p2 then -n else 0;
    Chain(c, c1, c2, p, d1, d2, false, false, false, false, ledger);
    Chain(c, c2, SnapshotDeposited(c2, m, ledger), p, d1 + d2, 0, false, HasDeposit(m, p), false, false, ledger);
  }

  // ----- calls

  ghost function Delta(s: State, op: Op, p: Address): int {
    var id := Target(s, op);
    if id !in s.core.matches then 0
    else
      var m := s.core.matches[id];
      match op
      case DepositStake(_, who) => if p == who then m.terms.stake else 0
      case CancelMatch(_, _) => if HasDeposit(m, p) then -m.terms.stake else 0
      case ExpireMatch(_) => if HasDeposit(m, p) then -m.terms.stake else 0
      case SubmitResult(_, _, _) => if s.config.disputePeriod == 0 && Plays(m, p) then -m.terms.stake else 0
      case FinalizeMatch(_) => if Plays(m, p) then -m.terms.stake else 0
      case _ => 0
  }

  /** The call records a snapshot for `p`. */
  ghost predicate Snaps(s: State, op: Op, p: Address) {
    var id := Target(s, op);
    && id in s.core.matches
    && var m := s.core.matches[id];
       match op
       case DepositStake(_, who) => p == who
       case CancelMatch(_, _) => HasDeposit(m, p)
       case ExpireMatch(_) => HasDeposit(m, p)
       case VoteRollback(_, who, _) => OtherConsented(m, who) && Plays(m, p)
       case SubmitResult(_, _, _) => s.config.disputePeriod == 0 && Plays(m, p)
       case AdminResolve(_, _, _) => Plays(m, p)
       case ClaimPayout(_, who) => p == who
       case FinalizeMatch(_) => Plays(m, p)
       case _ => false
  }

  /** The call counts the match as completed for `p`. */
  ghost predicate Counts(s: State, op: Op, p: Address) {
    var id := Target(s, op);
    && id in s.core.matches && Plays(s.core.matches[id], p)
    && (op.SubmitResult? || op.FinalizeMatch? || op.SettleDispute? || (op.AdminResolve? && op.winner != Draw))
  }

  ghost predicate CallMoved(s: State, op: Op, e: Effect, p: Address) {
    Moved(s.core, e.core, p, Delta(s, op, p), Snaps(s, op, p), Counts(s, op, p), s.ledger)
  }

  lemma DepositMoves(s: State, id: nat, who: Address, p: Address)
    requires Deposit(s, id, who).Ok?
    ensures CallMoved(s, DepositStake(id, who), Deposit(s, id, who).value, p)
  {
    hide DepositFault, Deposited;
  }

  lemma CallOffMoves(s: State, op: Op, p: Address)
    requires (op.CancelMatch? || op.ExpireMatch?) && Attempt(s, op).Ok? && op.id in s.core.matches && Ready(s, op.id)
    ensures CallMoved(s, op, Attempt(s, op).value, p)
  {
    hide ReleaseDeposited, RefundDeposited, Put, Moved;
    var m := s.core.matches[op.id];
    var c1 := Put(s.core, op.id, CalledOff(m, s.ledger));
    PutMoves(s.core, op.id, CalledOff(m, s.ledger), p, s.ledger);
    RefundMoves(c1, m, p, s.ledger);
    Chain(s.core, c1, ReleaseDeposited(c1, m, s.ledger), p, 0, Delta(s, op, p), false, HasDeposit(m, p), false, false,
      s.ledger);
  }

  lemma RollbackMoves(s: State, id: nat, who: Address, reasonLen: nat, p: Address)
    requires Rollback(s, id, who, reasonLen).Ok? && Ready(s, id)
    ensures CallMoved(s, VoteRollback(id, who, reasonLen), Rollback(s, id, who, reasonLen).value, p)
  {
    hide SnapshotDeposited, RefundDeposited, Put, Moved;
    var m1 := Consent(s.core.matches[id], who);
    var c1 := Put(s.core, id, CalledOff(m1, s.ledger));
    PutMoves(s.core, id, m1, p, s.ledger);
    PutMoves(s.core, id, CalledOff(m1, s.ledger), p, s.ledger);
    SnapshotMoves(c1, m1, p, s.ledger);
    Chain(s.core, c1, SnapshotDeposited(c1, m1, s.ledger), p, 0, 0, false, HasDeposit(m1, p), false, false, s.ledger);
  }

  lemma SettledNowMoves(s: State, id: nat, winner: Winner, who: Address, p: Address)
    requires Ready(s, id) && s.config.disputePeriod == 0
    ensures CallMoved(s, SubmitResult(id, winner, who), SettledNow(s, id, winner), p)
  {
    hide SnapshotBoth, CountBoth, ReleaseBoth, Put, MatchOk, Moved;
    DistinctPlayers(s, id);
    var m := s.core.matches[id];
    var m1 := Settled(m, winner, s.time);
    var m2 := m1.(timing := m1.timing.(completedAt := Some(s.ledger)));
    var c1 := Put(s.core, id, m2);
    var c2 := CountBoth(c1, m);
    var c3 := ReleaseBoth(c2, m);
    var plays, delta := Plays(m, p), if Plays(m, p) then -m.terms.stake else 0;
    PutMoves(s.core, id, m2, p, s.ledger);
    CountMoves(c1, m, p, s.ledger);
    ReleaseMoves(c2, m, p, s.ledger);
    SnapshotMoves(c3, m, p, s.ledger);
    Chain(s.core, c1, c2, p, 0, 0, false, false, false, plays, s.ledger);
    Chain(s.core, c2, c3, p, 0, delta, false, false, plays, false, s.ledger);
    Chain(s.core, c3, SnapshotBoth(c3, m, s.ledger), p, delta, 0, false, plays, plays, false, s.ledger);
  }

  lemma SettledLaterMoves(s: State, id: nat, winner: Winner, who: Address, p: Address)
    requires Ready(s, id) && s.config.disputePeriod != 0
    ensures CallMoved(s, SubmitResult(id, winner, who), SettledLater(s, id, winner), p)
  {
    hide CountBoth, Put, MatchOk, Moved;
    DistinctPlayers(s, id);
    var m := s.core.matches[id];
    var m1 := Settled(m, winner, s.time).(state := PendingResult);
    var c1 := Put(s.core, id, m1);
    PutMoves(s.core, id, m1, p, s.ledger);
    CountMoves(c1, m, p, s.ledger);
    Chain(s.core, c1, CountBoth(c1, m), p, 0, 0, false, false, false, Plays(m, p), s.ledger);
  }

  lemma SettleMoves(s: State, id: nat, winner: Winner, who: Address, p: Address)
    requires Settle(s, id, winner, who).Ok? && Ready(s, id)
    ensures CallMoved(s, SubmitResult(id, winner, who), Settle(s, id, winner, who).value, p)
  {
    hide SettledNow, SettledLater, CallMoved, MatchOk;
    if s.config.disputePeriod == 0 {
      SettledNowMoves(s, id, winner, who, p);
    } else {
      SettledLaterMoves(s, id, winner, who, p);
    }
  }

  lemma StalledMoves(s: State, id: nat, who: Address, winner: Winner, p: Address)
    requires ResolveStalled(s, id, who, winner).Ok? && Ready(s, id)
    ensures CallMoved(s, AdminResolve(id, who, winner), ResolveStalled(s, id, who, winner).value, p)
  {
    hide SnapshotBoth, CountBoth, Put, Payout, PotOverflows, MatchOk, Moved;
    DistinctPlayers(s, id);
    var m := s.core.matches[id];
    var m1 := m.(state := Completed, winner := winner, timing := m.timing.(completedAt := Some(s.ledger)));
    var c1 := Put(s.core, id, m1);
    var c2 := SnapshotBoth(c1, m, s.ledger);
    PutMoves(s.core, id, m1, p, s.ledger);
    SnapshotMoves(c1, m, p, s.ledger);
    CountMoves(c2, m, p, s.ledger);
    Chain(s.core, c1, c2, p, 0, 0, false, Plays(m, p), false, false, s.ledger);
    Chain(s.core, c2, CountBoth(c2, m), p, 0, 0, Plays(m, p), false, false, Plays(m, p), s.ledger);
  }

  lemma FinalizeMoves(s: State, id: nat, p: Address)
    requires Finalize(s, id).Ok? && Ready(s, id)
    ensures CallMoved(s, FinalizeMatch(id), Finalize(s, id).value, p)
  {
    hide SnapshotBoth, CountBoth, ReleaseBoth, Put, Payout, PotOverflows, MatchOk, Moved;
    DistinctPlayers(s, id);
    var m := s.core.matches[id];
    var m1 := m.(state := Completed, timing := m.timing.(completedAt := Some(s.ledger)));
    var c1 := Put(s.core, id, m1);
    var c2 := ReleaseBoth(c1, m);
    var c3 := CountBoth(c2, m);
    var plays, delta := Plays(m, p), if Plays(m, p) then -m.terms.stake else 0;
    PutMoves(s.core, id, m1, p, s.ledger);
    ReleaseMoves(c1, m, p, s.ledger);
    CountMoves(c2, m, p, s.ledger);
    SnapshotMoves(c3, m, p, s.ledger);
    Chain(s.core, c1, c2, p, 0, delta, false, false, false, false, s.ledger);
    Chain(s.core, c2, c3, p, delta, 0, false, false, false, plays, s.ledger);
    Chain(s.core, c3, SnapshotBoth(c3, m, s.ledger), p, delta, 0, false, plays, plays, false, s.ledger);
  }

  lemma ClaimMovesPlayer(s: State, id: nat, who: Address, p: Address)
    requires Claim(s, id, who).Ok?
    ensures CallMoved(s, ClaimPayout(id, who), Claim(s, id, who).value, p)
  {
    hide Share, Claimed;
  }

  lemma ResolveMovesPlayer(s: State, d: nat, p: Address)
    requires Inv(s) && ResolveDispute(s, d).Ok?
    ensures CallMoved(s, SettleDispute(d), ResolveDispute(s, d).value, p)
  {
    hide CountBoth, Put, ResolutionPays, PotOverflows, Verdict, Inv, MatchOk;
    var id := s.docket.disputes[d].matchId;
    var m := s.core.matches[id];
    DisputeReady(s, d);
    DistinctPlayers(s, id);
    var m1 := m.(state := Completed, timing := m.timing.(completedAt := Some(s.ledger)));
    PutMoves(s.core, id, m1, p, s.ledger);
    CountMoves(Put(s.core, id, m1), m, p, s.ledger);
  }

  lemma QuietMoves(s: State, op: Op, p: Address)
    requires op.CreateMatch? || op.PauseMatch? || op.ResumeMatch? || op.Heartbeat? || op.RaiseDispute?
             || op.VoteDispute?
    requires Attempt(s, op).Ok?
    ensures CallMoved(s, op, Attempt(s, op).value, p)
  {
    hide CreateFault, BondFor, BondRate, WeightAt;
  }

  /** Every accepted call moves the counter, the log and the count of every player in exactly that way. */
  lemma CallMovesPlayer(s: State, op: Op, p: Address)
    requires Inv(s) && Attempt(s, op).Ok?
    ensures CallMoved(s, op, Attempt(s, op).value, p)
  {
    hide Inv, Attempt, CallMoved, Ready, Deposit, Settle, Rollback, ResolveStalled, Claim, Finalize, ResolveDispute;
    if op.CreateMatch? || op.PauseMatch? || op.ResumeMatch? || op.Heartbeat? || op.RaiseDispute? || op.VoteDispute? {
      QuietMoves(s, op, p);
    } else if op.SettleDispute? {
      ResolveAttempt(s, op.dispute);
      ResolveMovesPlayer(s, op.dispute, p);
    } else {
      CallFinds(s, op);
      ReadyAt(s, op.id);
      match op
      case DepositStake(id, who) => DepositAttempt(s, id, who); DepositMoves(s, id, who, p);
      case SubmitResult(id, winner, who) => SettleAttempt(s, id, winner, who); SettleMoves(s, id, winner, who, p);
      case VoteRollback(id, who, n) => RollbackAttempt(s, id, who, n); RollbackMoves(s, id, who, n, p);
      case AdminResolve(id, who, w) => StalledAttempt(s, id, who, w); StalledMoves(s, id, who, w, p);
      case ClaimPayout(id, who) => ClaimAttempt(s, id, who); ClaimMovesPlayer(s, id, who, p);
      case FinalizeMatch(id) => FinalizeAttempt(s, id); FinalizeMoves(s, id, p);
      case CancelMatch(_, _) => CallOffMoves(s, op, p);
      case ExpireMatch(_) => CallOffMoves(s, op, p);
    }
  }

  // ----- runs

  /** The newest snapshot of every player shows the present counter. */
  ghost predicate Current(c: Core, p: Address) {
    CounterOf(c, p) == if LogOf(c, p) == [] then 0 else LogOf(c, p)[|LogOf(c, p)| - 1].balance
  }

  lemma NoSnapNoDelta(s: State, op: Op, p: Address)
    requires !Snaps(s, op, p)
    ensures Delta(s, op, p) == 0
  {
  }

  /** In every run, what the history says about the present is what the counter says. */
  lemma {:induction false} HistoryIsCurrent(trace: seq<State>, events: seq<Event>, p: Address, n: nat)
    requires Run(trace, events) && Inv(trace[0]) && Current(trace[0].core, p) && n < |trace|
    ensures Current(trace[n].core, p)
  {
    hide Inv, Legal, Attempt, PayAll, Snaps, Delta, Counts;
    if n > 0 {
      HistoryIsCurrent(trace, events, p, n - 1);
      RunKeeps(trace, events, n - 1);
      var s, e := trace[n - 1], events[n - 1];
      if e.Call? && Perform(s, e.op).Ok? {
        CallMovesPlayer(s, e.op, p);
        if !Snaps(s, e.op, p) { NoSnapNoDelta(s, e.op, p); }
      }
    }
  }

  /** How often a run counted a match as completed for `p`. */
  ghost function Completions(trace: seq<State>, events: seq<Event>, p: Address, n: nat): nat
    requires |trace| == |events| + 1 && n < |trace|
  {
    if n == 0 then 0
    else
      var s, e := trace[n - 1], events[n - 1];
      Completions(trace, events, p, n - 1) + if e.Call? && Perform(s, e.op).Ok? && Counts(s, e.op, p) then 1 else 0
  }

  /** A player's tier rests on exactly those completions: one at each submission of a result, one more
      at its finalisation or dispute resolution, and one at an admin resolution that is not a draw. */
  lemma {:induction false} TierRestsOnCompletions(trace: seq<State>, events: seq<Event>, p: Address, n: nat)
    requires Run(trace, events) && Inv(trace[0]) && trace[0].core.completed == map[] && n < |trace|
    ensures CompletedOf(trace[n].core, p) == Min(Completions(trace, events, p, n), U32_MAX)
  {
    hide Inv, Legal, Attempt, PayAll, Snaps, Delta, Counts;
    if n > 0 {
      TierRestsOnCompletions(trace, events, p, n - 1);
      RunKeeps(trace, events, n - 1);
      var s, e := trace[n - 1], events[n - 1];
      if e.Call? && Perform(s, e.op).Ok? {
        CallMovesPlayer(s, e.op, p);
      }
    }
  }

  // ----- games

  /** Every match is on a game that is taken, and no two on the same one. */
  ghost predicate GamesTaken(c: Core) {
    && (forall i :: i in c.matches ==> c.matches[i].terms.game in c.games)
    && (forall i, j :: i in c.matches && j in c.matches && i != j ==>
          c.matches[i].terms.game != c.matches[j].terms.game)
  }

  lemma GamesStay(s: State, op: Op)
    requires Inv(s) && Attempt(s, op).Ok? && !op.CreateMatch?
    ensures Attempt(s, op).value.core.games == s.core.games
  {
    hide Inv, DepositFault, Payout, RefundDeposited, ResolutionPays, Share, BondFor, BondRate, WeightAt, PotOverflows,
      Stalled;
  }

  lemma GamesStep(s: State, op: Op)
    requires Inv(s) && Legal(s, Call(op)) && GamesTaken(s.core) && Attempt(s, op).Ok?
    ensures GamesTaken(Attempt(s, op).value.core)
  {
    hide Inv, Attempt, Local, Legal;
    CallLocal(s, op);
    LocalParts(s, Attempt(s, op).value, Target(s, op));
    if op.CreateMatch? {
      CreatedRecord(s, op);
    } else {
      GamesStay(s, op);
      CallRewrites(s, op);
    }
  }

  /** No game is wagered twice: the matches of a run are on different games. */
  lemma {:induction false} GamesDistinct(trace: seq<State>, events: seq<Event>, n: nat)
    requires Run(trace, events) && Inv(trace[0]) && GamesTaken(trace[0].core) && n < |trace|
    ensures GamesTaken(trace[n].core)
  {
    hide Inv, Legal, Attempt, PayAll, GamesTaken;
    if n > 0 {
      GamesDistinct(trace, events, n - 1);
      RunKeeps(trace, events, n - 1);
      var s, e := trace[n - 1], events[n - 1];
      if e.Call? && Perform(s, e.op).Ok? {
        GamesStep(s, e.op);
      }
    }
  }
}
