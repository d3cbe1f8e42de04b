/** Whole runs of the oracle contract. */
module OracleRuns {
  import opened Prelude
  import opened OracleModel
  import opened OracleInvariants

  ghost predicate Inv(s: State) {
    && s.config.threshold >= 1
    && s.config.admin != Some(s.self)
    && BooksOk(s.books, s.self)
    && Ballots(s.polls, s.books.registrations)
  }

  ghost predicate BooksOk(b: Books, self: Address) {
    Funded(b, self) && Staged(b)
  }

  /** Same registered oracles, each in the same token. */
  ghost predicate SameHolders(a: Registrations, b: Registrations) {
    a.Keys == b.Keys && forall o :: o in a ==> a[o].token == b[o].token
  }

  /** A change of the books a step may make: sound books, unchanged surplus, no holder lost. */
  ghost predicate BooksStep(b: Books, b': Books, self: Address) {
    BooksOk(b', self) && SameSurplus(b, b', self) && b.registrations.Keys <= b'.registrations.Keys
  }

  // ----- books

  lemma {:induction false} SlashEachHolders(b: Books, self: Address, admin: Address, whos: seq<Address>)
    ensures var b' := SlashEach(b, self, admin, whos);
      SameHolders(b.registrations, b'.registrations) && b'.pending == b.pending
    decreases |whos|
  {
    if whos != [] {
      SlashEachHolders(b, self, admin, whos[..|whos| - 1]);
    }
  }

  lemma SlashStep(b: Books, self: Address, admin: Address, who: Address, bps: int)
    requires BooksOk(b, self) && admin != self && 0 <= bps <= 10_000
    ensures BooksStep(b, Slash(b, self, admin, who, bps), self)
  {
    SlashConserves(b, self, admin, who, bps);
  }

  lemma SlashEachStep(b: Books, self: Address, admin: Address, whos: seq<Address>)
    requires BooksOk(b, self) && admin != self
    ensures BooksStep(b, SlashEach(b, self, admin, whos), self)
  {
    SlashEachConserves(b, self, admin, whos);
    SlashEachHolders(b, self, admin, whos);
  }

  lemma PendingStep(b: Books, b': Books, self: Address)
    requires BooksOk(b, self) && b' == b.(pending := b'.pending) && Staged(b')
    ensures BooksStep(b, b', self)
  {
    assert forall t: Address :: Surplus(b', self, t) == Surplus(b, self, t);
  }

  lemma RegisterStep(b: Books, self: Address, who: Address, amount: int, token: Address)
    requires BooksOk(b, self) && who != self
    ensures var r := RegisterOracle(b, self, who, amount, token); r.Ok? ==> BooksStep(b, r.value, self)
  {
    RegisterConserves(b, self, who, amount, token);
  }

  /** Staged slashes that together exceed the stake still never take more than is there. */
  lemma FinalizeSlashStep(b: Books, self: Address, admin: Address, ledger: nat, who: Address, matchId: nat)
    requires BooksOk(b, self) && admin != self
    ensures var r := FinalizeSlash(b, self, admin, ledger, who, matchId); r.Ok? ==>
      && BooksStep(b, r.value, self)
      && r.value.registrations[who].stake ==
           b.registrations[who].stake - Min(b.pending[(who, matchId)].amount, b.registrations[who].stake)
      && r.value.registrations[who].stake >= 0
  {
    var r := FinalizeSlash(b, self, admin, ledger, who, matchId);
    if r.Ok? {
      var b1 := b.(pending := Without(b.pending, (who, matchId)));
      PendingStep(b, b1, self);
      var amount := Min(b.pending[(who, matchId)].amount, b.registrations[who].stake);
      if amount > 0 {
        SeizeConserves(b1, self, admin, who, amount);
      }
    }
  }

  lemma OutsideStep(b: Books, self: Address, token: Address, src: Address, dst: Address, amount: int)
    requires BooksOk(b, self) && src != self && dst != self
    ensures var m := Transfer(b.balances, token, src, dst, amount);
      m.Some? ==> BooksStep(b, b.(balances := m.value), self)
  {
    var m := Transfer(b.balances, token, src, dst, amount);
    if m.Some? {
      assert forall t: Address :: Surplus(b.(balances := m.value), self, t) == Surplus(b, self, t);
    }
  }

  // ----- tallies

  lemma TallyElsewhere(p: Polls, regs: Registrations, matchId: nat, who: Address, claim: Claim, m: nat)
    requires Ballots(p, regs) && (matchId, who) !in p.votes && m in p.consensus
    ensures TallyOk(p.consensus[m].candidates, p.votes[(matchId, who) := claim], m)
  {
    var cs, votes := p.consensus[m].candidates, p.votes[(matchId, who) := claim];
    forall i, k | 0 <= i < |cs| && 0 <= k < |cs[i].submitters|
      ensures Recorded(votes, m, cs[i].submitters[k], cs[i].claim)
    {
      assert Recorded(p.votes, m, cs[i].submitters[k], cs[i].claim);
    }
  }

  lemma CountedBallots(p: Polls, regs: Registrations, who: Address, matchId: nat, claim: Claim, disputed: bool)
    requires Ballots(p, regs) && who in regs && (matchId, who) !in p.votes
    ensures var cs := CountVote(Open(p, matchId).candidates, who, claim);
      var votes := p.votes[(matchId, who) := claim];
      && Ballots(Polls(votes, p.consensus[matchId := Consensus(cs, disputed)]), regs)
      && Ballots(Polls(votes, Without(p.consensus, matchId)), regs)
  {
    CountVoteOk(Open(p, matchId).candidates, p.votes, matchId, who, claim);
    forall m | m in p.consensus
      ensures TallyOk(p.consensus[m].candidates, p.votes[(matchId, who) := claim], m)
    {
      TallyElsewhere(p, regs, matchId, who, claim, m);
    }
  }

  // ----- steps

  /** Every step changes the state in one of the ways that keep the invariant. */
  ghost predicate Keeps(s: State, s': State) {
    Inv(s') && s'.self == s.self && SameSurplus(s.books, s'.books, s.self)
  }

  lemma KeepsIntro(s: State, s': State)
    requires Inv(s) && s'.self == s.self && s'.config.threshold >= 1 && s'.config.admin != Some(s.self)
    requires s'.books == s.books || BooksStep(s.books, s'.books, s.self)
    requires s'.polls == s.polls || Ballots(s'.polls, s'.books.registrations)
    ensures Keeps(s, s')
  {
  }

  lemma TallyKeeps(s: State, who: Address, matchId: nat, claim: Claim)
    requires Inv(s) && s.config.admin.Some? && who in s.books.registrations && (matchId, who) !in s.polls.votes
    ensures Keeps(s, Tally(s, who, matchId, claim))
  {
    hide CountVote, Backing, SlashEach, LogEach, Publish;
    var cs := CountVote(Open(s.polls, matchId).candidates, who, claim);
    var votes := s.polls.votes[(matchId, who) := claim];
    if |Backing(cs, claim)| >= s.config.threshold {
      CountedBallots(s.polls, s.books.registrations, who, matchId, claim, false);
      SlashEachStep(s.books, s.self, s.config.admin.value, Losers(cs, claim));
    } else {
      CountedBallots(s.polls, s.books.registrations, who, matchId, claim,
        Deadlocked(cs, |Eligible(s.books.registrations, votes, matchId)|, s.config.threshold));
    }
    KeepsIntro(s, Tally(s, who, matchId, claim));
  }

  lemma VoteKeeps(s: State, who: Address, matchId: nat, claim: Claim, ms: nat)
    requires Inv(s)
    ensures var r := CastVote(s, who, matchId, claim, ms); r.Ok? ==> Keeps(s, r.value)
  {
    var r := CastVote(s, who, matchId, claim, ms);
    if r.Ok? {
      var admin := s.config.admin.value;
      if matchId in s.board.results {
        SlashStep(s.books, s.self, admin, who, MINORITY_BPS);
        KeepsIntro(s, r.value);
      } else if (matchId, who) in s.polls.votes {
        SlashStep(s.books, s.self, admin, who, EQUIVOCATION_BPS);
        KeepsIntro(s, r.value);
      } else {
        TallyKeeps(s.(quotas := Bill(s.quotas, s.config, s.time, who, ms).value), who, matchId, claim);
      }
    }
  }

  lemma ResolveKeeps(s: State, matchId: nat, claim: Claim)
    requires Inv(s)
    ensures var r := ResolveDisputed(s, matchId, claim); r.Ok? ==> Keeps(s, r.value)
  {
    var r := ResolveDisputed(s, matchId, claim);
    if r.Ok? {
      SlashEachStep(s.books, s.self, s.config.admin.value, Losers(Open(s.polls, matchId).candidates, claim));
      KeepsIntro(s, r.value);
    }
  }

  lemma BooksKeep(s: State, op: Op)
    requires Inv(s) && Legal(s, op)
    requires op.Register? || op.Stage? || op.Execute? || op.Withdraw? || op.Outside?
    ensures Keeps(s, Step(s, op))
  {
    var r := Perform(s, op);
    if r.Ok? {
      match op
      case Register(who, amount, token) => RegisterStep(s.books, s.self, who, amount, token);
      case Stage(who, m, amount) => PendingStep(s.books, r.value.books, s.self);
      case Execute(who, m) => FinalizeSlashStep(s.books, s.self, s.config.admin.value, s.ledger, who, m);
      case Withdraw(who, m) => PendingStep(s.books, r.value.books, s.self);
      case Outside(token, src, dst, amount) => OutsideStep(s.books, s.self, token, src, dst, amount);
      KeepsIntro(s, r.value);
    }
  }

  /** Every legal transaction keeps the invariant and every token's surplus. */
  lemma StepKeeps(s: State, op: Op)
    requires Inv(s) && Legal(s, op)
    ensures Keeps(s, Step(s, op))
  {
    match op
    case Vote(who, m, claim, ms) => VoteKeeps(s, who, m, claim, ms);
    case Resolve(m, claim) => ResolveKeeps(s, m, claim);
    case Submit(e, ms) => KeepsIntro(s, Step(s, op));
    case Batch(es) => KeepsIntro(s, Step(s, op));
    case Delete(m) => KeepsIntro(s, Step(s, op));
    case Deactivate(who) => KeepsIntro(s, Step(s, op));
    case Configure(c) => KeepsIntro(s, Step(s, op));
    case Advance(l, t) => KeepsIntro(s, Step(s, op));
    case _ => BooksKeep(s, op);
  }

  /** Stake conservation and agreement over whole runs: every state of a run that starts well is
      well, and holds of every token exactly the initial surplus beyond the registered stakes. */
  lemma {:induction false} RunKeeps(trace: seq<State>, ops: seq<Op>, i: nat)
    requires Run(trace, ops) && Inv(trace[0]) && i < |trace|
    ensures Keeps(trace[0], trace[i])
  {
    hide Perform;
    if i > 0 {
      RunKeeps(trace, ops, i - 1);
      StepKeeps(trace[i - 1], ops[i - 1]);
    }
  }

  /** A deployed contract starts well. */
  lemma FreshInv(s: State)
    requires s.books.registrations == map[] && s.books.pending == map[]
    requires s.polls == Polls(map[], map[])
    requires s.config.threshold >= 1 && s.config.admin != Some(s.self)
    requires forall t: Address :: BalanceOf(s.books.balances, t, s.self) >= 0
    ensures Inv(s)
  {
    forall t: Address
      ensures Surplus(s.books, s.self, t) >= 0
    {
      assert StakesIn(s.books.registrations, t) == map[];
    }
  }

  // ----- results rest on a quorum

  /** At least `n` distinct oracles are recorded for `claim`. */
  ghost predicate Quorum(votes: Votes, matchId: nat, claim: Claim, n: nat) {
    exists q: set<Address> :: |q| >= n && AllRecorded(votes, matchId, claim, q)
  }

  ghost predicate AllRecorded(votes: Votes, matchId: nat, claim: Claim, q: set<Address>) {
    forall o :: o in q ==> Recorded(votes, matchId, o, claim)
  }

  lemma BackingQuorum(cs: seq<Candidate>, votes: Votes, matchId: nat, claim: Claim)
    requires TallyOk(cs, votes, matchId)
    ensures Quorum(votes, matchId, claim, |Backing(cs, claim)|)
  {
    hide Position;
    var backing := Backing(cs, claim);
    NoDupSize(backing);
    assert AllRecorded(votes, matchId, claim, Elems(backing));
  }

  lemma QuorumBehindTally(s: State, who: Address, matchId: nat, claim: Claim)
    requires Inv(s) && s.config.admin.Some? && (matchId, who) !in s.polls.votes && matchId !in s.board.results
    requires matchId in Tally(s, who, matchId, claim).board.results
    ensures var s' := Tally(s, who, matchId, claim);
      && s'.board.results[matchId].claim == claim
      && matchId !in s'.polls.consensus
      && Quorum(s'.polls.votes, matchId, claim, s.config.threshold)
  {
    hide CountVote, Backing, SlashEach, LogEach;
    var cs := CountVote(Open(s.polls, matchId).candidates, who, claim);
    CountVoteOk(Open(s.polls, matchId).candidates, s.polls.votes, matchId, who, claim);
    BackingQuorum(cs, s.polls.votes[(matchId, who) := claim], matchId, claim);
    var e := Entry(matchId, claim, None);
    LogEachFrame(Publish(s.board, e, who, s.ledger, s.time), Backing(cs, claim), e, s.ledger);
  }

  /** A first vote that is accepted on an open match is billed and tallied. */
  lemma AcceptedVote(s: State, who: Address, matchId: nat, claim: Claim, ms: nat)
    requires Inv(s) && CastVote(s, who, matchId, claim, ms).Ok?
    requires matchId !in s.board.results && (matchId, who) !in s.polls.votes
    ensures Bill(s.quotas, s.config, s.time, who, ms).Ok?
    ensures var s1 := s.(quotas := Bill(s.quotas, s.config, s.time, who, ms).value);
      && Inv(s1) && s.config.admin.Some?
      && who in s.books.registrations && s.books.registrations[who].stake > 0
      && CastVote(s, who, matchId, claim, ms).value == Tally(s1, who, matchId, claim)
  {
    hide Tally, Bill, Slash, BooksOk, Ballots;
  }

  /** A vote that publishes a result is a first vote and completes a quorum. */
  lemma FinalisingVote(s: State, who: Address, matchId: nat, claim: Claim, ms: nat)
    requires Inv(s) && matchId !in s.board.results && CastVote(s, who, matchId, claim, ms).Ok?
    requires matchId in CastVote(s, who, matchId, claim, ms).value.board.results
    ensures (matchId, who) !in s.polls.votes
    ensures |Backing(CountVote(Open(s.polls, matchId).candidates, who, claim), claim)| >= s.config.threshold
  {
    hide Bill, Slash, CountVote, Backing, SlashEach, LogEach, Publish, BooksOk, Ballots, Losers;
  }

  /** A vote that finalises a match publishes its own claim, which at least `threshold` distinct
      oracles are recorded for, and closes the tally. */
  lemma QuorumBehindResult(s: State, who: Address, matchId: nat, claim: Claim, ms: nat)
    requires Inv(s) && matchId !in s.board.results
    requires CastVote(s, who, matchId, claim, ms).Ok?
    requires matchId in CastVote(s, who, matchId, claim, ms).value.board.results
    ensures var s' := CastVote(s, who, matchId, claim, ms).value;
      && s'.board.results[matchId].claim == claim
      && matchId !in s'.polls.consensus
      && Quorum(s'.polls.votes, matchId, claim, s.config.threshold)
  {
    hide Tally, Bill, Slash;
    var s1 := s.(quotas := Bill(s.quotas, s.config, s.time, who, ms).value);
    assert CastVote(s, who, matchId, claim, ms).value == Tally(s1, who, matchId, claim);
    QuorumBehindTally(s1, who, matchId, claim);
  }

  lemma {:induction false} LogEachFrame(b: Board, whos: seq<Address>, e: Entry, ledger: nat)
    ensures var r := LogEach(b, whos, e, ledger); r == b.(history := r.history)
    decreases |whos|
  {
    if whos != [] {
      LogEachFrame(b, whos[..|whos| - 1], e, ledger);
    }
  }

  /** Votes are permanent: nothing recorded is lost or changed. */
  ghost predicate VotesKept(a: Votes, b: Votes) {
    forall k :: k in a ==> k in b && b[k] == a[k]
  }

  lemma StepKeepsVotes(s: State, op: Op)
    ensures VotesKept(s.polls.votes, Step(s, op).polls.votes)
  {
    hide Bill, SubmissionGate, Transfer, SlashEach, LogEach, CommitAll, Commit, BatchFault, CountVote, Backing, Losers,
      Publish, Slash, Deadlocked, Eligible, FinalizeSlash, StageSlash, RegisterOracle;
  }

  lemma {:induction false} RunKeepsVotes(trace: seq<State>, ops: seq<Op>, i: nat, j: nat)
    requires Run(trace, ops) && i <= j < |trace|
    ensures VotesKept(trace[i].polls.votes, trace[j].polls.votes)
    decreases j
  {
    hide Perform;
    if i < j {
      RunKeepsVotes(trace, ops, i, j - 1);
      StepKeepsVotes(trace[j - 1], ops[j - 1]);
    }
  }

  /** The quorum behind a consensus result stays on record for the rest of the run. */
  lemma QuorumStaysOnRecord(trace: seq<State>, ops: seq<Op>, i: nat, j: nat)
    requires Run(trace, ops) && Inv(trace[0]) && i < j < |trace|
    requires ops[i].Vote? && ops[i].matchId !in trace[i].board.results && ops[i].matchId in trace[i + 1].board.results
    ensures Quorum(trace[j].polls.votes, ops[i].matchId, ops[i].claim, trace[i].config.threshold)
  {
    var op := ops[i];
    RunKeeps(trace, ops, i);
    assert Perform(trace[i], op) == CastVote(trace[i], op.who, op.matchId, op.claim, op.ms);
    hide CastVote;
    QuorumBehindResult(trace[i], op.who, op.matchId, op.claim, op.ms);
    RunKeepsVotes(trace, ops, i + 1, j);
    var q: set<Address> :| |q| >= trace[i].config.threshold && AllRecorded(trace[i + 1].polls.votes, op.matchId,
      op.claim, q);
    assert AllRecorded(trace[j].polls.votes, op.matchId, op.claim, q);
  }

  lemma TallyPenalties(s: State, who: Address, matchId: nat, claim: Claim, o: Address)
    requires Inv(s) && s.config.admin.Some? && who in s.books.registrations && (matchId, who) !in s.polls.votes
    requires |Backing(CountVote(Open(s.polls, matchId).candidates, who, claim), claim)| >= s.config.threshold
    requires o in s.books.registrations
    ensures var regs := Tally(s, who, matchId, claim).books.registrations;
      var cs := CountVote(Open(s.polls, matchId).candidates, who, claim);
      var was := s.books.registrations[o];
      && regs.Keys == s.books.registrations.Keys
      && regs[o] == was.(stake := if Listed(cs, claim, o) then MinorityPenalty(was.stake) else was.stake)
      && (o in Backing(cs, claim) ==> !Listed(cs, claim, o))
  {
    var cs := CountVote(Open(s.polls, matchId).candidates, who, claim);
    var votes := s.polls.votes[(matchId, who) := claim];
    CountVoteOk(Open(s.polls, matchId).candidates, s.polls.votes, matchId, who, claim);
    LosersDistinct(cs, votes, matchId, claim);
    LosersListed(cs, claim, o);
    ExactPenalties(s.books, s.self, s.config.admin.value, Losers(cs, claim));
    if o in Backing(cs, claim) {
      WinnersSpared(cs, votes, matchId, claim, o);
    }
  }

  /** A vote that finalises a match takes floor(stake/10) once from each oracle listed for a losing
      candidate and leaves every other registration, the winners' included, alone. */
  lemma FinalisationPenalties(s: State, who: Address, matchId: nat, claim: Claim, ms: nat, o: Address)
    requires Inv(s) && matchId !in s.board.results && CastVote(s, who, matchId, claim, ms).Ok?
    requires matchId in CastVote(s, who, matchId, claim, ms).value.board.results && o in s.books.registrations
    ensures var regs := CastVote(s, who, matchId, claim, ms).value.books.registrations;
      var cs := CountVote(Open(s.polls, matchId).candidates, who, claim);
      var was := s.books.registrations[o];
      && regs.Keys == s.books.registrations.Keys
      && regs[o] == was.(stake := if Listed(cs, claim, o) then MinorityPenalty(was.stake) else was.stake)
      && (o in Backing(cs, claim) ==> !Listed(cs, claim, o))
  {
    FinalisingVote(s, who, matchId, claim, ms);
    AcceptedVote(s, who, matchId, claim, ms);
    hide CastVote, Tally, Bill, Inv, CountVote, Backing;
    TallyPenalties(s.(quotas := Bill(s.quotas, s.config, s.time, who, ms).value), who, matchId, claim, o);
  }

  /** Logging a submission for distinct oracles appends it once to each of their histories. */
  lemma {:induction false} HistoryExact(b: Board, whos: seq<Address>, e: Entry, ledger: nat, o: Address)
    requires NoDup(whos)
    ensures Lookup(LogEach(b, whos, e, ledger).history, o, []) ==
      Lookup(b.history, o, []) + if o in whos then [Submission(e.matchId, e.claim, ledger)] else []
    decreases |whos|
  {
    if whos != [] {
      var init, last := whos[..|whos| - 1], whos[|whos| - 1];
      HistoryExact(b, init, e, ledger, o);
      assert whos == init + [last] && last !in init;
      if o != last {
        assert Lookup(LogEach(b, whos, e, ledger).history, o, []) == Lookup(LogEach(b, init, e, ledger).history, o, []);
      }
    }
  }

  lemma TallyRecord(s: State, who: Address, matchId: nat, claim: Claim, o: Address)
    requires Inv(s) && s.config.admin.Some? && who in s.books.registrations && (matchId, who) !in s.polls.votes
    requires |Backing(CountVote(Open(s.polls, matchId).candidates, who, claim), claim)| >= s.config.threshold
    ensures var s' := Tally(s, who, matchId, claim);
      var winners := Backing(CountVote(Open(s.polls, matchId).candidates, who, claim), claim);
      && s'.board.results == s.board.results[matchId := ResultEntry(claim, s.ledger, who, None)]
      && matchId !in s'.polls.consensus
      && Lookup(s'.board.history, o, []) ==
           Lookup(s.board.history, o, []) + if o in winners then [Submission(matchId, claim, s.ledger)] else []
  {
    hide CountVote, Backing, Losers, SlashEach, LogEach, BooksOk;
    var cs := CountVote(Open(s.polls, matchId).candidates, who, claim);
    var published := Publish(s.board, Entry(matchId, claim, None), who, s.ledger, s.time);
    assert NoDup(Backing(cs, claim)) by { BackersDistinct(s, who, matchId, claim); }
    LogEachFrame(published, Backing(cs, claim), Entry(matchId, claim, None), s.ledger);
    HistoryExact(published, Backing(cs, claim), Entry(matchId, claim, None), s.ledger, o);
  }

  /** A vote that finalises a match publishes the winning claim for that match only, closes the tally,
      and credits every oracle behind the claim with exactly one submission and nobody else with any. */
  lemma FinalisationRecord(s: State, who: Address, matchId: nat, claim: Claim, ms: nat, o: Address)
    requires Inv(s) && matchId !in s.board.results && CastVote(s, who, matchId, claim, ms).Ok?
    requires matchId in CastVote(s, who, matchId, claim, ms).value.board.results
    ensures var s' := CastVote(s, who, matchId, claim, ms).value;
      var winners := Backing(CountVote(Open(s.polls, matchId).candidates, who, claim), claim);
      && s'.board.results == s.board.results[matchId := ResultEntry(claim, s.ledger, who, None)]
      && matchId !in s'.polls.consensus
      && Lookup(s'.board.history, o, []) ==
           Lookup(s.board.history, o, []) + if o in winners then [Submission(matchId, claim, s.ledger)] else []
  {
    FinalisingVote(s, who, matchId, claim, ms);
    AcceptedVote(s, who, matchId, claim, ms);
    hide CastVote, Tally, Bill, Inv, CountVote, Backing;
    TallyRecord(s.(quotas := Bill(s.quotas, s.config, s.time, who, ms).value), who, matchId, claim, o);
  }

  lemma BackersDistinct(s: State, who: Address, matchId: nat, claim: Claim)
    requires Inv(s) && (matchId, who) !in s.polls.votes
    ensures NoDup(Backing(CountVote(Open(s.polls, matchId).candidates, who, claim), claim))
  {
    hide CountVote;
    CountVoteOk(Open(s.polls, matchId).candidates, s.polls.votes, matchId, who, claim);
  }
}
