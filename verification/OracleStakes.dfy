/** What an oracle's conduct costs it: every stake and every account, step by step and over runs. */
module OracleStakes {
  import opened Prelude
  import opened OracleModel
  import opened OracleInvariants
  import opened OracleRuns

  // ----- one slash

  /** `amount` of `token` goes from `src` to `dst` and nothing else moves. */
  ghost predicate Moved(b: Balances, b': Balances, token: Address, src: Address, dst: Address, amount: int) {
    forall t: Address, a: Address :: BalanceOf(b', t, a) == BalanceOf(b, t, a) +
      if t != token then 0 else if a == dst then amount else if a == src then -amount else 0
  }

  /** `who` loses `amount` of its stake to the admin; nobody else's stake or balance changes. */
  ghost predicate Penalised(s: State, s': State, who: Address, amount: int) {
    && s.config.admin.Some? && who in s.books.registrations
    && var was := s.books.registrations[who];
       && s'.books.registrations == s.books.registrations[who := was.(stake := was.stake - amount)]
       && s'.books.pending == s.books.pending
       && Moved(s.books.balances, s'.books.balances, was.token, s.self, s.config.admin.value, amount)
  }

  lemma SeizeMoves(b: Books, self: Address, admin: Address, who: Address, amount: int)
    requires Funded(b, self) && admin != self && who in b.registrations
    requires 0 <= amount <= b.registrations[who].stake
    ensures var b', was := Seize(b, self, admin, who, amount), b.registrations[who];
      && b'.registrations == b.registrations[who := was.(stake := was.stake - amount)]
      && b'.pending == b.pending
      && Moved(b.balances, b'.balances, was.token, self, admin, amount)
  {
    hide BalanceOf;
    StakeIsHeld(b, self, who);
  }

  lemma SlashMoves(b: Books, self: Address, admin: Address, who: Address, bps: int)
    requires Funded(b, self) && admin != self && who in b.registrations && b.registrations[who].stake > 0
    requires 0 <= bps <= 10_000
    ensures var b', was := Slash(b, self, admin, who, bps), b.registrations[who];
      var amount := SlashAmount(was.stake, bps);
      && b'.registrations == b.registrations[who := was.(stake := was.stake - amount)]
      && b'.pending == b.pending
      && Moved(b.balances, b'.balances, was.token, self, admin, amount)
  {
    hide SlashAmount, Seize;
    SlashAmountBounds(b.registrations[who].stake, bps);
    SeizeMoves(b, self, admin, who, SlashAmount(b.registrations[who].stake, bps));
    assert b.registrations[who := b.registrations[who]] == b.registrations;
  }

  /** An accepted vote by an oracle that is already on record contradicts the record: it costs the
      oracle its whole stake and has no other effect but the bill for the submission. */
  lemma EquivocationCost(s: State, who: Address, matchId: nat, claim: Claim, ms: nat)
    requires Inv(s) && matchId !in s.board.results && (matchId, who) in s.polls.votes
    requires CastVote(s, who, matchId, claim, ms).Ok?
    ensures s.polls.votes[(matchId, who)] != claim && who in s.books.registrations
    ensures var s' := CastVote(s, who, matchId, claim, ms).value;
      && Penalised(s, s', who, s.books.registrations[who].stake)
      && s' == s.(books := s'.books, quotas := s'.quotas)
  {
    hide Bill, Slash, Tally, Ballots, Funded;
    SlashAmountBounds(s.books.registrations[who].stake, EQUIVOCATION_BPS);
    SlashMoves(s.books, s.self, s.config.admin.value, who, EQUIVOCATION_BPS);
  }

  /** An accepted vote on a published match contradicts the result: it costs the oracle a tenth of its
      stake, rounded down, and has no other effect. */
  lemma LateVoteCost(s: State, who: Address, matchId: nat, claim: Claim, ms: nat)
    requires Inv(s) && matchId in s.board.results && CastVote(s, who, matchId, claim, ms).Ok?
    ensures s.board.results[matchId].claim != claim && who in s.books.registrations
    ensures var s' := CastVote(s, who, matchId, claim, ms).value;
      && Penalised(s, s', who, s.books.registrations[who].stake / 10)
      && s' == s.(books := s'.books)
  {
    hide Slash, Ballots, Funded;
    SlashAmountBounds(s.books.registrations[who].stake, MINORITY_BPS);
    SlashMoves(s.books, s.self, s.config.admin.value, who, MINORITY_BPS);
  }

  // ----- a round of slashes

  lemma ListedBefore(cs: seq<Candidate>, who: Address, claim: Claim, o: Address)
    ensures Listed(CountVote(cs, who, claim), claim, o) <==> Listed(cs, claim, o)
  {
    hide Position;
    var cs' := CountVote(cs, who, claim);
    if Listed(cs, claim, o) {
      var i :| 0 <= i < |cs| && cs[i].claim != claim && o in cs[i].submitters;
      assert cs'[i] == cs[i];
    }
    if Listed(cs', claim, o) {
      var i :| 0 <= i < |cs'| && cs'[i].claim != claim && o in cs'[i].submitters;
      assert cs[i] == cs'[i];
    }
  }

  /** An admin's resolution is accepted exactly on a disputed, unpublished match. It publishes the
      admin's claim for that match and for no other, and closes the tally. */
  lemma ResolutionRecord(s: State, matchId: nat, claim: Claim)
    ensures ResolveDisputed(s, matchId, claim).Ok? <==>
      s.config.admin.Some? && matchId !in s.board.results && Open(s.polls, matchId).disputed
    ensures ResolveDisputed(s, matchId, claim).Ok? ==>
      var s' := ResolveDisputed(s, matchId, claim).value;
      && s'.board.results == s.board.results[matchId := ResultEntry(claim, s.ledger, s.config.admin.value, None)]
      && s'.board.history == s.board.history
      && s'.polls.votes == s.polls.votes && s'.polls.consensus == s.polls.consensus - {matchId}
      && s' == s.(books := s'.books, polls := s'.polls, board := s'.board)
  {
    hide SlashEach, Losers;
  }

  /** It takes a tenth of the stake once from each oracle listed for another claim and leaves every
      other registration alone. */
  lemma ResolutionPenalties(s: State, matchId: nat, claim: Claim, o: Address)
    requires Inv(s) && ResolveDisputed(s, matchId, claim).Ok? && o in s.books.registrations
    ensures var regs := ResolveDisputed(s, matchId, claim).value.books.registrations;
      var was := s.books.registrations[o];
      && regs.Keys == s.books.registrations.Keys
      && regs[o] == was.(stake := was.stake -
           if Listed(Open(s.polls, matchId).candidates, claim, o) then was.stake / 10 else 0)
  {
    hide SlashEach;
    var cs := Open(s.polls, matchId).candidates;
    assert TallyOk(cs, s.polls.votes, matchId);
    LosersDistinct(cs, s.polls.votes, matchId, claim);
    LosersListed(cs, claim, o);
    ExactPenalties(s.books, s.self, s.config.admin.value, Losers(cs, claim));
  }

  /** A registration is accepted exactly for a positive amount the oracle has, in the token of any
      stake it has already. */
  lemma RegistrationExact(b: Books, self: Address, who: Address, amount: int, token: Address)
    requires who != self
    ensures RegisterOracle(b, self, who, amount, token).Ok? <==>
      && 0 < amount <= BalanceOf(b.balances, token, who)
      && (who in b.registrations ==> b.registrations[who].token == token)
    ensures RegisterOracle(b, self, who, amount, token).Ok? ==>
      var b' := RegisterOracle(b, self, who, amount, token).value;
      && Moved(b.balances, b'.balances, token, who, self, amount) && b'.pending == b.pending
  {
    hide BalanceOf;
  }

  // ----- the stake of one oracle

  function StakeOf(s: State, o: Address): int {
    if o in s.books.registrations then s.books.registrations[o].stake else 0
  }

  /** `o` is on the tally of the match for something other than `claim`. */
  ghost predicate Dissents(s: State, matchId: nat, claim: Claim, o: Address) {
    Listed(Open(s.polls, matchId).candidates, claim, o)
  }

  /** What transaction `op` adds to the stake of `o`. */
  ghost function StakeChange(s: State, op: Op, o: Address): int {
    var stake := StakeOf(s, o);
    if Perform(s, op).Err? then 0
    else
      match op
      case Register(who, amount, _) => if who == o then amount else 0
      case Execute(who, m) =>
        if who == o && (who, m) in s.books.pending then -Min(s.books.pending[(who, m)].amount, stake) else 0
      case Vote(who, m, claim, _) =>
        if m in s.board.results then if who == o then -(stake / 10) else 0
        else if (m, who) in s.polls.votes then if who == o then -stake else 0
        else if m in Step(s, op).board.results && Dissents(s, m, claim, o) then -(stake / 10)
        else 0
      case Resolve(m, claim) => if Dissents(s, m, claim, o) then -(stake / 10) else 0
      case _ => 0
  }

  lemma DissentersRegistered(s: State, matchId: nat, claim: Claim, o: Address)
    requires Inv(s) && Dissents(s, matchId, claim, o)
    ensures Disagrees(s, matchId, claim, o) && o in s.books.registrations
  {
    hide BooksOk;
    var cs := Open(s.polls, matchId).candidates;
    var i :| 0 <= i < |cs| && cs[i].claim != claim && o in cs[i].submitters;
    var k :| 0 <= k < |cs[i].submitters| && cs[i].submitters[k] == o;
    assert Recorded(s.polls.votes, matchId, cs[i].submitters[k], cs[i].claim);
    assert (matchId, o).1 in s.books.registrations;
  }

  /** `o` has a recorded vote on the match for something other than `claim`. */
  predicate Disagrees(s: State, matchId: nat, claim: Claim, o: Address) {
    (matchId, o) in s.polls.votes && s.polls.votes[(matchId, o)] != claim
  }

  lemma OpenTallyKeepsBooks(s: State, who: Address, matchId: nat, claim: Claim)
    requires s.config.admin.Some? && matchId !in Tally(s, who, matchId, claim).board.results
    ensures Tally(s, who, matchId, claim).books == s.books
  {
    hide CountVote, Backing, SlashEach, LogEach, Losers, Deadlocked, Eligible;
    var cs, e := CountVote(Open(s.polls, matchId).candidates, who, claim), Entry(matchId, claim, None);
    LogEachFrame(Publish(s.board, e, who, s.ledger, s.time), Backing(cs, claim), e, s.ledger);
  }

  lemma TallyKeepsHolders(s: State, who: Address, matchId: nat, claim: Claim)
    requires s.config.admin.Some?
    ensures Tally(s, who, matchId, claim).books.registrations.Keys == s.books.registrations.Keys
  {
    hide CountVote, Backing, SlashEach, LogEach, Losers, Deadlocked, Eligible, Publish;
    var cs := CountVote(Open(s.polls, matchId).candidates, who, claim);
    SlashEachHolders(s.books, s.self, s.config.admin.value, Losers(cs, claim));
  }

  lemma FirstVoteStake(s: State, who: Address, matchId: nat, claim: Claim, ms: nat, o: Address)
    requires Inv(s) && CastVote(s, who, matchId, claim, ms).Ok?
    requires matchId !in s.board.results && (matchId, who) !in s.polls.votes
    ensures var s' := CastVote(s, who, matchId, claim, ms).value;
      StakeOf(s', o) == StakeOf(s, o) -
        if matchId in s'.board.results && Dissents(s, matchId, claim, o) then StakeOf(s, o) / 10 else 0
  {
    AcceptedVote(s, who, matchId, claim, ms);
    var s' := CastVote(s, who, matchId, claim, ms).value;
    hide CastVote, Tally, Inv, Bill, CountVote, Backing, Listed;
    var s1 := s.(quotas := Bill(s.quotas, s.config, s.time, who, ms).value);
    if Dissents(s, matchId, claim, o) {
      DissentersRegistered(s, matchId, claim, o);
    }
    if matchId !in s'.board.results {
      OpenTallyKeepsBooks(s1, who, matchId, claim);
    } else if o in s.books.registrations {
      FinalisationPenalties(s, who, matchId, claim, ms, o);
      ListedBefore(Open(s.polls, matchId).candidates, who, claim, o);
    } else {
      TallyKeepsHolders(s1, who, matchId, claim);
    }
  }

  lemma VoteStake(s: State, who: Address, matchId: nat, claim: Claim, ms: nat, o: Address)
    requires Inv(s) && CastVote(s, who, matchId, claim, ms).Ok?
    ensures StakeOf(CastVote(s, who, matchId, claim, ms).value, o)
            == StakeOf(s, o) + StakeChange(s, Vote(who, matchId, claim, ms), o)
  {
    hide CastVote, Inv, Dissents;
    if matchId in s.board.results {
      LateVoteCost(s, who, matchId, claim, ms);
    } else if (matchId, who) in s.polls.votes {
      EquivocationCost(s, who, matchId, claim, ms);
    } else {
      FirstVoteStake(s, who, matchId, claim, ms, o);
    }
  }

  lemma ResolveStake(s: State, matchId: nat, claim: Claim, o: Address)
    requires Inv(s) && ResolveDisputed(s, matchId, claim).Ok?
    ensures StakeOf(ResolveDisputed(s, matchId, claim).value, o)
            == StakeOf(s, o) + StakeChange(s, Resolve(matchId, claim), o)
  {
    hide Inv, SlashEach, Losers, Publish;
    if Dissents(s, matchId, claim, o) {
      DissentersRegistered(s, matchId, claim, o);
    }
    if o in s.books.registrations {
      ResolutionPenalties(s, matchId, claim, o);
    } else {
      SlashEachHolders(s.books, s.self, s.config.admin.value, Losers(Open(s.polls, matchId).candidates, claim));
    }
  }

  lemma ExecuteStake(s: State, who: Address, matchId: nat)
    requires Inv(s) && Perform(s, Execute(who, matchId)).Ok?
    ensures (who, matchId) in s.books.pending && who in s.books.registrations
    ensures var s' := Perform(s, Execute(who, matchId)).value;
      && s'.books.registrations.Keys == s.books.registrations.Keys
      && StakeOf(s', who) == StakeOf(s, who) - Min(s.books.pending[(who, matchId)].amount, StakeOf(s, who))
      && forall o :: o in s.books.registrations && o != who ==>
           s'.books.registrations[o] == s.books.registrations[o]
  {
    hide Ballots;
    FinalizeSlashStep(s.books, s.self, s.config.admin.value, s.ledger, who, matchId);
  }

  /** Every stake moves by exactly that. */
  lemma StakeStep(s: State, op: Op, o: Address)
    requires Inv(s)
    ensures StakeOf(Step(s, op), o) == StakeOf(s, o) + StakeChange(s, op, o)
  {
    hide Inv, CastVote, ResolveDisputed, Dissents, Bill, SubmissionGate, CommitAll, BatchFault, Commit;
    if Perform(s, op).Ok? {
      match op
      case Vote(who, m, claim, ms) => VoteStake(s, who, m, claim, ms, o);
      case Resolve(m, claim) => ResolveStake(s, m, claim, o);
      case Execute(who, m) => ExecuteStake(s, who, m);
      case _ =>
    }
  }

  ghost function StakeFlow(trace: seq<State>, ops: seq<Op>, o: Address, i: nat, j: nat): int
    requires |trace| == |ops| + 1 && i <= j < |trace|
  {
    if i == j then 0 else StakeFlow(trace, ops, o, i, j - 1) + StakeChange(trace[j - 1], ops[j - 1], o)
  }

  /** Over every run a stake is what it was, plus what the oracle added, less the penalties listed in
      StakeChange, and nothing else. */
  lemma {:induction false} StakeLedger(trace: seq<State>, ops: seq<Op>, o: Address, i: nat, j: nat)
    requires Run(trace, ops) && Inv(trace[0]) && i <= j < |trace|
    ensures StakeOf(trace[j], o) == StakeOf(trace[i], o) + StakeFlow(trace, ops, o, i, j)
  {
    hide Inv, Perform, StakeChange;
    if i < j {
      StakeLedger(trace, ops, o, i, j - 1);
      RunKeeps(trace, ops, j - 1);
      StakeStep(trace[j - 1], ops[j - 1], o);
    }
  }

  /** `op` gives no ground to penalise `o`: no staged slash of it falls due, it does not vote on a
      match that is published or that it has voted on, and no match it voted on is decided against
      its recorded vote. */
  ghost predicate Blameless(s: State, op: Op, o: Address) {
    match op
    case Execute(who, _) => who != o
    case Vote(who, m, claim, _) =>
      && (who == o ==> m !in s.board.results && (m, o) !in s.polls.votes)
      && (m !in s.board.results && m in Step(s, op).board.results ==> !Disagrees(s, m, claim, o))
    case Resolve(m, claim) => !Disagrees(s, m, claim, o)
    case _ => true
  }

  lemma BlamelessStep(s: State, op: Op, o: Address)
    requires Inv(s) && Blameless(s, op, o)
    ensures StakeChange(s, op, o) >= 0
  {
    hide Inv, Dissents, CastVote, ResolveDisputed;
    match op
    case Vote(_, m, claim, _) =>
      if Dissents(s, m, claim, o) { DissentersRegistered(s, m, claim, o); }
    case Resolve(m, claim) =>
      if Dissents(s, m, claim, o) { DissentersRegistered(s, m, claim, o); }
    case Register(_, _, _) =>
    case _ =>
  }

  /** An oracle that keeps to its votes, and whose votes agree with what is decided, keeps its stake. */
  lemma {:induction false} BlamelessKeepsStake(trace: seq<State>, ops: seq<Op>, o: Address, i: nat, j: nat)
    requires Run(trace, ops) && Inv(trace[0]) && i <= j < |trace|
    requires forall k :: i <= k < j ==> Blameless(trace[k], ops[k], o)
    ensures StakeOf(trace[j], o) >= StakeOf(trace[i], o)
  {
    hide Inv, Perform, StakeChange, Blameless;
    if i < j {
      BlamelessKeepsStake(trace, ops, o, i, j - 1);
      RunKeeps(trace, ops, j - 1);
      StakeStep(trace[j - 1], ops[j - 1], o);
      BlamelessStep(trace[j - 1], ops[j - 1], o);
    }
  }
}
