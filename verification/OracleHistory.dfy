/** Where the records of a run come from: each account's balance, each staged slash, each published
    result and each cached answer traced to the transactions behind it. */
module OracleHistory {
  import opened Prelude
  import opened OracleModel
  import opened OracleInvariants
  import opened OracleRuns
  import opened OracleStakes

  // ----- accounts

  /** Tokens move between `self` and `admin` only. */
  ghost predicate Between(b: Balances, b': Balances, self: Address, admin: Address) {
    && (forall t: Address, a: Address :: a != self && a != admin ==> BalanceOf(b', t, a) == BalanceOf(b, t, a))
    && (forall t: Address ::
          BalanceOf(b', t, self) + BalanceOf(b', t, admin) == BalanceOf(b, t, self) + BalanceOf(b, t, admin))
  }

  lemma SlashBetween(b: Books, self: Address, admin: Address, who: Address, bps: int)
    requires Funded(b, self) && admin != self && 0 <= bps <= 10_000
    ensures Between(b.balances, Slash(b, self, admin, who, bps).balances, self, admin)
  {
    hide BalanceOf;
    if who in b.registrations && b.registrations[who].stake > 0 {
      SlashMoves(b, self, admin, who, bps);
    }
  }

  lemma {:induction false} SlashEachBetween(b: Books, self: Address, admin: Address, whos: seq<Address>)
    requires Funded(b, self) && admin != self
    ensures Between(b.balances, SlashEach(b, self, admin, whos).balances, self, admin)
    decreases |whos|
  {
    hide BalanceOf, Funded, Slash;
    if whos != [] {
      var init := whos[..|whos| - 1];
      SlashEachBetween(b, self, admin, init);
      SlashEachConserves(b, self, admin, init);
      SlashBetween(SlashEach(b, self, admin, init), self, admin, whos[|whos| - 1], MINORITY_BPS);
    }
  }

  lemma TallyBetween(s: State, who: Address, matchId: nat, claim: Claim)
    requires Inv(s) && s.config.admin.Some?
    ensures Between(s.books.balances, Tally(s, who, matchId, claim).books.balances, s.self, s.config.admin.value)
  {
    hide CountVote, Backing, SlashEach, LogEach, Losers, Deadlocked, Eligible, Publish, BalanceOf, Funded;
    SlashEachBetween(s.books, s.self, s.config.admin.value,
      Losers(CountVote(Open(s.polls, matchId).candidates, who, claim), claim));
  }

  lemma VoteBetween(s: State, who: Address, matchId: nat, claim: Claim, ms: nat)
    requires Inv(s) && CastVote(s, who, matchId, claim, ms).Ok?
    ensures s.config.admin.Some?
    ensures var s' := CastVote(s, who, matchId, claim, ms).value;
      Between(s.books.balances, s'.books.balances, s.self, s.config.admin.value)
  {
    hide Tally, Bill, Slash, Between, Funded, Ballots;
    SlashBetween(s.books, s.self, s.config.admin.value, who, MINORITY_BPS);
    SlashBetween(s.books, s.self, s.config.admin.value, who, EQUIVOCATION_BPS);
    if Bill(s.quotas, s.config, s.time, who, ms).Ok? {
      TallyBetween(s.(quotas := Bill(s.quotas, s.config, s.time, who, ms).value), who, matchId, claim);
    }
  }

  lemma ExecuteBetween(s: State, who: Address, matchId: nat)
    requires Inv(s) && Perform(s, Execute(who, matchId)).Ok?
    ensures s.config.admin.Some?
    ensures var s' := Perform(s, Execute(who, matchId)).value;
      Between(s.books.balances, s'.books.balances, s.self, s.config.admin.value)
  {
    hide Ballots, BalanceOf;
    var b1 := s.books.(pending := Without(s.books.pending, (who, matchId)));
    PendingStep(s.books, b1, s.self);
    var amount := Min(s.books.pending[(who, matchId)].amount, s.books.registrations[who].stake);
    SeizeMoves(b1, s.self, s.config.admin.value, who, amount);
  }

  /** What an accepted transaction other than an outside transfer brings an account: a registration
      costs the registering oracle its amount, and what the stakes in a token lose goes to the admin. */
  ghost function Income(s: State, op: Op, t: Address, a: Address): int {
    match op
    case Register(who, amount, token) =>
      if Perform(s, op).Ok? && a == who && t == token then -amount else 0
    case _ =>
      if Some(a) != s.config.admin then 0
      else MapSum(StakesIn(s.books.registrations, t)) - MapSum(StakesIn(Step(s, op).books.registrations, t))
  }

  lemma BetweenIncome(s: State, op: Op, t: Address, a: Address)
    requires Inv(s) && Legal(s, op) && a != s.self && !op.Register?
    requires s.config.admin.Some?
    requires Between(s.books.balances, Step(s, op).books.balances, s.self, s.config.admin.value)
    ensures BalanceOf(Step(s, op).books.balances, t, a) == BalanceOf(s.books.balances, t, a) + Income(s, op, t, a)
  {
    StepKeeps(s, op);
    hide Perform, Step, BalanceOf, Inv;
    assert Surplus(Step(s, op).books, s.self, t) == Surplus(s.books, s.self, t);
  }

  lemma SilentStep(s: State, op: Op)
    requires !op.Register? && !op.Execute? && !op.Vote? && !op.Resolve? && !op.Outside?
    ensures Step(s, op).books == s.books.(pending := Step(s, op).books.pending)
  {
    hide Bill, SubmissionGate, CommitAll, BatchFault, Commit;
  }

  /** Nobody but the registering oracle pays, and nobody but the admin receives. */
  lemma AccountStep(s: State, op: Op, t: Address, a: Address)
    requires Inv(s) && Legal(s, op) && a != s.self && !op.Outside?
    ensures BalanceOf(Step(s, op).books.balances, t, a) == BalanceOf(s.books.balances, t, a) + Income(s, op, t, a)
  {
    hide Inv, CastVote, ResolveDisputed, Between, FinalizeSlash, Bill, StakesIn;
    if Perform(s, op).Ok? {
      match op
      case Register(_, _, _) =>
      case Execute(who, m) => ExecuteBetween(s, who, m); BetweenIncome(s, op, t, a);
      case Vote(who, m, claim, ms) => VoteBetween(s, who, m, claim, ms); BetweenIncome(s, op, t, a);
      case Resolve(m, claim) => ResolveBetween(s, m, claim); BetweenIncome(s, op, t, a);
      case _ => SilentStep(s, op);
    }
  }

  lemma ResolveBetween(s: State, matchId: nat, claim: Claim)
    requires Inv(s) && ResolveDisputed(s, matchId, claim).Ok?
    ensures s.config.admin.Some?
    ensures var s' := ResolveDisputed(s, matchId, claim).value;
      Between(s.books.balances, s'.books.balances, s.self, s.config.admin.value)
  {
    hide Publish, Losers, SlashEach, Between, Funded, Ballots;
    SlashEachBetween(s.books, s.self, s.config.admin.value, Losers(Open(s.polls, matchId).candidates, claim));
  }

  // ----- staged slashes

  /** An accepted transaction about the staged slash of `who` over match `m`. */
  ghost predicate Handles(s: State, op: Op, who: Address, m: nat) {
    && (op == Execute(who, m) || op == Withdraw(who, m) || (op.Stage? && op.who == who && op.matchId == m))
    && Perform(s, op).Ok?
  }

  ghost predicate StagedBy(s: State, op: Op, who: Address, m: nat, p: PendingSlash) {
    && op.Stage? && Handles(s, op, who, m) && who in s.books.registrations && 0 < op.amount <= StakeOf(s, who)
    && p == PendingSlash(op.amount, s.books.registrations[who].token, s.ledger, SatAdd32(s.ledger, s.config.grace))
  }

  lemma StagingStep(s: State, op: Op, who: Address, m: nat)
    ensures var k, s' := (who, m), Step(s, op);
      && (k in s'.books.pending ==>
            || (k in s.books.pending && s'.books.pending[k] == s.books.pending[k])
            || (k !in s.books.pending && StagedBy(s, op, who, m, s'.books.pending[k])))
      && (Handles(s, op, who, m) ==> (k in s'.books.pending <==> op.Stage?))
  {
    hide Bill, SubmissionGate, CommitAll, BatchFault, Commit, CastVote, ResolveDisputed;
    if Perform(s, op).Ok? {
      match op
      case Vote(w, n, claim, ms) => VoteKeepsPending(s, w, n, claim, ms);
      case Resolve(n, claim) => ResolveKeepsPending(s, n, claim);
      case _ =>
    }
  }

  lemma VoteKeepsPending(s: State, who: Address, matchId: nat, claim: Claim, ms: nat)
    requires CastVote(s, who, matchId, claim, ms).Ok?
    ensures CastVote(s, who, matchId, claim, ms).value.books.pending == s.books.pending
  {
    hide Bill, CountVote, Backing, SlashEach, LogEach, Losers, Deadlocked, Eligible, Publish;
    SlashEachHolders(s.books, s.self, s.config.admin.value,
      Losers(CountVote(Open(s.polls, matchId).candidates, who, claim), claim));
  }

  lemma ResolveKeepsPending(s: State, matchId: nat, claim: Claim)
    requires ResolveDisputed(s, matchId, claim).Ok?
    ensures ResolveDisputed(s, matchId, claim).value.books.pending == s.books.pending
  {
    hide SlashEach, Losers, Publish;
    SlashEachHolders(s.books, s.self, s.config.admin.value, Losers(Open(s.polls, matchId).candidates, claim));
  }

  /** Every staged slash of a run was staged in it, and not handled since. */
  lemma {:induction false} StagedTraced(trace: seq<State>, ops: seq<Op>, who: Address, m: nat, n: nat) returns (i: nat)
    requires Run(trace, ops) && n < |trace| && (who, m) !in trace[0].books.pending
    requires (who, m) in trace[n].books.pending
    ensures i < n && StagedBy(trace[i], ops[i], who, m, trace[n].books.pending[(who, m)])
    ensures forall k :: i < k < n ==> !Handles(trace[k], ops[k], who, m)
  {
    hide Perform, Handles, StagedBy;
    StagingStep(trace[n - 1], ops[n - 1], who, m);
    if (who, m) in trace[n - 1].books.pending {
      i := StagedTraced(trace, ops, who, m, n - 1);
      assert !Handles(trace[n - 1], ops[n - 1], who, m) by { Restaged(trace[n - 1], ops[n - 1], who, m); }
    } else {
      i := n - 1;
    }
  }

  lemma Restaged(s: State, op: Op, who: Address, m: nat)
    requires (who, m) in s.books.pending && (who, m) in Step(s, op).books.pending
    ensures !Handles(s, op, who, m)
  {
    hide CastVote, ResolveDisputed, SubmitResult, SubmitBatch;
  }

  /** A staged slash can be executed exactly from its ledger of eligibility on. */
  lemma ExecutableExactly(s: State, who: Address, m: nat)
    requires Inv(s)
    ensures Perform(s, Execute(who, m)).Ok? <==>
      && s.config.admin.Some? && (who, m) in s.books.pending
      && s.ledger >= s.books.pending[(who, m)].eligible
  {
    hide Funded, Ballots;
  }

  /** In every run an executed slash was staged before, its grace period as set then has run out (or
      the ledger counter is at its ceiling), nothing happened to it in between, and it takes the staged
      amount or the whole stake, whichever is less. */
  lemma ExecutedAfterGrace(trace: seq<State>, ops: seq<Op>, who: Address, m: nat, n: nat) returns (i: nat)
    requires Run(trace, ops) && Inv(trace[0]) && (who, m) !in trace[0].books.pending && n < |ops|
    requires ops[n] == Execute(who, m) && Perform(trace[n], ops[n]).Ok?
    ensures i < n && ops[i].Stage? && Handles(trace[i], ops[i], who, m)
    ensures 0 < ops[i].amount <= StakeOf(trace[i], who)
    ensures trace[n].ledger >= Min(trace[i].ledger + trace[i].config.grace, U32_MAX)
    ensures forall k :: i < k < n ==> !Handles(trace[k], ops[k], who, m)
    ensures StakeOf(trace[n + 1], who) == StakeOf(trace[n], who) - Min(ops[i].amount, StakeOf(trace[n], who))
    ensures (who, m) !in trace[n + 1].books.pending
  {
    RunKeeps(trace, ops, n);
    ExecutableExactly(trace[n], who, m);
    ExecuteStake(trace[n], who, m);
    StagingStep(trace[n], ops[n], who, m);
    hide Perform, Inv;
    i := StagedTraced(trace, ops, who, m, n);
  }
}
