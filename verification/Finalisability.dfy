/** When the votes still possible on an open match can make the contract publish a result. */
module Finalisability {
  import opened Prelude
  import opened OracleModel
  import opened OracleInvariants
  import opened OracleRuns
  import opened EligibilityCache
  import opened RateLimiter
  import M = Metrics

  datatype Cast = Cast(who: Address, claim: Claim, ms: nat)

  /** Votes on one match in order, as the contract takes them; an error stops them. */
  function VoteAll(s: State, matchId: nat, casts: seq<Cast>): Option<State>
    decreases |casts|
  {
    if casts == [] then Some(s)
    else
      var r := CastVote(s, casts[0].who, matchId, casts[0].claim, casts[0].ms);
      if r.Err? then None else VoteAll(r.value, matchId, casts[1..])
  }

  lemma VoteThenRest(s: State, matchId: nat, c: Cast, rest: seq<Cast>)
    requires CastVote(s, c.who, matchId, c.claim, c.ms).Ok?
    ensures VoteAll(s, matchId, [c] + rest) == VoteAll(CastVote(s, c.who, matchId, c.claim, c.ms).value, matchId, rest)
  {
    hide CastVote;
    assert ([c] + rest)[1..] == rest;
  }

  ghost predicate Publishes(s: State, matchId: nat, casts: seq<Cast>, claim: Claim) {
    var r := VoteAll(s, matchId, casts);
    r.Some? && matchId in r.value.board.results && r.value.board.results[matchId].claim == claim
  }

  /** Some sequence of votes, none of them refused, ends with `claim` published. */
  ghost predicate Finalisable(s: State, matchId: nat, claim: Claim) {
    exists casts: seq<Cast> :: Publishes(s, matchId, casts, claim)
  }

  function Support(s: State, matchId: nat, claim: Claim): nat {
    |Backing(Open(s.polls, matchId).candidates, claim)|
  }

  function Voters(s: State, matchId: nat): set<Address> {
    Eligible(s.books.registrations, s.polls.votes, matchId)
  }

  // ----- one vote

  /** Votes on a finished match change no result. */
  lemma {:induction false} ResultStays(s: State, matchId: nat, casts: seq<Cast>)
    requires matchId in s.board.results && VoteAll(s, matchId, casts).Some?
    ensures VoteAll(s, matchId, casts).value.board == s.board
    decreases |casts|
  {
    if casts != [] {
      hide Slash, Bill, Tally;
      ResultStays(CastVote(s, casts[0].who, matchId, casts[0].claim, casts[0].ms).value, matchId, casts[1..]);
    }
  }

  /** What a first vote does: it publishes its own claim, or adds one to that claim's support and takes
      its oracle from the voters. */
  lemma FirstVote(s: State, matchId: nat, c: Cast)
    requires Inv(s) && matchId !in s.board.results && (matchId, c.who) !in s.polls.votes
    requires CastVote(s, c.who, matchId, c.claim, c.ms).Ok?
    ensures var s' := CastVote(s, c.who, matchId, c.claim, c.ms).value;
      && c.who in Voters(s, matchId) && Inv(s') && s'.config == s.config && s'.time == s.time
      && Bill(s.quotas, s.config, s.time, c.who, c.ms) == Ok(s'.quotas)
      && (matchId in s'.board.results <==> Support(s, matchId, c.claim) + 1 >= s.config.threshold)
      && (matchId in s'.board.results ==> s'.board.results[matchId].claim == c.claim)
      && (matchId !in s'.board.results ==>
            && s'.books == s.books
            && Voters(s', matchId) == Voters(s, matchId) - {c.who}
            && (Open(s'.polls, matchId).disputed <==>
                  Deadlocked(Open(s'.polls, matchId).candidates, |Voters(s', matchId)|, s.config.threshold))
            && Open(s'.polls, matchId).candidates == CountVote(Open(s.polls, matchId).candidates, c.who, c.claim))
  {
    AcceptedVote(s, c.who, matchId, c.claim, c.ms);
    VoteKeeps(s, c.who, matchId, c.claim, c.ms);
    CountVoteBacking(Open(s.polls, matchId).candidates, c.who, c.claim);
    var s1 := s.(quotas := Bill(s.quotas, s.config, s.time, c.who, c.ms).value);
    TallyShape(s1, c.who, matchId, c.claim);
    hide CastVote, Bill, Inv, Keeps, CountVote, Backing, Eligible, Tally, Deadlocked;
    assert c.who in Eligible(s.books.registrations, s.polls.votes, matchId) by {
      EligibleIntro(s, matchId, c.who);
    }
    VoteShrinksEligible(s.books.registrations, s.polls.votes, matchId, c.who, c.claim);
  }

  lemma EligibleIntro(s: State, matchId: nat, who: Address)
    requires HasStake(s.books.registrations, who) && (matchId, who) !in s.polls.votes
    ensures who in Eligible(s.books.registrations, s.polls.votes, matchId)
  {
  }

  lemma TallyShape(s: State, who: Address, matchId: nat, claim: Claim)
    requires s.config.admin.Some? && matchId !in s.board.results
    ensures var s' := Tally(s, who, matchId, claim);
      var cs := CountVote(Open(s.polls, matchId).candidates, who, claim);
      var votes := s.polls.votes[(matchId, who) := claim];
      && s'.config == s.config && s'.time == s.time && s'.quotas == s.quotas
      && (matchId in s'.board.results <==> |Backing(cs, claim)| >= s.config.threshold)
      && (matchId in s'.board.results ==> s'.board.results[matchId].claim == claim)
      && (matchId !in s'.board.results ==>
            && s'.books == s.books && s'.polls.votes == votes
            && Open(s'.polls, matchId) ==
                 Consensus(cs, Deadlocked(cs, |Eligible(s.books.registrations, votes, matchId)|, s.config.threshold)))
  {
    hide CountVote, Backing, SlashEach, Losers, LogEach, Eligible, Deadlocked;
    var cs := CountVote(Open(s.polls, matchId).candidates, who, claim);
    var e := Entry(matchId, claim, None);
    LogEachFrame(Publish(s.board, e, who, s.ledger, s.time), Backing(cs, claim), e, s.ledger);
  }

  /** A vote raises the support of its own claim by one and of no other claim. */
  lemma SupportGrows(cs: seq<Candidate>, who: Address, voted: Claim, claim: Claim)
    ensures |Backing(CountVote(cs, who, voted), claim)| == |Backing(cs, claim)| + if voted == claim then 1 else 0
  {
    hide Position;
    CountVoteBacking(cs, who, voted);
    if voted != claim {
      var cs', p := CountVote(cs, who, voted), Position(cs, claim);
      if p < |cs| {
        PositionUnique(cs', claim, p);
      } else {
        PositionUnique(cs', claim, |cs'|);
      }
    }
  }

  /** A repeated vote for another claim costs the stake of an oracle that has voted; the tally and the
      voters stay. */
  lemma Equivocation(s: State, matchId: nat, c: Cast)
    requires Inv(s) && matchId !in s.board.results && (matchId, c.who) in s.polls.votes
    requires CastVote(s, c.who, matchId, c.claim, c.ms).Ok?
    ensures var s' := CastVote(s, c.who, matchId, c.claim, c.ms).value;
      && Inv(s') && s'.config == s.config && s'.board == s.board && s'.polls == s.polls
      && Voters(s', matchId) == Voters(s, matchId)
  {
    VoteKeeps(s, c.who, matchId, c.claim, c.ms);
    var s' := CastVote(s, c.who, matchId, c.claim, c.ms).value;
    forall o
      ensures o in Voters(s', matchId) <==> o in Voters(s, matchId)
    {
      assert o != c.who ==> Get(s'.books.registrations, o) == Get(s.books.registrations, o);
    }
  }

  // ----- necessity

  /** However the votes go, a claim is published only if its support and the voters together reach the
      threshold and there is a voter left to complete the quorum. */
  lemma {:induction false} PublishingNeeds(s: State, matchId: nat, casts: seq<Cast>, claim: Claim)
    requires Inv(s) && matchId !in s.board.results && Publishes(s, matchId, casts, claim)
    ensures Voters(s, matchId) != {} && Support(s, matchId, claim) + |Voters(s, matchId)| >= s.config.threshold
    decreases |casts|
  {
    hide CastVote, Inv, Eligible, CountVote, Backing, Deadlocked;
    var c := casts[0];
    var s' := CastVote(s, c.who, matchId, c.claim, c.ms).value;
    if (matchId, c.who) in s.polls.votes {
      Equivocation(s, matchId, c);
      PublishingNeeds(s', matchId, casts[1..], claim);
    } else {
      FirstVote(s, matchId, c);
      if matchId in s'.board.results {
        ResultStays(s', matchId, casts[1..]);
      } else {
        PublishingNeeds(s', matchId, casts[1..], claim);
        SupportGrows(Open(s.polls, matchId).candidates, c.who, c.claim, claim);
      }
    }
  }

  // ----- sufficiency

  /** The contract takes votes, and every voter has quota left for one. */
  ghost predicate TakesVotes(s: State, matchId: nat) {
    && !s.config.paused && s.config.admin.Some?
    && matchId !in s.board.results && !Open(s.polls, matchId).disputed
    && forall o :: o in Voters(s, matchId) ==> Bill(s.quotas, s.config, s.time, o, 0).Ok?
  }

  lemma VoteIsTaken(s: State, matchId: nat, who: Address, claim: Claim)
    requires TakesVotes(s, matchId) && who in Voters(s, matchId) && claim.game != ""
    ensures (matchId, who) !in s.polls.votes && CastVote(s, who, matchId, claim, 0).Ok?
  {
    hide Bill, Tally, Slash;
  }

  /** Billing one oracle leaves the others' quota alone. */
  lemma BillElsewhere(q: Quotas, config: Config, time: nat, who: Address, o: Address)
    requires Bill(q, config, time, who, 0).Ok? && o != who && Bill(q, config, time, o, 0).Ok?
    ensures Bill(Bill(q, config, time, who, 0).value, config, time, o, 0).Ok?
  {
    hide Admit, M.Record;
  }

  lemma NotDeadlocked(cs: seq<Candidate>, claim: Claim, remaining: nat, threshold: nat)
    requires Backing(cs, claim) != [] && |Backing(cs, claim)| + remaining >= threshold
    ensures !Deadlocked(cs, remaining, threshold)
  {
    hide Position;
    assert |cs[Position(cs, claim)].submitters| + remaining >= threshold;
  }

  /** With enough voters left, their votes for the claim publish it, without a deadlock on the way. */
  lemma {:induction false} EnoughVoters(s: State, matchId: nat, claim: Claim) returns (casts: seq<Cast>)
    requires Inv(s) && TakesVotes(s, matchId) && claim.game != ""
    requires Voters(s, matchId) != {} && Support(s, matchId, claim) + |Voters(s, matchId)| >= s.config.threshold
    ensures Publishes(s, matchId, casts, claim)
    decreases |Voters(s, matchId)|
  {
    hide CastVote, Inv, Eligible, CountVote, Backing, Deadlocked, Bill;
    var who :| who in Voters(s, matchId);
    var c := Cast(who, claim, 0);
    VoteIsTaken(s, matchId, who, claim);
    FirstVote(s, matchId, c);
    var s' := CastVote(s, who, matchId, claim, 0).value;
    var rest: seq<Cast> := [];
    if matchId !in s'.board.results {
      var cs := Open(s.polls, matchId).candidates;
      CountVoteBacking(cs, who, claim);
      NotDeadlocked(CountVote(cs, who, claim), claim, |Voters(s', matchId)|, s.config.threshold);
      forall o | o in Voters(s', matchId)
        ensures Bill(s'.quotas, s'.config, s'.time, o, 0).Ok?
      {
        BillElsewhere(s.quotas, s.config, s.time, who, o);
      }
      rest := EnoughVoters(s', matchId, claim);
    }
    casts := [c] + rest;
    VoteThenRest(s, matchId, c, rest);
  }

  /** While the contract takes votes, a claim can still be published exactly when there is a voter left
      and its support together with all voters reaches the threshold. */
  lemma FinalisableExactly(s: State, matchId: nat, claim: Claim)
    requires Inv(s) && TakesVotes(s, matchId) && claim.game != ""
    ensures Finalisable(s, matchId, claim) <==>
      Voters(s, matchId) != {} && Support(s, matchId, claim) + |Voters(s, matchId)| >= s.config.threshold
  {
    hide Inv, Voters, Support, Publishes;
    if Finalisable(s, matchId, claim) {
      var casts: seq<Cast> :| Publishes(s, matchId, casts, claim);
      PublishingNeeds(s, matchId, casts, claim);
    }
    if Voters(s, matchId) != {} && Support(s, matchId, claim) + |Voters(s, matchId)| >= s.config.threshold {
      var casts := EnoughVoters(s, matchId, claim);
    }
  }

  // ----- the stored flag

  /** Every candidate names a game. */
  ghost predicate Named(p: Polls) {
    forall m, k :: m in p.consensus && 0 <= k < |p.consensus[m].candidates| ==>
      p.consensus[m].candidates[k].claim.game != ""
  }

  lemma StepKeepsNamed(s: State, op: Op)
    requires Named(s.polls)
    ensures Named(Step(s, op).polls)
  {
    hide Bill, Slash, SlashEach, Losers, LogEach, Publish, Backing, Eligible, Deadlocked, Position, RegisterOracle,
      StageSlash,
      FinalizeSlash, CancelSlash, BatchFault, Commit, CommitAll, Charge, Transfer;
  }

  /** A tally that is not deadlocked and has voters left can still be finalised, for a claim that has
      support already, by votes the contract takes. */
  lemma UnflaggedCanFinalise(s: State, matchId: nat) returns (claim: Claim)
    requires Inv(s) && Named(s.polls) && TakesVotes(s, matchId) && matchId in s.polls.consensus
    requires !Deadlocked(s.polls.consensus[matchId].candidates, |Voters(s, matchId)|, s.config.threshold)
    requires Voters(s, matchId) != {}
    ensures Support(s, matchId, claim) > 0 && Finalisable(s, matchId, claim)
  {
    hide Eligible, TakesVotes, BooksOk;
    var cs := s.polls.consensus[matchId].candidates;
    var k :| 0 <= k < |cs| && |cs[k].submitters| + |Voters(s, matchId)| >= s.config.threshold;
    claim := cs[k].claim;
    assert TallyOk(cs, s.polls.votes, matchId);
    PositionUnique(cs, claim, k);
    FinalisableExactly(s, matchId, claim);
  }
}
