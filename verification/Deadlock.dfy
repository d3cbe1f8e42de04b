/** The deadlock flag of a tally is exact: it is raised precisely when no further votes can help. */
module Deadlock {
  import opened Prelude
  import opened OracleModel
  import opened OracleInvariants
  import opened OracleRuns

  datatype Ballot = Ballot(who: Address, claim: Claim)

  /** One vote each from distinct oracles of `voters`, for any claims at all. */
  ghost predicate Castable(ballots: seq<Ballot>, voters: set<Address>) {
    && (forall i, j :: 0 <= i < j < |ballots| ==> ballots[i].who != ballots[j].who)
    && (forall i :: 0 <= i < |ballots| ==> ballots[i].who in voters)
  }

  function CountAll(cs: seq<Candidate>, ballots: seq<Ballot>): seq<Candidate> {
    if ballots == [] then cs
    else
      var b := ballots[|ballots| - 1];
      CountVote(CountAll(cs, ballots[..|ballots| - 1]), b.who, b.claim)
  }

  ghost predicate Reached(cs: seq<Candidate>, threshold: nat) {
    exists k :: 0 <= k < |cs| && |cs[k].submitters| >= threshold
  }

  /** Distinct, non-empty candidates: what every stored tally satisfies. */
  ghost predicate WellFormed(cs: seq<Candidate>) {
    && cs != []
    && (forall i, j :: 0 <= i < j < |cs| ==> cs[i].claim != cs[j].claim)
    && (forall i :: 0 <= i < |cs| ==> cs[i].submitters != [])
  }

  lemma CastableSize(ballots: seq<Ballot>, voters: set<Address>)
    requires Castable(ballots, voters)
    ensures |ballots| <= |voters|
  {
    var whos := seq(|ballots|, i requires 0 <= i < |ballots| => ballots[i].who);
    NoDupSize(whos);
    SubsetSize(Elems(whos), voters);
  }

  lemma {:induction false} CountAllBound(cs: seq<Candidate>, ballots: seq<Ballot>, bound: nat)
    requires forall k :: 0 <= k < |cs| ==> |cs[k].submitters| <= bound
    ensures forall k :: 0 <= k < |CountAll(cs, ballots)| ==> |CountAll(cs, ballots)[k].submitters| <= bound + |ballots|
    decreases |ballots|
  {
    if ballots != [] {
      CountAllBound(cs, ballots[..|ballots| - 1], bound);
    }
  }

  lemma {:induction false} CountAllBacking(cs: seq<Candidate>, whos: seq<Address>, claim: Claim)
    ensures |Backing(CountAll(cs, AllFor(whos, claim)), claim)| == |Backing(cs, claim)| + |whos|
    decreases |whos|
  {
    if whos != [] {
      var init, last := whos[..|whos| - 1], whos[|whos| - 1];
      CountAllBacking(cs, init, claim);
      assert AllFor(whos, claim)[..|whos| - 1] == AllFor(init, claim);
      CountVoteBacking(CountAll(cs, AllFor(init, claim)), last, claim);
    }
  }

  ghost function AllFor(whos: seq<Address>, claim: Claim): (bs: seq<Ballot>)
    ensures |bs| == |whos| && forall i :: 0 <= i < |whos| ==> bs[i] == Ballot(whos[i], claim)
  {
    seq(|whos|, i requires 0 <= i < |whos| => Ballot(whos[i], claim))
  }

  /** The flag is raised if and only if no votes of the remaining oracles, for existing or brand-new
      claims, bring any candidate to the threshold. */
  lemma DeadlockExact(cs: seq<Candidate>, voters: set<Address>, threshold: nat)
    requires WellFormed(cs)
    ensures Deadlocked(cs, |voters|, threshold) <==>
      forall ballots: seq<Ballot> :: Castable(ballots, voters) ==> !Reached(CountAll(cs, ballots), threshold)
  {
    if Deadlocked(cs, |voters|, threshold) {
      assert |cs[0].submitters| + |voters| < threshold;
      forall ballots: seq<Ballot> | Castable(ballots, voters)
        ensures !Reached(CountAll(cs, ballots), threshold)
      {
        CastableSize(ballots, voters);
        CountAllBound(cs, ballots, threshold - |voters| - 1);
      }
    } else {
      var k :| 0 <= k < |cs| && |cs[k].submitters| + |voters| >= threshold;
      var claim := cs[k].claim;
      var whos := Listing(voters);
      var ballots := AllFor(whos, claim);
      CountAllBacking(cs, whos, claim);
      PositionUnique(cs, claim, k);
      var all := CountAll(cs, ballots);
      assert |all[Position(all, claim)].submitters| >= threshold;
      assert Reached(all, threshold) && Castable(ballots, voters);
    }
  }

  lemma TallyFlag(s: State, who: Address, matchId: nat, claim: Claim)
    requires Inv(s) && s.config.admin.Some? && who in s.books.registrations && (matchId, who) !in s.polls.votes
    requires |Backing(CountVote(Open(s.polls, matchId).candidates, who, claim), claim)| < s.config.threshold
    ensures var s' := Tally(s, who, matchId, claim);
      var voters := Eligible(s'.books.registrations, s'.polls.votes, matchId);
      && matchId in s'.polls.consensus
      && (s'.polls.consensus[matchId].disputed <==>
            forall ballots: seq<Ballot> :: Castable(ballots, voters) ==>
              !Reached(CountAll(s'.polls.consensus[matchId].candidates, ballots), s.config.threshold))
  {
    hide CountVote, Backing;
    var s' := Tally(s, who, matchId, claim);
    var cs := CountVote(Open(s.polls, matchId).candidates, who, claim);
    CountVoteOk(Open(s.polls, matchId).candidates, s.polls.votes, matchId, who, claim);
    assert WellFormed(cs) by { CountVoteNonEmpty(Open(s.polls, matchId).candidates, who, claim); }
    DeadlockExact(cs, Eligible(s'.books.registrations, s'.polls.votes, matchId), s.config.threshold);
  }

  lemma CountVoteNonEmpty(cs: seq<Candidate>, who: Address, claim: Claim)
    ensures CountVote(cs, who, claim) != []
  {
  }

  /** What an accepted first vote that does not finalise leaves behind: the stored flag is exact for
      the oracles still eligible after the vote. */
  lemma VoteFlagExact(s: State, who: Address, matchId: nat, claim: Claim, ms: nat)
    requires Inv(s) && matchId !in s.board.results && (matchId, who) !in s.polls.votes
    requires CastVote(s, who, matchId, claim, ms).Ok?
    requires matchId !in CastVote(s, who, matchId, claim, ms).value.board.results
    ensures var s' := CastVote(s, who, matchId, claim, ms).value;
      var voters := Eligible(s'.books.registrations, s'.polls.votes, matchId);
      && matchId in s'.polls.consensus
      && (s'.polls.consensus[matchId].disputed <==>
            forall ballots: seq<Ballot> :: Castable(ballots, voters) ==>
              !Reached(CountAll(s'.polls.consensus[matchId].candidates, ballots), s.config.threshold))
  {
    AcceptedVote(s, who, matchId, claim, ms);
    var s1 := s.(quotas := Bill(s.quotas, s.config, s.time, who, ms).value);
    hide CastVote, Bill, Inv, CountVote, Backing, Eligible;
    assert |Backing(CountVote(Open(s.polls, matchId).candidates, who, claim), claim)| < s.config.threshold by {
      if |Backing(CountVote(Open(s1.polls, matchId).candidates, who, claim), claim)| >= s.config.threshold {
        TallyRecord(s1, who, matchId, claim, who);
      }
    }
    TallyFlag(s1, who, matchId, claim);
  }
}
