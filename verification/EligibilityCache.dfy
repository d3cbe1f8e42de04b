/** The versioned count of oracles still able to vote on a match, and why it equals the scan. */
module EligibilityCache {
  import opened Prelude
  import opened OracleModel

  /** A cached count and the eligibility version it was taken at. */
  datatype VoteTally = VoteTally(remaining: nat, version: nat)

  /** Below the version ceiling, a tally that carries the current version holds the scanned count. */
  ghost predicate CacheOk(version: nat, tallies: map<nat, VoteTally>, regs: Registrations, votes: Votes) {
    && version <= U32_MAX
    && forall m :: m in tallies ==>
         && tallies[m].version <= version
         && (tallies[m].version == version < U32_MAX ==> tallies[m].remaining == |Eligible(regs, votes, m)|)
  }

  predicate HasStake(regs: Registrations, o: Address) {
    o in regs && regs[o].stake > 0
  }

  /** A change of stakes the version follows: either nobody gained or lost eligibility or the version
      moved on. At the ceiling the version cannot follow any more. */
  ghost predicate Tracked(v: nat, regs: Registrations, v': nat, regs': Registrations) {
    && v <= v' <= U32_MAX
    && (v == v' < U32_MAX ==> forall o: Address :: HasStake(regs, o) <==> HasStake(regs', o))
  }

  lemma TrackedKeepsCache(v: nat, regs: Registrations, v': nat, regs': Registrations, tallies: map<nat, VoteTally>,
                          votes: Votes)
    requires CacheOk(v, tallies, regs, votes) && Tracked(v, regs, v', regs')
    ensures CacheOk(v', tallies, regs', votes)
  {
    if v == v' {
      forall m | m in tallies && v < U32_MAX
        ensures Eligible(regs', votes, m) == Eligible(regs, votes, m)
      {
        forall o
          ensures o in Eligible(regs', votes, m) <==> o in Eligible(regs, votes, m)
        {
          assert HasStake(regs, o) <==> HasStake(regs', o);
        }
      }
    }
  }

  /** When an eligible oracle loses its stake and the version is bumped, a tally that was current and
      exact goes on being used although it is now wrong exactly when the version is at its ceiling. */
  lemma StaleOnlyAtCeiling(v: U32, regs: Registrations, votes: Votes, matchId: nat, o: Address)
    requires o in Eligible(regs, votes, matchId)
    ensures var t := VoteTally(|Eligible(regs, votes, matchId)|, v);
      var regs' := regs[o := regs[o].(stake := 0)];
      t.version == SatAdd32(v, 1) && t.remaining != |Eligible(regs', votes, matchId)| <==> v == U32_MAX
  {
    var regs' := regs[o := regs[o].(stake := 0)];
    assert Eligible(regs', votes, matchId) == Eligible(regs, votes, matchId) - {o};
  }

  /** A recorded vote takes exactly its oracle out of the count for that match. */
  lemma VoteShrinksEligible(regs: Registrations, votes: Votes, matchId: nat, who: Address, claim: Claim)
    requires who in Eligible(regs, votes, matchId)
    ensures Eligible(regs, votes[(matchId, who) := claim], matchId) == Eligible(regs, votes, matchId) - {who}
    ensures |Eligible(regs, votes[(matchId, who) := claim], matchId)| == |Eligible(regs, votes, matchId)| - 1
  {
    assert Eligible(regs, votes[(matchId, who) := claim], matchId) == Eligible(regs, votes, matchId) - {who};
  }

  lemma VoteElsewhere(regs: Registrations, votes: Votes, matchId: nat, who: Address, claim: Claim, m: nat)
    requires m != matchId
    ensures Eligible(regs, votes[(matchId, who) := claim], m) == Eligible(regs, votes, m)
  {
    forall o
      ensures o in Eligible(regs, votes[(matchId, who) := claim], m) <==> o in Eligible(regs, votes, m)
    {
      assert (m, o) != (matchId, who);
    }
  }

  /** After a vote, the cache is sound again once the match's tally is dropped or refreshed. */
  lemma VoteKeepsCache(version: nat, tallies: map<nat, VoteTally>, regs: Registrations, votes: Votes,
                       matchId: nat, who: Address, claim: Claim, tallies': map<nat, VoteTally>)
    requires CacheOk(version, tallies, regs, votes)
    requires forall m :: m in tallies' && m != matchId ==> m in tallies && tallies'[m] == tallies[m]
    requires matchId in tallies' ==>
      tallies'[matchId].version <= version &&
      (tallies'[matchId].version == version < U32_MAX ==>
         tallies'[matchId].remaining == |Eligible(regs, votes[(matchId, who) := claim], matchId)|)
    ensures CacheOk(version, tallies', regs, votes[(matchId, who) := claim])
  {
    forall m | m in tallies' && m != matchId
      ensures Eligible(regs, votes[(matchId, who) := claim], m) == Eligible(regs, votes, m)
    {
      VoteElsewhere(regs, votes, matchId, who, claim, m);
    }
  }
}
