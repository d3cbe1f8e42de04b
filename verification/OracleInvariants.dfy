/** What every run of the oracle contract keeps: stake conservation, agreeing tallies, staged slashes
    in the right token, exact penalties and quorum-backed results. */
module OracleInvariants {
  import opened Prelude
  import opened OracleModel

  // ----- stake conservation

  ghost function StakesIn(regs: Registrations, token: Address): map<Address, int> {
    map o | o in regs && regs[o].token == token :: regs[o].stake
  }

  /** What the contract holds of a token beyond the stakes registered in it. */
  ghost function Surplus(b: Books, self: Address, token: Address): int {
    BalanceOf(b.balances, token, self) - MapSum(StakesIn(b.registrations, token))
  }

  ghost predicate Funded(b: Books, self: Address) {
    && (forall o :: o in b.registrations ==> b.registrations[o].stake >= 0)
    && (forall t: Address :: Surplus(b, self, t) >= 0)
  }

  ghost predicate SameSurplus(b: Books, b': Books, self: Address) {
    forall t: Address :: Surplus(b', self, t) == Surplus(b, self, t)
  }

  lemma StakeUpdate(regs: Registrations, who: Address, r: Registration, token: Address)
    requires who in regs ==> regs[who].token == r.token
    ensures MapSum(StakesIn(regs[who := r], token)) == MapSum(StakesIn(regs, token)) +
      if r.token == token then r.stake - (if who in regs then regs[who].stake else 0) else 0
  {
    if r.token == token {
      assert StakesIn(regs[who := r], token) == StakesIn(regs, token)[who := r.stake];
      MapSumUpdate(StakesIn(regs, token), who, r.stake);
    } else {
      assert StakesIn(regs[who := r], token) == StakesIn(regs, token);
    }
  }

  /** The contract can always pay out any part of a registered stake. */
  lemma StakeIsHeld(b: Books, self: Address, who: Address)
    requires Funded(b, self) && who in b.registrations
    ensures b.registrations[who].stake <= BalanceOf(b.balances, b.registrations[who].token, self)
  {
    var token := b.registrations[who].token;
    assert Surplus(b, self, token) >= 0;
    MapSumNonNegative(StakesIn(b.registrations, token));
    assert who in StakesIn(b.registrations, token);
  }

  lemma SeizeConserves(b: Books, self: Address, admin: Address, who: Address, amount: int)
    requires Funded(b, self) && admin != self && who in b.registrations
    requires 0 <= amount <= b.registrations[who].stake
    ensures var b' := Seize(b, self, admin, who, amount); Funded(b', self) && SameSurplus(b, b', self)
  {
    StakeIsHeld(b, self, who);
    var r := b.registrations[who];
    var b' := Seize(b, self, admin, who, amount);
    forall t: Address
      ensures Surplus(b', self, t) == Surplus(b, self, t) && Surplus(b, self, t) >= 0
    {
      StakeUpdate(b.registrations, who, r.(stake := r.stake - amount), t);
    }
  }

  lemma SlashAmountBounds(stake: int, bps: int)
    requires stake > 0 && 0 <= bps <= 10_000
    ensures 0 <= SlashAmount(stake, bps) <= stake
    ensures bps == 10_000 ==> SlashAmount(stake, bps) == stake
    ensures bps == 1_000 ==> SlashAmount(stake, bps) == stake / 10
  {
  }

  lemma SlashConserves(b: Books, self: Address, admin: Address, who: Address, bps: int)
    requires Funded(b, self) && admin != self && 0 <= bps <= 10_000
    ensures var b' := Slash(b, self, admin, who, bps); Funded(b', self) && SameSurplus(b, b', self)
  {
    if who in b.registrations && b.registrations[who].stake > 0 {
      SlashAmountBounds(b.registrations[who].stake, bps);
      SeizeConserves(b, self, admin, who, SlashAmount(b.registrations[who].stake, bps));
    }
  }

  lemma {:induction false} SlashEachConserves(b: Books, self: Address, admin: Address, whos: seq<Address>)
    requires Funded(b, self) && admin != self
    ensures var b' := SlashEach(b, self, admin, whos); Funded(b', self) && SameSurplus(b, b', self)
    decreases |whos|
  {
    if whos != [] {
      var init := whos[..|whos| - 1];
      SlashEachConserves(b, self, admin, init);
      SlashConserves(SlashEach(b, self, admin, init), self, admin, whos[|whos| - 1], MINORITY_BPS);
    }
  }

  lemma RegisterConserves(b: Books, self: Address, who: Address, amount: int, token: Address)
    requires Funded(b, self) && who != self
    ensures var r := RegisterOracle(b, self, who, amount, token);
      r.Ok? ==> Funded(r.value, self) && SameSurplus(b, r.value, self)
  {
    var r := RegisterOracle(b, self, who, amount, token);
    if r.Ok? {
      forall t: Address
        ensures Surplus(r.value, self, t) == Surplus(b, self, t) && Surplus(b, self, t) >= 0
      {
        StakeUpdate(b.registrations, who, r.value.registrations[who], t);
      }
    }
  }

  // ----- penalties

  function MinorityPenalty(stake: int): int {
    if stake <= 0 then stake else stake - stake / 10
  }

  lemma SlashEffect(b: Books, self: Address, admin: Address, who: Address)
    requires who in b.registrations ==> b.registrations[who].stake >= 0
    ensures Slash(b, self, admin, who, MINORITY_BPS).registrations ==
      if who !in b.registrations then b.registrations
      else b.registrations[who := b.registrations[who].(stake := MinorityPenalty(b.registrations[who].stake))]
  {
    if who in b.registrations {
      if b.registrations[who].stake > 0 {
        SlashAmountBounds(b.registrations[who].stake, MINORITY_BPS);
      }
      assert b.registrations[who := b.registrations[who]] == b.registrations;
    }
  }

  /** A round of minority slashes takes exactly floor(stake/10) once from every listed oracle and
      nothing from anybody else, and moves no registration to another token. */
  lemma {:induction false} ExactPenalties(b: Books, self: Address, admin: Address, whos: seq<Address>)
    requires NoDup(whos) && forall o :: o in b.registrations ==> b.registrations[o].stake >= 0
    ensures var regs := SlashEach(b, self, admin, whos).registrations;
      && regs.Keys == b.registrations.Keys
      && forall o :: o in regs ==> regs[o] == b.registrations[o].(
           stake := if o in whos then MinorityPenalty(b.registrations[o].stake) else b.registrations[o].stake)
    decreases |whos|
  {
    if whos != [] {
      var init, last := whos[..|whos| - 1], whos[|whos| - 1];
      ExactPenalties(b, self, admin, init);
      assert last !in init;
      SlashEffect(SlashEach(b, self, admin, init), self, admin, last);
      assert whos == init + [last];
    }
  }

  function Penalised(stake: int, times: nat): int {
    if times == 0 then stake else MinorityPenalty(Penalised(stake, times - 1))
  }

  /** No number of minority slashes takes a stake below min(stake, 9), so being outvoted never makes
      an oracle ineligible; enough of them bring every larger stake down to exactly 9. */
  lemma {:induction false} PenaltyFloor(stake: int, times: nat)
    requires stake >= 0
    ensures Min(stake, 9) <= Penalised(stake, times) <= stake
    ensures times + 9 >= stake ==> Penalised(stake, times) == Min(stake, 9)
    ensures times + 9 < stake ==> Penalised(stake, times) <= stake - times
  {
    if times > 0 {
      PenaltyFloor(stake, times - 1);
    }
  }

  // ----- staged slashes

  /** A staged slash is positive and denominated in its oracle's registered token. */
  ghost predicate Staged(b: Books) {
    forall k :: k in b.pending ==>
      && k.0 in b.registrations
      && b.pending[k].token == b.registrations[k.0].token
      && b.pending[k].amount > 0
  }

  // ----- tallies

  /** Candidates are distinct, none is empty, and each lists distinct oracles whose recorded vote is
      that candidate. */
  ghost predicate TallyOk(cs: seq<Candidate>, votes: Votes, matchId: nat) {
    && (forall i, j :: 0 <= i < j < |cs| ==> cs[i].claim != cs[j].claim)
    && (forall i :: 0 <= i < |cs| ==> cs[i].submitters != [] && NoDup(cs[i].submitters))
    && (forall i, k :: 0 <= i < |cs| && 0 <= k < |cs[i].submitters| ==>
          Recorded(votes, matchId, cs[i].submitters[k], cs[i].claim))
  }

  ghost predicate Recorded(votes: Votes, matchId: nat, who: Address, claim: Claim) {
    (matchId, who) in votes && votes[(matchId, who)] == claim
  }

  ghost predicate Ballots(p: Polls, regs: Registrations) {
    && (forall m :: m in p.consensus ==> p.consensus[m].candidates != [] && TallyOk(p.consensus[m].candidates,
      p.votes, m))
    && (forall k :: k in p.votes ==> k.1 in regs)
  }

  /** An oracle appears at most once in a whole tally. */
  lemma OnceInTally(cs: seq<Candidate>, votes: Votes, matchId: nat, i: nat, j: nat, k: nat, l: nat)
    requires TallyOk(cs, votes, matchId)
    requires i < |cs| && j < |cs| && k < |cs[i].submitters| && l < |cs[j].submitters|
    requires cs[i].submitters[k] == cs[j].submitters[l]
    ensures i == j && k == l
  {
    assert Recorded(votes, matchId, cs[i].submitters[k], cs[i].claim);
    assert Recorded(votes, matchId, cs[j].submitters[l], cs[j].claim);
  }

  lemma PositionUnique(cs: seq<Candidate>, claim: Claim, p: nat)
    requires p <= |cs| && (p < |cs| ==> cs[p].claim == claim)
    requires forall i :: 0 <= i < p ==> cs[i].claim != claim
    ensures Position(cs, claim) == p
  {
    hide Position;
    var q := Position(cs, claim);
  }

  lemma CountVoteBacking(cs: seq<Candidate>, who: Address, claim: Claim)
    ensures Backing(CountVote(cs, who, claim), claim) == Backing(cs, claim) + [who]
  {
    hide Position;
    PositionUnique(CountVote(cs, who, claim), claim, Position(cs, claim));
  }

  lemma CountVoteOk(cs: seq<Candidate>, votes: Votes, matchId: nat, who: Address, claim: Claim)
    requires TallyOk(cs, votes, matchId) && (matchId, who) !in votes
    ensures TallyOk(CountVote(cs, who, claim), votes[(matchId, who) := claim], matchId)
  {
    hide Position;
    var cs' := CountVote(cs, who, claim);
    var p := Position(cs, claim);
    forall i, k | 0 <= i < |cs| && 0 <= k < |cs[i].submitters|
      ensures cs[i].submitters[k] != who
      ensures Recorded(votes[(matchId, who) := claim], matchId, cs[i].submitters[k], cs[i].claim)
    {
      assert Recorded(votes, matchId, cs[i].submitters[k], cs[i].claim);
    }
  }

  /** `o` is listed under some candidate other than `claim`. */
  ghost predicate Listed(cs: seq<Candidate>, claim: Claim, o: Address) {
    exists i :: 0 <= i < |cs| && cs[i].claim != claim && o in cs[i].submitters
  }

  lemma {:induction false} LosersListed(cs: seq<Candidate>, claim: Claim, o: Address)
    ensures o in Losers(cs, claim) <==> Listed(cs, claim, o)
    decreases |cs|
  {
    if cs != [] {
      var init := cs[..|cs| - 1];
      LosersListed(init, claim, o);
      if Listed(init, claim, o) {
        var i :| 0 <= i < |init| && init[i].claim != claim && o in init[i].submitters;
        assert cs[i] == init[i];
      }
      if Listed(cs, claim, o) {
        var i :| 0 <= i < |cs| && cs[i].claim != claim && o in cs[i].submitters;
        assert i < |init| ==> init[i] == cs[i];
      }
    }
  }

  ghost function Claims(cs: seq<Candidate>): set<Claim> {
    set i | 0 <= i < |cs| :: cs[i].claim
  }

  /** The losers are distinct, and each is recorded for another candidate of the tally. */
  lemma {:induction false} LosersDistinct(cs: seq<Candidate>, votes: Votes, matchId: nat, claim: Claim)
    requires TallyOk(cs, votes, matchId)
    ensures NoDup(Losers(cs, claim))
    ensures forall k :: 0 <= k < |Losers(cs, claim)| ==> LosingVote(cs, votes, matchId, claim, Losers(cs, claim)[k])
    decreases |cs|
  {
    if cs != [] {
      var init, c := cs[..|cs| - 1], cs[|cs| - 1];
      assert TallyOk(init, votes, matchId);
      LosersDistinct(init, votes, matchId, claim);
      var rest := Losers(init, claim);
      assert Claims(cs) == Claims(init) + {c.claim};
      assert c.claim !in Claims(init);
      forall k | 0 <= k < |c.submitters|
        ensures Recorded(votes, matchId, c.submitters[k], c.claim)
      {
        assert Recorded(votes, matchId, cs[|cs| - 1].submitters[k], cs[|cs| - 1].claim);
      }
      JoinNoDup(rest, if c.claim == claim then [] else c.submitters);
    }
  }

  ghost predicate LosingVote(cs: seq<Candidate>, votes: Votes, matchId: nat, claim: Claim, who: Address) {
    (matchId, who) in votes && votes[(matchId, who)] != claim && votes[(matchId, who)] in Claims(cs)
  }

  lemma JoinNoDup<T>(a: seq<T>, b: seq<T>)
    requires NoDup(a) && NoDup(b) && forall i, j :: 0 <= i < |a| && 0 <= j < |b| ==> a[i] != b[j]
    ensures NoDup(a + b)
  {
  }

  /** No oracle behind the winning claim is among the losers. */
  lemma WinnersSpared(cs: seq<Candidate>, votes: Votes, matchId: nat, claim: Claim, who: Address)
    requires TallyOk(cs, votes, matchId) && who in Backing(cs, claim)
    ensures who !in Losers(cs, claim)
  {
    LosersDistinct(cs, votes, matchId, claim);
    var p := Position(cs, claim);
    var k :| 0 <= k < |cs[p].submitters| && cs[p].submitters[k] == who;
    assert Recorded(votes, matchId, cs[p].submitters[k], cs[p].claim);
  }
}
