/** The oracle contract as it is coded: storage entries updated in place, the registration list, the
    cached eligibility counts and the per-oracle lists of staged slashes. Every entry point is proved
    to take the corresponding step of OracleModel. */
module OracleContract {
  import opened Prelude
  import opened RateLimiter
  import opened OracleModel
  import opened OracleInvariants
  import opened OracleRuns
  import opened EligibilityCache
  import M = Metrics

  /** The registration list names every registered oracle once. */
  ghost predicate ListOk(oracleSet: seq<Address>, regs: Registrations) {
    NoDup(oracleSet) && Elems(oracleSet) == regs.Keys
  }

  /** The list of an oracle's staged slashes names each of them once. */
  ghost predicate PendingListOk(lists: map<Address, seq<nat>>, pending: map<(Address, nat), PendingSlash>) {
    forall o: Address :: NoDup(Lookup(lists, o, [])) && forall m: nat :: m in Lookup(lists, o, []) <==>
      (o, m) in pending
  }

  /** The outcome of a transaction: the next state and the reported result. */
  ghost predicate Took(s: State, op: Op, s': State, r: Result<(), Error>) {
    && s' == Step(s, op)
    && (r.Ok? <==> Perform(s, op).Ok?)
    && (r.Err? ==> r.error == Perform(s, op).error)
  }

  lemma StepInv(s: State, op: Op)
    requires Inv(s) && Legal(s, op)
    ensures Inv(Step(s, op))
  {
    StepKeeps(s, op);
  }

  /** What every entry point needs to know of a sound state. */
  lemma Sound(s: State)
    requires Inv(s)
    ensures BooksOk(s.books, s.self) && s.config.admin != Some(s.self)
  {
  }

  lemma StakeAtHand(b: Books, self: Address, admin: Address, who: Address, amount: int)
    requires BooksOk(b, self) && who in b.registrations && 0 <= amount <= b.registrations[who].stake
    ensures Transfer(b.balances, b.registrations[who].token, self, admin, amount).Some?
  {
    StakeIsHeld(b, self, who);
  }

  /** What executing a staged slash does to the books. */
  lemma ExecutedBooks(b: Books, self: Address, admin: Address, ledger: nat, who: Address, matchId: nat)
    requires BooksOk(b, self) && (who, matchId) in b.pending && b.pending[(who, matchId)].eligible <= ledger
    ensures who in b.registrations
    ensures var p := b.pending[(who, matchId)];
      var r := b.registrations[who];
      var amount := Min(p.amount, r.stake);
      && 0 <= amount
      && Transfer(b.balances, p.token, self, admin, amount).Some?
      && OracleModel.FinalizeSlash(b, self, admin, ledger, who, matchId) == Ok(Books(
           b.registrations[who := r.(stake := r.stake - amount)],
           Without(b.pending, (who, matchId)),
           if amount > 0 then Transfer(b.balances, p.token, self, admin, amount).value else b.balances))
  {
    StagedToken(b, self, who, matchId);
    StakeAtHand(b, self, admin, who, Min(b.pending[(who, matchId)].amount, b.registrations[who].stake));
    assert b.registrations[who := b.registrations[who]] == b.registrations;
  }

  lemma TrackedStake(v: U32, regs: Registrations, who: Address, r: Registration)
    ensures Tracked(v, regs, if HasStake(regs, who) == (r.stake > 0) then v else SatAdd32(v, 1), regs[who := r])
  {
  }

  lemma StagedToken(b: Books, self: Address, who: Address, matchId: nat)
    requires BooksOk(b, self) && (who, matchId) in b.pending
    ensures who in b.registrations && b.pending[(who, matchId)].token == b.registrations[who].token
    ensures b.pending[(who, matchId)].amount > 0 && b.registrations[who].stake >= 0
  {
  }

  lemma ListExtended(oracleSet: seq<Address>, regs: Registrations, who: Address, r: Registration)
    requires ListOk(oracleSet, regs)
    ensures ListOk(if who in oracleSet then oracleSet else oracleSet + [who], regs[who := r])
  {
    var oracleSet' := if who in oracleSet then oracleSet else oracleSet + [who];
    assert who in oracleSet <==> who in Elems(oracleSet);
    assert Elems(oracleSet') == Elems(oracleSet) + {who};
  }

  lemma ListKept(oracleSet: seq<Address>, regs: Registrations, regs': Registrations)
    requires ListOk(oracleSet, regs) && regs'.Keys == regs.Keys
    ensures ListOk(oracleSet, regs')
  {
  }

  lemma PendingAdded(lists: map<Address, seq<nat>>, pending: map<(Address, nat), PendingSlash>,
                     who: Address, matchId: nat, p: PendingSlash)
    requires PendingListOk(lists, pending) && (who, matchId) !in pending
    ensures PendingListOk(lists[who := Lookup(lists, who, []) + [matchId]], pending[(who, matchId) := p])
  {
    var lists', pending' := lists[who := Lookup(lists, who, []) + [matchId]], pending[(who, matchId) := p];
    forall o: Address
      ensures NoDup(Lookup(lists', o, [])) && forall m: nat :: m in Lookup(lists', o, []) <==> (o, m) in pending'
    {
      assert NoDup(Lookup(lists, o, [])) && forall m: nat :: m in Lookup(lists, o, []) <==> (o, m) in pending;
    }
  }

  /** `lists'` is `lists` with `matchId` struck from the list of `who`. */
  ghost predicate Struck(lists: map<Address, seq<nat>>, lists': map<Address, seq<nat>>, who: Address, matchId: nat) {
    && (forall o: Address :: o != who ==> Lookup(lists', o, []) == Lookup(lists, o, []))
    && (forall m: nat :: m in Lookup(lists', who, []) <==> m in Lookup(lists, who, []) && m != matchId)
    && (NoDup(Lookup(lists, who, [])) ==> NoDup(Lookup(lists', who, [])))
  }

  lemma PendingRemoved(lists: map<Address, seq<nat>>, lists': map<Address, seq<nat>>,
                       pending: map<(Address, nat), PendingSlash>, who: Address, matchId: nat)
    requires PendingListOk(lists, pending) && Struck(lists, lists', who, matchId)
    ensures PendingListOk(lists', Without(pending, (who, matchId)))
  {
    forall o: Address
      ensures NoDup(Lookup(lists', o, []))
      ensures forall m: nat :: m in Lookup(lists', o, []) <==> (o, m) in Without(pending, (who, matchId))
    {
      assert NoDup(Lookup(lists, o, [])) && forall m: nat :: m in Lookup(lists, o, []) <==> (o, m) in pending;
    }
  }

  // ----- the scan

  ghost function EligibleAmong(list: seq<Address>, regs: Registrations, votes: Votes, matchId: nat): set<Address> {
    set o | o in list && o in regs && regs[o].stake > 0 && (matchId, o) !in votes
  }

  lemma AmongNext(list: seq<Address>, i: nat, regs: Registrations, votes: Votes, matchId: nat)
    requires NoDup(list) && i < |list|
    ensures |EligibleAmong(list[..i + 1], regs, votes, matchId)| ==
      |EligibleAmong(list[..i], regs, votes, matchId)| +
      if HasStake(regs, list[i]) && (matchId, list[i]) !in votes then 1 else 0
  {
    var now, next := EligibleAmong(list[..i], regs, votes, matchId), EligibleAmong(list[..i + 1], regs, votes, matchId);
    assert list[..i + 1] == list[..i] + [list[i]];
    assert list[i] !in list[..i];
    if HasStake(regs, list[i]) && (matchId, list[i]) !in votes {
      assert next == now + {list[i]};
    } else {
      assert next == now;
    }
  }

  lemma AmongAll(list: seq<Address>, regs: Registrations, votes: Votes, matchId: nat)
    requires Elems(list) == regs.Keys
    ensures EligibleAmong(list, regs, votes, matchId) == Eligible(regs, votes, matchId)
  {
    assert forall o: Address :: o in list <==> o in Elems(list);
  }

  // ----- rounds of minority slashes

  /** The books and the version after a round of minority slashes. */
  ghost predicate Slashed(b0: Books, v0: U32, b: Books, v: U32, self: Address, admin: Address, whos: seq<Address>) {
    && b == SlashEach(b0, self, admin, whos)
    && BooksOk(b, self)
    && b.registrations.Keys == b0.registrations.Keys
    && Tracked(v0, b0.registrations, v, b.registrations)
  }

  lemma SlashedNone(b: Books, v: U32, self: Address, admin: Address)
    requires BooksOk(b, self)
    ensures Slashed(b, v, b, v, self, admin, [])
  {
  }

  lemma SlashedNext(b0: Books, v0: U32, b: Books, v: U32, b': Books, v': U32, self: Address, admin: Address,
                    whos: seq<Address>, who: Address)
    requires Slashed(b0, v0, b, v, self, admin, whos)
    requires b' == Slash(b, self, admin, who, MINORITY_BPS)
    requires BooksOk(b', self) && b'.registrations.Keys == b.registrations.Keys
    requires Tracked(v, b.registrations, v', b'.registrations)
    ensures Slashed(b0, v0, b', v', self, admin, whos + [who])
  {
    hide Slash, BooksOk;
    assert (whos + [who])[..|whos|] == whos;
  }

  lemma SlashedBooks(b0: Books, v0: U32, b: Books, v: U32, self: Address, admin: Address, whos: seq<Address>)
    requires Slashed(b0, v0, b, v, self, admin, whos)
    ensures b == SlashEach(b0, self, admin, whos) && BooksOk(b, self)
  {
  }

  lemma SlashedList(oracleSet: seq<Address>, b0: Books, v0: U32, b: Books, v: U32, self: Address, admin: Address,
                    whos: seq<Address>)
    requires ListOk(oracleSet, b0.registrations) && Slashed(b0, v0, b, v, self, admin, whos)
    ensures ListOk(oracleSet, b.registrations)
    ensures b.pending == b0.pending
  {
    SlashEachHolders(b0, self, admin, whos);
  }

  lemma LosersNone(cs: seq<Candidate>, claim: Claim)
    ensures Losers(cs[..0], claim) == []
  {
  }

  lemma LosersNext(cs: seq<Candidate>, claim: Claim, i: nat)
    requires i < |cs|
    ensures cs[i].claim == claim ==> Losers(cs[..i + 1], claim) == Losers(cs[..i], claim)
    ensures cs[i].claim != claim ==> Losers(cs[..i + 1], claim) == Losers(cs[..i], claim) + cs[i].submitters
  {
    assert cs[..i + 1][..i] == cs[..i];
  }

  // ----- the cache after a vote

  lemma FinalisedCache(b0: Books, v0: U32, b: Books, v: U32, self: Address, admin: Address, whos: seq<Address>,
                       tallies: map<nat, VoteTally>, votes: Votes, matchId: nat, who: Address, claim: Claim)
    requires CacheOk(v0, tallies, b0.registrations, votes) && Slashed(b0, v0, b, v, self, admin, whos)
    ensures CacheOk(v, Without(tallies, matchId), b.registrations, votes[(matchId, who) := claim])
  {
    VoteKeepsCache(v0, tallies, b0.registrations, votes, matchId, who, claim, Without(tallies, matchId));
    TrackedKeepsCache(v0, b0.registrations, v, b.registrations, Without(tallies, matchId), votes[(matchId,
      who) := claim]);
  }

  lemma ResolvedCache(b0: Books, v0: U32, b: Books, v: U32, self: Address, admin: Address, whos: seq<Address>,
                      tallies: map<nat, VoteTally>, votes: Votes, matchId: nat)
    requires CacheOk(v0, tallies, b0.registrations, votes) && Slashed(b0, v0, b, v, self, admin, whos)
    ensures CacheOk(v, Without(tallies, matchId), b.registrations, votes)
  {
    TrackedKeepsCache(v0, b0.registrations, v, b.registrations, Without(tallies, matchId), votes);
  }

  /** What `RemainingEligibleOracles` answers after the vote is stored. */
  ghost predicate Refreshed(v: U32, tallies: map<nat, VoteTally>, scanned: nat, matchId: nat, remaining: nat) {
    remaining == if matchId in tallies && tallies[matchId].version == v then SatSub(tallies[matchId].remaining, 1)
      else scanned
  }

  /** The refreshed count is the scanned count, and the cache that stores it is sound. */
  lemma RefreshedCache(v: U32, tallies: map<nat, VoteTally>, regs: Registrations, votes: Votes,
                       matchId: nat, who: Address, claim: Claim, remaining: nat)
    requires CacheOk(v, tallies, regs, votes) && HasStake(regs, who) && (matchId, who) !in votes
    requires Refreshed(v, tallies, |Eligible(regs, votes[(matchId, who) := claim], matchId)|, matchId, remaining)
    ensures v < U32_MAX ==> remaining == |Eligible(regs, votes[(matchId, who) := claim], matchId)|
    ensures CacheOk(v, tallies[matchId := VoteTally(remaining, v)], regs, votes[(matchId, who) := claim])
  {
    VoteShrinksEligible(regs, votes, matchId, who, claim);
    VoteKeepsCache(v, tallies, regs, votes, matchId, who, claim, tallies[matchId := VoteTally(remaining, v)]);
  }

  // ----- states

  lemma TallyInv(s: State, who: Address, matchId: nat, claim: Claim)
    requires Inv(s) && s.config.admin.Some? && who in s.books.registrations && (matchId, who) !in s.polls.votes
    ensures Inv(Tally(s, who, matchId, claim))
  {
    TallyKeeps(s, who, matchId, claim);
  }

  /** An open tally is sound whether or not it is flagged as disputed. */
  lemma OpenInv(s: State, who: Address, matchId: nat, claim: Claim, disputed: bool, board: Board)
    requires Inv(s) && who in s.books.registrations && (matchId, who) !in s.polls.votes
    ensures var cs := CountVote(Open(s.polls, matchId).candidates, who, claim);
      Inv(s.(polls := Polls(s.polls.votes[(matchId, who) := claim],
                            s.polls.consensus[matchId := Consensus(cs, disputed)]),
             board := board))
  {
    CountedBallots(s.polls, s.books.registrations, who, matchId, claim, disputed);
  }

  /** The candidates of a tally stay distinct. */
  lemma CountedClaims(s: State, who: Address, matchId: nat, claim: Claim)
    requires Inv(s) && (matchId, who) !in s.polls.votes
    ensures var cs := CountVote(Open(s.polls, matchId).candidates, who, claim);
      forall i, j :: 0 <= i < j < |cs| ==> cs[i].claim != cs[j].claim
  {
    hide CountVote;
    CountVoteOk(Open(s.polls, matchId).candidates, s.polls.votes, matchId, who, claim);
  }

  lemma QuotasInv(s: State, q: Quotas)
    requires Inv(s)
    ensures Inv(s.(quotas := q))
  {
  }

  // ----- loops over a tally

  /** Add a vote to the candidate it names, opening the candidate if there is none. */
  method AddToTally(cs: seq<Candidate>, who: Address, claim: Claim) returns (cs': seq<Candidate>, idx: nat)
    ensures cs' == CountVote(cs, who, claim)
    ensures idx < |cs'| && cs'[idx].claim == claim && cs'[idx].submitters == Backing(cs', claim)
  {
    hide Position;
    CountVoteBacking(cs, who, claim);
    for i := 0 to |cs|
      invariant forall k :: 0 <= k < i ==> cs[k].claim != claim
    {
      if cs[i].claim == claim {
        PositionUnique(cs, claim, i);
        cs' := cs[i := cs[i].(submitters := cs[i].submitters + [who])];
        return cs', i;
      }
    }
    PositionUnique(cs, claim, |cs|);
    cs' := cs + [Candidate(claim, [who])];
    return cs', |cs|;
  }

  /** Whether some candidate can still reach the threshold. */
  method StillPossible(cs: seq<Candidate>, remaining: nat, threshold: U32) returns (possible: bool)
    ensures possible <==> !Deadlocked(cs, remaining, threshold)
  {
    for i := 0 to |cs|
      invariant forall k :: 0 <= k < i ==> |cs[k].submitters| + remaining < threshold
    {
      if SatAdd32(|cs[i].submitters|, remaining) >= threshold {
        return true;
      }
    }
    return false;
  }

  class OracleContract {
    const self: Address
    var config: Config
    var books: Books
    var polls: Polls
    var board: Board
    var quotas: Quotas
    var ledger: nat
    var time: nat

    // Kept for speed; each is determined by the entries above.
    var oracleSet: seq<Address>
    var eligibilityVersion: U32
    var voteTallies: map<nat, VoteTally>
    var pendingList: map<Address, seq<nat>>

    ghost function View(): State
      reads this
    {
      State(self, config, books, polls, board, quotas, ledger, time)
    }

    ghost predicate Valid()
      reads this
    {
      && Inv(View())
      && ListOk(oracleSet, books.registrations)
      && CacheOk(eligibilityVersion, voteTallies, books.registrations, polls.votes)
      && PendingListOk(pendingList, books.pending)
    }

    /** A newly initialised contract. */
    constructor (address: Address, settings: Config, held: Balances, now: nat, clock: nat)
      requires settings.threshold >= 1 && settings.admin != Some(address)
      requires forall t: Address :: BalanceOf(held, t, address) >= 0
      ensures Valid()
      ensures View() == State(address, settings, Books(map[], map[], held), Polls(map[], map[]),
                              Board(map[], map[], map[]), Quotas(map[], map[], map[]), now, clock)
    {
      self := address;
      config, books, polls := settings, Books(map[], map[], held), Polls(map[], map[]);
      board, quotas, ledger, time := Board(map[], map[], map[]), Quotas(map[], map[], map[]), now, clock;
      oracleSet, eligibilityVersion, voteTallies, pendingList := [], 0, map[], map[];
      new;
      FreshInv(View());
    }

    // ----- stake

    method BumpEligibilityVersion()
      modifies `eligibilityVersion
      ensures eligibilityVersion == SatAdd32(old(eligibilityVersion), 1)
    {
      eligibilityVersion := SatAdd32(eligibilityVersion, 1);
    }

    method RegisterOracleWithStake(who: Address, amount: int, token: Address) returns (r: Result<(), Error>)
      requires Valid() && who != self
      modifies `books, `oracleSet, `eligibilityVersion
      ensures Valid() && Took(old(View()), Register(who, amount, token), View(), r)
    {
      hide Inv, BooksOk, CacheOk, ListOk, PendingListOk;
      if amount <= 0 {
        return Err(InvalidAmount);
      }
      var before := Get(books.registrations, who);
      var wasEligible := before.Some? && before.value.stake > 0;
      if before.Some? && before.value.token != token {
        return Err(StakeTokenMismatch);
      }
      var moved := Transfer(books.balances, token, who, self, amount);
      if moved.None? {
        return Err(TransferFailed);
      }
      var newStake := (if before.Some? then before.value.stake else 0) + amount;
      StepInv(View(), Register(who, amount, token));
      ListExtended(oracleSet, books.registrations, who, Registration(newStake, token));
      TrackedStake(eligibilityVersion, books.registrations, who, Registration(newStake, token));
      books := books.(balances := moved.value);
      books := books.(registrations := books.registrations[who := Registration(newStake, token)]);
      if !wasEligible {
        BumpEligibilityVersion();
      }
      if who !in oracleSet {
        oracleSet := oracleSet + [who];
      }
      TrackedKeepsCache(old(eligibilityVersion), old(books.registrations), eligibilityVersion, books.registrations,
        voteTallies, polls.votes);
      return Ok(());
    }

    /** Slash basis points of one oracle's stake; returns the amount taken. */
    method SlashBps(who: Address, bps: int) returns (amount: int)
      requires BooksOk(books, self)
      requires config.admin.Some? && config.admin.value != self && 0 <= bps <= 10_000
      modifies `books, `eligibilityVersion
      ensures books == Slash(old(books), self, config.admin.value, who, bps)
      ensures Tracked(old(eligibilityVersion), old(books.registrations), eligibilityVersion, books.registrations)
      ensures BooksOk(books, self) && books.registrations.Keys == old(books.registrations.Keys)
      ensures amount == Lookup(old(books.registrations), who, Registration(0, self)).stake
                        - Lookup(books.registrations, who, Registration(0, self)).stake
    {
      SlashStep(books, self, config.admin.value, who, bps);
      if who !in books.registrations {
        return 0;
      }
      var registration := books.registrations[who];
      if registration.stake <= 0 {
        return 0;
      }
      amount := registration.stake * bps / 10_000;
      amount := if amount < 0 then 0 else if amount > registration.stake then registration.stake else amount;
      if amount == 0 {
        return 0;
      }
      StakeAtHand(books, self, config.admin.value, who, amount);
      var moved := Transfer(books.balances, registration.token, self, config.admin.value, amount);
      var left := registration.(stake := registration.stake - amount);
      TrackedStake(eligibilityVersion, books.registrations, who, left);
      books := books.(registrations := books.registrations[who := left]);
      if left.stake == 0 {
        BumpEligibilityVersion();
      }
      books := books.(balances := moved.value);
    }

    method SlashOracle(who: Address, matchId: nat, amount: int) returns (r: Result<(), Error>)
      requires Valid()
      modifies `books, `pendingList
      ensures Valid() && Took(old(View()), Stage(who, matchId, amount), View(), r)
    {
      hide Inv, BooksOk, CacheOk, ListOk, PendingListOk;
      if config.admin.None? {
        return Err(Unauthorized);
      }
      if who !in books.registrations {
        return Err(NotRegisteredOracle);
      }
      if (who, matchId) in books.pending {
        return Err(SlashAlreadyPending);
      }
      if amount <= 0 || amount > books.registrations[who].stake {
        return Err(InsufficientStake);
      }
      StepInv(View(), Stage(who, matchId, amount));
      var entry := PendingSlash(amount, books.registrations[who].token, ledger, SatAdd32(ledger, config.grace));
      PendingAdded(pendingList, books.pending, who, matchId, entry);
      books := books.(pending := books.pending[(who, matchId) := entry]);
      pendingList := pendingList[who := Lookup(pendingList, who, []) + [matchId]];
      return Ok(());
    }

    method RemovePendingSlashMatch(who: Address, matchId: nat)
      modifies `pendingList
      ensures Struck(old(pendingList), pendingList, who, matchId)
    {
      var list := Lookup(pendingList, who, []);
      var remaining: seq<nat> := [];
      for i := 0 to |list|
        invariant forall m: nat :: m in remaining <==> m in list[..i] && m != matchId
        invariant NoDup(list) ==> NoDup(remaining)
      {
        assert list[..i + 1] == list[..i] + [list[i]];
        assert NoDup(list) ==> list[i] !in list[..i];
        if list[i] != matchId {
          remaining := remaining + [list[i]];
        }
      }
      assert list[..|list|] == list;
      if remaining == [] {
        pendingList := pendingList - {who};
      } else {
        pendingList := pendingList[who := remaining];
      }
    }

    method FinalizeSlash(who: Address, matchId: nat) returns (r: Result<(), Error>)
      requires Valid()
      modifies `books, `eligibilityVersion, `pendingList
      ensures Valid() && Took(old(View()), Execute(who, matchId), View(), r)
    {
      hide Inv, BooksOk, CacheOk, ListOk, PendingListOk, Tracked, Transfer, Without, Struck, Seize, CastVote,
        SubmitBatch;
      if config.admin.None? {
        return Err(Unauthorized);
      }
      if (who, matchId) !in books.pending {
        return Err(SlashNotFound);
      }
      var entry := books.pending[(who, matchId)];
      if ledger < entry.eligible {
        return Err(SlashGracePeriodNotElapsed);
      }
      if who !in books.registrations {
        return Err(InsufficientStake);
      }
      StepInv(View(), Execute(who, matchId));
      Sound(View());
      ExecutedBooks(books, self, config.admin.value, ledger, who, matchId);
      var registration := books.registrations[who];
      var amount := Min(entry.amount, registration.stake);
      var left := registration.(stake := registration.stake - amount);
      TrackedStake(eligibilityVersion, books.registrations, who, left);
      var wasEligible := registration.stake > 0;
      books := books.(registrations := books.registrations[who := left]);
      if wasEligible && left.stake == 0 {
        BumpEligibilityVersion();
      }
      books := books.(pending := Without(books.pending, (who, matchId)));
      RemovePendingSlashMatch(who, matchId);
      PendingRemoved(old(pendingList), pendingList, old(books.pending), who, matchId);
      if amount > 0 {
        books := books.(balances := Transfer(books.balances, entry.token, self, config.admin.value, amount).value);
      }
      ListKept(oracleSet, old(books.registrations), books.registrations);
      TrackedKeepsCache(old(eligibilityVersion), old(books.registrations), eligibilityVersion, books.registrations,
        voteTallies, polls.votes);
      return Ok(());
    }

    method AdminCancelSlash(who: Address, matchId: nat) returns (r: Result<(), Error>)
      requires Valid()
      modifies `books, `pendingList
      ensures Valid() && Took(old(View()), Withdraw(who, matchId), View(), r)
    {
      hide Inv, BooksOk, CacheOk, ListOk, PendingListOk;
      if config.admin.None? {
        return Err(Unauthorized);
      }
      if (who, matchId) !in books.pending {
        return Err(SlashNotFound);
      }
      StepInv(View(), Withdraw(who, matchId));
      books := books.(pending := Without(books.pending, (who, matchId)));
      RemovePendingSlashMatch(who, matchId);
      PendingRemoved(old(pendingList), pendingList, old(books.pending), who, matchId);
      return Ok(());
    }

    /** Every staged slash of an oracle, and nothing else. */
    method GetPendingSlashes(who: Address) returns (slashes: seq<PendingSlash>)
      requires Valid()
      ensures |slashes| == |Lookup(pendingList, who, [])|
      ensures forall i :: 0 <= i < |slashes| ==>
        var m := Lookup(pendingList, who, [])[i];
        (who, m) in books.pending && slashes[i] == books.pending[(who, m)]
    {
      var list := Lookup(pendingList, who, []);
      slashes := [];
      for i := 0 to |list|
        invariant |slashes| == i
        invariant forall k :: 0 <= k < i ==>
          (who, list[k]) in books.pending && slashes[k] == books.pending[(who, list[k])]
      {
        assert list[i] in list;
        if (who, list[i]) in books.pending {
          slashes := slashes + [books.pending[(who, list[i])]];
        }
      }
    }

    // ----- m-of-n voting

    /** The scan behind the cached count. */
    method CountRemainingEligible(matchId: nat) returns (remaining: nat)
      requires ListOk(oracleSet, books.registrations)
      ensures remaining == |Eligible(books.registrations, polls.votes, matchId)|
    {
      remaining := 0;
      for i := 0 to |oracleSet|
        invariant remaining == |EligibleAmong(oracleSet[..i], books.registrations, polls.votes, matchId)|
      {
        AmongNext(oracleSet, i, books.registrations, polls.votes, matchId);
        var o := oracleSet[i];
        if (matchId, o) in polls.votes {
          continue;
        }
        if o in books.registrations && books.registrations[o].stake > 0 {
          remaining := remaining + 1;
        }
      }
      assert oracleSet[..|oracleSet|] == oracleSet;
      AmongAll(oracleSet, books.registrations, polls.votes, matchId);
    }

    /** The remaining count for a match whose newest vote is already stored: one less than the cached
        count when nobody's eligibility changed since, a fresh scan otherwise. */
    method RemainingEligibleOracles(matchId: nat) returns (remaining: nat)
      requires ListOk(oracleSet, books.registrations)
      modifies `voteTallies
      ensures voteTallies == old(voteTallies)[matchId := VoteTally(remaining, eligibilityVersion)]
      ensures Refreshed(eligibilityVersion, old(voteTallies), |Eligible(books.registrations, polls.votes, matchId)|,
        matchId, remaining)
    {
      var tally := Get(voteTallies, matchId);
      if tally.Some? && tally.value.version == eligibilityVersion {
        remaining := SatSub(tally.value.remaining, 1);
      } else {
        remaining := CountRemainingEligible(matchId);
      }
      voteTallies := voteTallies[matchId := VoteTally(remaining, eligibilityVersion)];
    }

    method AppendOracleSubmission(who: Address, e: Entry)
      modifies `board
      ensures board == LogSubmission(old(board), who, e, ledger)
    {
      var list := Lookup(board.history, who, []);
      board := board.(history := board.history[who := list + [Submission(e.matchId, e.claim, ledger)]]);
    }

    method AppendEach(whos: seq<Address>, e: Entry)
      modifies `board
      ensures board == LogEach(old(board), whos, e, ledger)
    {
      for k := 0 to |whos|
        invariant board == LogEach(old(board), whos[..k], e, ledger)
      {
        assert whos[..k + 1][..k] == whos[..k];
        AppendOracleSubmission(whos[k], e);
      }
      assert whos[..|whos|] == whos;
    }

    method PublishResult(e: Entry, submitter: Address)
      modifies `board
      ensures board == Publish(old(board), e, submitter, ledger, time)
    {
      board := board.(results := board.results[e.matchId := ResultEntry(e.claim, ledger, submitter, e.confidence)]);
      board := board.(cache := board.cache[(e.claim.game, e.claim.platform) := (e.claim.winner,
        time + CACHE_TTL_SECS)]);
    }

    /** Slash every oracle behind a candidate other than the one at `idx`. */
    method SlashMinority(cs: seq<Candidate>, idx: nat)
      requires idx < |cs| && forall i, j :: 0 <= i < j < |cs| ==> cs[i].claim != cs[j].claim
      requires BooksOk(books, self) && config.admin.Some? && config.admin.value != self
      modifies `books, `eligibilityVersion
      ensures Slashed(old(books), old(eligibilityVersion), books, eligibilityVersion, self, config.admin.value,
        Losers(cs, cs[idx].claim))
    {
      hide BooksOk, Slash, SlashEach, Tracked, Losers;
      ghost var b0, v0 := books, eligibilityVersion;
      SlashedNone(b0, v0, self, config.admin.value);
      LosersNone(cs, cs[idx].claim);
      for i := 0 to |cs|
        invariant Slashed(b0, v0, books, eligibilityVersion, self, config.admin.value, Losers(cs[..i], cs[idx].claim))
      {
        LosersNext(cs, cs[idx].claim, i);
        if i == idx {
          continue;
        }
        ghost var before := Losers(cs[..i], cs[idx].claim);
        var losing := cs[i].submitters;
        assert before + losing[..0] == before;
        for j := 0 to |losing|
          invariant Slashed(b0, v0, books, eligibilityVersion, self, config.admin.value, before + losing[..j])
        {
          ghost var b1, v1 := books, eligibilityVersion;
          var _ := SlashBps(losing[j], MINORITY_BPS);
          SlashedNext(b0, v0, b1, v1, books, eligibilityVersion, self, config.admin.value, before + losing[..j],
            losing[j]);
          assert before + losing[..j + 1] == before + losing[..j] + [losing[j]];
        }
        assert losing[..|losing|] == losing;
      }
      assert cs[..|cs|] == cs;
    }

    /** Slash every oracle behind a candidate that does not agree with the admin's decision. */
    method SlashDisagreeing(cs: seq<Candidate>, claim: Claim)
      requires BooksOk(books, self) && config.admin.Some? && config.admin.value != self
      modifies `books, `eligibilityVersion
      ensures Slashed(old(books), old(eligibilityVersion), books, eligibilityVersion, self, config.admin.value,
        Losers(cs, claim))
    {
      hide BooksOk, Slash, SlashEach, Tracked, Losers;
      ghost var b0, v0 := books, eligibilityVersion;
      SlashedNone(b0, v0, self, config.admin.value);
      LosersNone(cs, claim);
      for i := 0 to |cs|
        invariant Slashed(b0, v0, books, eligibilityVersion, self, config.admin.value, Losers(cs[..i], claim))
      {
        LosersNext(cs, claim, i);
        if cs[i].claim != claim {
          ghost var before := Losers(cs[..i], claim);
          var wrong := cs[i].submitters;
          assert before + wrong[..0] == before;
          for j := 0 to |wrong|
            invariant Slashed(b0, v0, books, eligibilityVersion, self, config.admin.value, before + wrong[..j])
          {
            ghost var b1, v1 := books, eligibilityVersion;
            var _ := SlashBps(wrong[j], MINORITY_BPS);
            SlashedNext(b0, v0, b1, v1, books, eligibilityVersion, self, config.admin.value, before + wrong[..j],
              wrong[j]);
            assert before + wrong[..j + 1] == before + wrong[..j] + [wrong[j]];
          }
          assert wrong[..|wrong|] == wrong;
        }
      }
      assert cs[..|cs|] == cs;
    }

    method PenaliseAndKeep(who: Address, bps: int)
      requires BooksOk(books, self) && ListOk(oracleSet, books.registrations)
      requires CacheOk(eligibilityVersion, voteTallies, books.registrations, polls.votes)
      requires config.admin.Some? && config.admin.value != self && 0 <= bps <= 10_000
      modifies `books, `eligibilityVersion
      ensures books == Slash(old(books), self, config.admin.value, who, bps)
      ensures ListOk(oracleSet, books.registrations) && books.pending == old(books.pending)
      ensures CacheOk(eligibilityVersion, voteTallies, books.registrations, polls.votes)
    {
      hide BooksOk, CacheOk, ListOk;
      var _ := SlashBps(who, bps);
      ListKept(oracleSet, old(books.registrations), books.registrations);
      TrackedKeepsCache(old(eligibilityVersion), old(books.registrations), eligibilityVersion, books.registrations,
        voteTallies, polls.votes);
    }

    /** Store an accepted vote, then finalise the match or re-evaluate the deadlock. */
    method RecordVote(who: Address, matchId: nat, claim: Claim)
      requires Valid() && config.admin.Some?
      requires HasStake(books.registrations, who) && (matchId, who) !in polls.votes
      modifies `books, `polls, `board, `eligibilityVersion, `voteTallies
      ensures Valid()
      ensures old(eligibilityVersion) < U32_MAX ==> View() == Tally(old(View()), who, matchId, claim)
    {
      hide Inv, BooksOk, CacheOk, ListOk, PendingListOk, Slashed, CountVote, Position, Losers, LogEach, Publish,
        TallyOk, Deadlocked;
      ghost var s0 := View();
      Sound(View());
      polls := polls.(votes := polls.votes[(matchId, who) := claim]);
      var cs, idx := AddToTally(Open(polls, matchId).candidates, who, claim);
      assert cs[idx].submitters == Backing(cs, claim);
      if |cs[idx].submitters| >= config.threshold {
        CountedClaims(s0, who, matchId, claim);
        PublishResult(Entry(matchId, cs[idx].claim, None), who);
        AppendEach(cs[idx].submitters, Entry(matchId, cs[idx].claim, None));
        SlashMinority(cs, idx);
        polls := polls.(consensus := Without(polls.consensus, matchId));
        voteTallies := Without(voteTallies, matchId);
        assert View() == Tally(s0, who, matchId, claim) by {
          SlashedBooks(s0.books, old(eligibilityVersion), books, eligibilityVersion, self, config.admin.value,
            Losers(cs, claim));
        }
        TallyInv(s0, who, matchId, claim);
        FinalisedCache(s0.books, old(eligibilityVersion), books, eligibilityVersion, self, config.admin.value,
          Losers(cs, claim),
          old(voteTallies), s0.polls.votes, matchId, who, claim);
        SlashedList(oracleSet, s0.books, old(eligibilityVersion), books, eligibilityVersion, self, config.admin.value,
          Losers(cs, claim));
      } else {
        var remaining := RemainingEligibleOracles(matchId);
        RefreshedCache(eligibilityVersion, old(voteTallies), books.registrations, s0.polls.votes, matchId, who, claim,
          remaining);
        var possible := StillPossible(cs, remaining, config.threshold);
        if !possible {
          board := board.(cache := Without(board.cache, (claim.game, claim.platform)));
        }
        polls := polls.(consensus := polls.consensus[matchId := Consensus(cs, !possible)]);
        OpenInv(s0, who, matchId, claim, !possible, board);
      }
    }

    method SubmitOracleResult(who: Address, matchId: nat, claim: Claim, ms: nat) returns (r: Result<(), Error>)
      requires Valid()
      modifies `books, `polls, `board, `quotas, `eligibilityVersion, `voteTallies
      ensures Valid()
      ensures old(eligibilityVersion) < U32_MAX ==> Took(old(View()), Vote(who, matchId, claim, ms), View(), r)
    {
      hide Inv, BooksOk, CacheOk, ListOk, PendingListOk, Tally, Bill;
      if config.paused {
        return Err(ContractPaused);
      }
      if config.admin.None? {
        return Err(Unauthorized);
      }
      if claim.game == "" {
        return Err(InvalidGameId);
      }
      if who !in books.registrations {
        return Err(NotRegisteredOracle);
      }
      if books.registrations[who].stake <= 0 {
        return Err(InsufficientStake);
      }
      Sound(View());
      StepInv(View(), Vote(who, matchId, claim, ms));
      if matchId in board.results {
        if board.results[matchId].claim == claim {
          return Err(AlreadySubmitted);
        }
        PenaliseAndKeep(who, MINORITY_BPS);
        return Ok(());
      }
      var billed := Bill(quotas, config, time, who, ms);
      if billed.Err? {
        return Err(billed.error);
      }
      if (matchId, who) in polls.votes {
        if polls.votes[(matchId, who)] == claim {
          return Err(AlreadySubmitted);
        }
        quotas := billed.value;
        PenaliseAndKeep(who, EQUIVOCATION_BPS);
        return Ok(());
      }
      if Open(polls, matchId).disputed {
        return Err(MatchDisputed);
      }
      QuotasInv(View(), billed.value);
      quotas := billed.value;
      RecordVote(who, matchId, claim);
      return Ok(());
    }

    method ResolveDisputedMatch(matchId: nat, claim: Claim) returns (r: Result<(), Error>)
      requires Valid()
      modifies `books, `polls, `board, `eligibilityVersion, `voteTallies
      ensures Valid() && Took(old(View()), Resolve(matchId, claim), View(), r)
    {
      hide Inv, BooksOk, CacheOk, ListOk, PendingListOk, Slashed, Publish, Losers, SlashEach, CastVote, SubmitBatch;
      if config.admin.None? {
        return Err(Unauthorized);
      }
      if matchId in board.results {
        return Err(AlreadySubmitted);
      }
      if matchId !in polls.consensus || !polls.consensus[matchId].disputed {
        return Err(MatchNotDisputed);
      }
      ghost var s0, v0 := View(), eligibilityVersion;
      Sound(s0);
      StepInv(s0, Resolve(matchId, claim));
      var cs := polls.consensus[matchId].candidates;
      SlashDisagreeing(cs, claim);
      SlashedBooks(s0.books, v0, books, eligibilityVersion, self, config.admin.value, Losers(cs, claim));
      SlashedList(oracleSet, s0.books, v0, books, eligibilityVersion, self, config.admin.value, Losers(cs, claim));
      PublishResult(Entry(matchId, claim, None), config.admin.value);
      polls := polls.(consensus := Without(polls.consensus, matchId));
      voteTallies := Without(voteTallies, matchId);
      ResolvedCache(s0.books, v0, books, eligibilityVersion, self, config.admin.value, Losers(cs, claim),
        old(voteTallies), polls.votes, matchId);
      return Ok(());
    }

    // ----- results submitted by the admin

    method SubmitResult(e: Entry, ms: nat) returns (r: Result<(), Error>)
      requires Valid()
      modifies `quotas, `board
      ensures Valid() && Took(old(View()), Submit(e, ms), View(), r)
    {
      hide Inv, BooksOk, CacheOk, ListOk, PendingListOk, Bill, Publish, LogSubmission, CastVote, SubmitBatch;
      if config.paused {
        return Err(ContractPaused);
      }
      if config.admin.None? {
        return Err(Unauthorized);
      }
      var admin := config.admin.value;
      if admin in books.registrations && books.registrations[admin].stake <= 0 {
        return Err(InsufficientStake);
      }
      var billed := Bill(quotas, config, time, admin, ms);
      if billed.Err? {
        return Err(billed.error);
      }
      if e.matchId in board.results {
        return Err(AlreadySubmitted);
      }
      if e.claim.game == "" {
        return Err(InvalidGameId);
      }
      StepInv(View(), Submit(e, ms));
      quotas := billed.value;
      PublishResult(e, admin);
      AppendOracleSubmission(admin, e);
      return Ok(());
    }

    /** The first fault of the batch in validation order. */
    method ValidateBatch(es: seq<Entry>) returns (fault: Option<Error>)
      ensures fault == BatchFault(board.results, es, 0)
    {
      for i := 0 to |es|
        invariant BatchFault(board.results, es, 0) == BatchFault(board.results, es, i)
      {
        if es[i].claim.game == "" {
          return Some(InvalidGameId);
        }
        for j := i + 1 to |es|
          invariant forall k :: i < k < j ==> es[k].matchId != es[i].matchId
        {
          if es[j].matchId == es[i].matchId {
            return Some(BatchDuplicateEntry);
          }
        }
        if es[i].matchId in board.results {
          return Some(AlreadySubmitted);
        }
      }
      return None;
    }

    method CommitBatch(admin: Address, es: seq<Entry>)
      modifies `board
      ensures board == CommitAll(old(board), admin, es, ledger, time)
    {
      hide Publish, LogSubmission;
      for i := 0 to |es|
        invariant board == CommitAll(old(board), admin, es[..i], ledger, time)
      {
        assert es[..i + 1][..i] == es[..i];
        PublishResult(es[i], admin);
        AppendOracleSubmission(admin, es[i]);
      }
      assert es[..|es|] == es;
    }

    method SubmitBatchResults(es: seq<Entry>) returns (r: Result<(), Error>)
      requires Valid()
      modifies `quotas, `board
      ensures Valid() && Took(old(View()), Batch(es), View(), r)
    {
      hide Inv, BooksOk, CacheOk, ListOk, PendingListOk, Charge, BatchFault, CommitAll, CastVote;
      if config.paused {
        return Err(ContractPaused);
      }
      if config.admin.None? {
        return Err(Unauthorized);
      }
      var admin := config.admin.value;
      if admin in books.registrations && books.registrations[admin].stake <= 0 {
        return Err(InsufficientStake);
      }
      if |es| > MAX_BATCH_SIZE {
        return Err(BatchTooLarge);
      }
      var charged := Charge(quotas, config, time, admin, |es|);
      if charged.None? {
        return Err(RateLimitExceeded);
      }
      var fault := ValidateBatch(es);
      if fault.Some? {
        return Err(fault.value);
      }
      StepInv(View(), Batch(es));
      quotas := charged.value;
      CommitBatch(admin, es);
      return Ok(());
    }

    method DeleteResult(matchId: nat) returns (r: Result<(), Error>)
      requires Valid()
      modifies `board
      ensures Valid() && Took(old(View()), Delete(matchId), View(), r)
    {
      hide Inv, BooksOk, CacheOk, ListOk, PendingListOk, CastVote, SubmitBatch;
      if config.paused {
        return Err(ContractPaused);
      }
      if config.admin.None? {
        return Err(Unauthorized);
      }
      if matchId !in board.results {
        return Err(ResultNotFound);
      }
      StepInv(View(), Delete(matchId));
      var claim := board.results[matchId].claim;
      board := board.(cache := Without(board.cache, (claim.game, claim.platform)));
      board := board.(results := Without(board.results, matchId));
      return Ok(());
    }

    method DeactivateSlowOracle(who: Address) returns (r: Result<(), Error>)
      requires Valid()
      modifies `quotas
      ensures Valid() && Took(old(View()), Deactivate(who), View(), r)
    {
      hide Inv, BooksOk, CacheOk, ListOk, PendingListOk, CastVote, SubmitBatch;
      if config.admin.None? {
        return Err(Unauthorized);
      }
      if who !in quotas.metrics {
        return Err(ResultNotFound);
      }
      if quotas.metrics[who].average <= config.slaThreshold {
        return Err(OracleNotSlow);
      }
      StepInv(View(), Deactivate(who));
      quotas := quotas.(metrics := quotas.metrics[who := quotas.metrics[who].(active := false)]);
      return Ok(());
    }

    // ----- settings, clocks and other accounts

    /** The admin setters: the new settings apply from the next transaction on. */
    method SetConfig(settings: Config)
      requires Valid() && settings.threshold >= 1 && settings.admin != Some(self)
      modifies `config
      ensures Valid() && View() == Step(old(View()), Configure(settings))
    {
      hide Inv, CacheOk, ListOk, PendingListOk, CastVote, SubmitBatch;
      StepInv(View(), Configure(settings));
      config := settings;
    }

    /** A later ledger. */
    method NextLedger(sequence: nat, timestamp: nat)
      requires Valid() && sequence >= ledger && timestamp >= time
      modifies `ledger, `time
      ensures Valid() && View() == Step(old(View()), Advance(sequence, timestamp))
    {
      hide Inv, CacheOk, ListOk, PendingListOk, CastVote, SubmitBatch;
      StepInv(View(), Advance(sequence, timestamp));
      ledger, time := sequence, timestamp;
    }

    /** A token transfer between other accounts. */
    method OtherTransfer(token: Address, src: Address, dst: Address, amount: int)
      requires Valid() && src != self && dst != self
      modifies `books
      ensures Valid() && View() == Step(old(View()), Outside(token, src, dst, amount))
    {
      hide Inv, CacheOk, ListOk, PendingListOk, CastVote, SubmitBatch;
      StepInv(View(), Outside(token, src, dst, amount));
      var moved := Transfer(books.balances, token, src, dst, amount);
      if moved.Some? {
        books := books.(balances := moved.value);
      }
    }
  }
}
