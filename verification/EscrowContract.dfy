/** The escrow contract as it is coded: match records and balances updated in place together with the
    per-state index, the active set and its counters, and the snapshot rings. Every entry point is
    proved to take the corresponding step of EscrowModel. */
module EscrowContract {
  import opened Prelude
  import opened EscrowModel
  import opened EscrowInvariants
  import opened EscrowRuns
  import opened BalanceHistory
  import opened MatchIndex

  // ----- derived structures

  /** The index is right once match `id` is taken to be in state `st`. */
  ghost predicate IndexFor(index: Index, matches: map<nat, Match>, id: nat, st: MatchState) {
    forall to: MatchState :: ListsFor(Lookup(index, to, []), matches, id, st, to)
  }

  ghost predicate ListsFor(ids: seq<nat>, matches: map<nat, Match>, id: nat, st: MatchState, to: MatchState) {
    && Ascending(ids)
    && forall k :: k in ids <==> (if k == id then st == to else k in matches && matches[k].state == to)
  }

  /** The index is right for every match but `id`, which no list holds. */
  ghost predicate IndexLacks(index: Index, matches: map<nat, Match>, id: nat) {
    forall to: MatchState :: ListsOthers(Lookup(index, to, []), matches, id, to)
  }

  ghost predicate ListsOthers(ids: seq<nat>, matches: map<nat, Match>, id: nat, to: MatchState) {
    Ascending(ids) && forall k :: k in ids <==> k != id && k in matches && matches[k].state == to
  }

  lemma IndexFresh(index: Index, matches: map<nat, Match>, id: nat)
    requires IndexOk(index, matches) && id !in matches
    ensures IndexLacks(index, matches, id)
  {
    forall to: MatchState
      ensures ListsOthers(Lookup(index, to, []), matches, id, to)
    {
      assert Lists(Lookup(index, to, []), matches, to);
    }
  }

  lemma IndexOpen(index: Index, matches: map<nat, Match>, id: nat)
    requires IndexOk(index, matches) && id in matches
    ensures IndexFor(index, matches, id, matches[id].state)
  {
    forall to: MatchState
      ensures ListsFor(Lookup(index, to, []), matches, id, matches[id].state, to)
    {
      assert Lists(Lookup(index, to, []), matches, to);
    }
  }

  lemma IndexClose(index: Index, matches: map<nat, Match>, id: nat, m: Match)
    requires IndexFor(index, matches, id, m.state)
    ensures IndexOk(index, matches[id := m])
  {
    forall to: MatchState
      ensures Lists(Lookup(index, to, []), matches[id := m], to)
    {
      assert ListsFor(Lookup(index, to, []), matches, id, m.state, to);
    }
  }

  type ActiveSets = map<Address, set<nat>>

  /** Membership keys and counters of the active set agree with the match map. */
  ghost predicate ActiveOk(active: ActiveSets, counts: map<Address, nat>, matches: map<nat, Match>) {
    forall p: Address :: ActiveFor(Lookup(active, p, {}), Lookup(counts, p, 0), ActiveOf(matches, p))
  }

  ghost predicate ActiveFor(active: set<nat>, count: nat, ids: set<nat>) {
    active == ids && count == |ids|
  }

  /** A match that stays live or stays not live leaves the active set alone. */
  lemma ActiveSame(active: ActiveSets, counts: map<Address, nat>, matches: map<nat, Match>, id: nat, m: Match)
    requires ActiveOk(active, counts, matches)
    requires if id in matches then Live(m.state) == Live(matches[id].state) && m.terms == matches[id].terms
      else !Live(m.state)
    ensures ActiveOk(active, counts, matches[id := m])
  {
    forall p: Address
      ensures ActiveFor(Lookup(active, p, {}), Lookup(counts, p, 0), ActiveOf(matches[id := m], p))
    {
      assert ActiveFor(Lookup(active, p, {}), Lookup(counts, p, 0), ActiveOf(matches, p));
      assert ActiveOf(matches[id := m], p) == ActiveOf(matches, p);
    }
  }

  /** One match going live or ceasing to be live. */
  lemma ActiveOfUpdate(matches: map<nat, Match>, id: nat, m: Match, p: Address)
    requires id in matches && (Live(matches[id].state) ==> m.terms == matches[id].terms)
    ensures id in ActiveOf(matches, p) <==> Live(matches[id].state) && Plays(matches[id], p)
    ensures ActiveOf(matches[id := m], p) ==
      if Live(m.state) && Plays(m, p) then ActiveOf(matches, p) + {id} else ActiveOf(matches, p) - {id}
  {
  }

  function Joined(active: ActiveSets, p: Address, id: nat): ActiveSets {
    active[p := Lookup(active, p, {}) + {id}]
  }

  function Bumped(counts: map<Address, nat>, p: Address): map<Address, nat> {
    counts[p := Lookup(counts, p, 0) + 1]
  }

  lemma ActiveAdded(active: ActiveSets, counts: map<Address, nat>, matches: map<nat, Match>, id: nat, m: Match)
    requires ActiveOk(active, counts, matches) && id in matches && !Live(matches[id].state) && Live(m.state)
    requires m.terms.player1 != m.terms.player2
    ensures ActiveOk(Joined(Joined(active, m.terms.player1, id), m.terms.player2, id),
                     Bumped(Bumped(counts, m.terms.player1), m.terms.player2), matches[id := m])
  {
    hide ActiveOf;
    var active' := Joined(Joined(active, m.terms.player1, id), m.terms.player2, id);
    var counts' := Bumped(Bumped(counts, m.terms.player1), m.terms.player2);
    forall p: Address
      ensures ActiveFor(Lookup(active', p, {}), Lookup(counts', p, 0), ActiveOf(matches[id := m], p))
    {
      assert ActiveFor(Lookup(active, p, {}), Lookup(counts, p, 0), ActiveOf(matches, p));
      ActiveOfUpdate(matches, id, m, p);
    }
  }

  /** `remove_active_match_indexed`. */
  function Left(active: ActiveSets, p: Address, id: nat): ActiveSets {
    if id in Lookup(active, p, {}) then active[p := Lookup(active, p, {}) - {id}] else active
  }

  function Dropped(active: ActiveSets, counts: map<Address, nat>, p: Address, id: nat): map<Address, nat> {
    if id in Lookup(active, p, {}) && Lookup(counts, p, 0) > 0 then counts[p := Lookup(counts, p, 0) - 1] else counts
  }

  lemma ActiveRemoved(active: ActiveSets, counts: map<Address, nat>, matches: map<nat, Match>, id: nat, m: Match)
    requires ActiveOk(active, counts, matches) && id in matches && m.terms == matches[id].terms && !Live(m.state)
    requires m.terms.player1 != m.terms.player2
    ensures var active1 := Left(active, m.terms.player1, id);
      ActiveOk(Left(active1, m.terms.player2, id),
               Dropped(active1, Dropped(active, counts, m.terms.player1, id), m.terms.player2, id), matches[id := m])
  {
    hide ActiveOf;
    var active1 := Left(active, m.terms.player1, id);
    var active' := Left(active1, m.terms.player2, id);
    var counts' := Dropped(active1, Dropped(active, counts, m.terms.player1, id), m.terms.player2, id);
    forall p: Address
      ensures ActiveFor(Lookup(active', p, {}), Lookup(counts', p, 0), ActiveOf(matches[id := m], p))
    {
      assert ActiveFor(Lookup(active, p, {}), Lookup(counts, p, 0), ActiveOf(matches, p));
      ActiveOfUpdate(matches, id, m, p);
    }
  }

  ghost predicate RingsOk(rings: map<Address, Ring>, log: Log) {
    forall p: Address :: RingOk(Lookup(rings, p, EMPTY_RING), Lookup(log, p, []))
  }

  lemma RingsRecorded(rings: map<Address, Ring>, log: Log, p: Address, snap: Snap)
    requires RingsOk(rings, log)
    ensures RingsOk(rings[p := Record(Lookup(rings, p, EMPTY_RING), snap)], log[p := Lookup(log, p, []) + [snap]])
  {
    hide Record;
    var rings', log' := rings[p := Record(Lookup(rings, p, EMPTY_RING), snap)], log[p := Lookup(log, p, []) + [snap]];
    forall q: Address
      ensures RingOk(Lookup(rings', q, EMPTY_RING), Lookup(log', q, []))
    {
      assert RingOk(Lookup(rings, q, EMPTY_RING), Lookup(log, q, []));
      if q == p {
        RecordKeepsRing(Lookup(rings, p, EMPTY_RING), Lookup(log, p, []), snap);
      }
    }
  }

  // ----- outcomes

  ghost predicate Took(s: State, op: Op, s': State, r: Result<(), Error>) {
    && s' == Step(s, Call(op))
    && (r.Ok? <==> Perform(s, op).Ok?)
    && (r.Err? ==> r.error == Perform(s, op).error)
  }

  lemma Refused(s: State, op: Op, error: Error)
    requires
      || Attempt(s, op) == Err(error)
      || (Attempt(s, op).Ok? && PayAll(s.balances, Attempt(s, op).value.pays).None? && error == TransferFailed)
    ensures Took(s, op, s, Err(error))
  {
    hide Attempt, PayAll;
  }

  lemma Accepted(s: State, op: Op, e: Effect, s': State)
    requires Inv(s) && Legal(s, Call(op)) && Attempt(s, op) == Ok(e) && PayAll(s.balances, e.pays).Some?
    requires s' == s.(core := e.core, docket := e.docket, balances := PayAll(s.balances, e.pays).value)
    ensures Took(s, op, s', Ok(())) && Inv(s')
  {
    hide Attempt, PayAll, Inv;
    CallKeeps(s, op);
  }

  lemma FreshId(s: State)
    requires Inv(s)
    ensures s.core.count !in s.core.matches
  {
  }

  lemma PayNothing(b: Balances)
    ensures PayAll(b, []) == Some(b)
  {
  }

  lemma PayOne(b: Balances, p: Pay)
    ensures PayAll(b, [p]) == Transfer(b, p.token, p.src, p.dst, p.amount)
  {
    assert [p][1..] == [];
  }

  /** What a deposit may rely on once its checks have passed. */
  lemma DepositChecked(s: State, id: nat, p: Address)
    requires DepositFault(s, id, p).None? && Inv(s)
    ensures var m := s.core.matches[id];
      var m1 := WithDeposit(m, p, s.time);
      && m.state == Pending && m1.state == Pending && m1.terms == m.terms && m.terms.player1 != m.terms.player2
      && Activated(m1, s.time).terms == m.terms && Activated(m1, s.time).state == Active
      && Transfer(s.balances, m.terms.token, p, s.self, m.terms.stake).Some?
  {
    hide AtCap, TierAllows;
    ReadyAt(s, id);
  }

  lemma PutTwice(c: Core, id: nat, m1: Match, m2: Match, m: Match)
    ensures Put(CountBoth(Put(c, id, m1), m), id, m2) == CountBoth(Put(c, id, m2), m)
    ensures id in CountBoth(Put(c, id, m1), m).matches && CountBoth(Put(c, id, m1), m).matches[id] == m1
  {
    assert c.matches[id := m1][id := m2] == c.matches[id := m2];
  }

  lemma ActiveCounts(active: ActiveSets, counts: map<Address, nat>, matches: map<nat, Match>, p: Address)
    requires ActiveOk(active, counts, matches)
    ensures Lookup(counts, p, 0) == |ActiveOf(matches, p)|
  {
    assert ActiveFor(Lookup(active, p, {}), Lookup(counts, p, 0), ActiveOf(matches, p));
  }

  /** A check phase found the first fault, if there is one. */
  ghost predicate Judged(r: Result<Effect, Error>, fault: Option<Error>) {
    if fault.Some? then r == Err(fault.value) else r.Ok?
  }

  lemma RollbackShape(s: State, id: nat, p: Address, reasonLen: nat)
    requires Inv(s) && Rollback(s, id, p, reasonLen).Ok?
    ensures id in s.core.matches
    ensures var m, e := s.core.matches[id], Rollback(s, id, p, reasonLen).value;
      var m1 := Consent(m, p);
      && m.state == Active && m.terms.player1 != m.terms.player2
      && e == if !m1.rollback1 || !m1.rollback2 then Effect(Put(s.core, id, m1), s.docket, [])
              else Effect(SnapshotDeposited(Put(s.core, id, CalledOff(m1, s.ledger)), m1, s.ledger), s.docket,
                          RefundDeposited(s.self, s.config.fees.treasury, m1, 0))
  {
    hide RefundDeposited, SnapshotDeposited, CalledOff, Put, Inv;
    ReadyAt(s, id);
  }

  lemma SettleShape(s: State, id: nat, winner: Winner, p: Address)
    requires Inv(s) && Settle(s, id, winner, p).Ok?
    ensures id in s.core.matches
    ensures var m := s.core.matches[id];
      && Live(m.state) && m.terms.player1 != m.terms.player2
      && SettledNow(s, id, winner).docket == s.docket
      && SettledNow(s, id, winner).pays == [] && SettledLater(s, id, winner).pays == []
      && Settle(s, id, winner, p).value == if s.config.disputePeriod == 0 then SettledNow(s, id, winner)
        else SettledLater(s, id, winner)
  {
    hide Inv;
    ReadyAt(s, id);
  }

  lemma StalledShape(s: State, id: nat, p: Address, winner: Winner)
    requires Inv(s) && ResolveStalled(s, id, p, winner).Ok?
    ensures id in s.core.matches
    ensures var m := s.core.matches[id];
      var m1 := m.(state := Completed, winner := winner, timing := m.timing.(completedAt := Some(s.ledger)));
      var c := SnapshotBoth(Put(s.core, id, m1), m, s.ledger);
      && m.terms.player1 != m.terms.player2
      && ResolveStalled(s, id, p, winner).value ==
           Effect(if winner == Draw then c else CountBoth(c, m), s.docket, Payout(s.self, m, winner))
  {
    hide Inv, Put, SnapshotBoth, CountBoth, Payout;
    ReadyAt(s, id);
  }

  /** A successful finalisation, spelt out. */
  ghost predicate FinalizeShape(s: State, id: nat, s': State) {
    && id in s.core.matches && id in s.docket.winner
    && var m := s.core.matches[id];
       var m1 := m.(state := Completed, timing := m.timing.(completedAt := Some(s.ledger)));
       var b := PayAll(s.balances, Payout(s.self, m, s.docket.winner[id]));
       && b.Some?
       && s' == s.(core := SnapshotBoth(CountBoth(ReleaseBoth(Put(s.core, id, m1), m), m), m, s.ledger),
         balances := b.value)
  }

  lemma FinalizeFacts(s: State, id: nat)
    requires Inv(s) && Finalize(s, id).Ok?
    ensures id in s.core.matches && id in s.docket.winner
    ensures s.core.matches[id].terms.player1 != s.core.matches[id].terms.player2
    ensures Finalize(s, id).value.pays == Payout(s.self, s.core.matches[id], s.docket.winner[id])
  {
    hide Inv, Put, SnapshotBoth, CountBoth, ReleaseBoth, Payout;
    ReadyAt(s, id);
  }

  lemma FinalizeDone(s: State, id: nat, s': State)
    requires Inv(s) && Finalize(s, id).Ok? && FinalizeShape(s, id, s')
    ensures Took(s, EscrowModel.FinalizeMatch(id), s', Ok(())) && Inv(s')
  {
    hide Inv, Put, SnapshotBoth, CountBoth, ReleaseBoth, Payout, PayAll, Took;
    Accepted(s, EscrowModel.FinalizeMatch(id), Finalize(s, id).value, s');
  }

  /** A newly raised dispute, spelt out. */
  ghost predicate DisputeShape(s: State, id: nat, p: Address, s': State) {
    && id in s.core.matches
    && var m, d := s.core.matches[id], s.docket.disputeCount;
       var bond := BondFor(s.config.stakes, m.terms.stake);
       var moved := Transfer(s.balances, m.terms.token, p, s.self, bond);
       && moved.Some?
       && s' == s.(balances := moved.value, docket := s.docket.(
            byMatch := s.docket.byMatch[id := d], disputeCount := d + 1, ballots := s.docket.ballots[d := map[]],
            disputes := s.docket.disputes[d :=
              Dispute(id, p, bond, 0, 0, Ongoing, s.ledger, s.ledger + VOTING_PERIOD_LEDGERS,
                      BalanceOf(moved.value, m.terms.token, s.self) * s.config.quorumBps / 10_000)]))
  }

  lemma DisputeFacts(s: State, id: nat, p: Address, hashOk: bool)
    requires Inv(s) && OpenDispute(s, id, p, hashOk).Ok?
    ensures id in s.core.matches
    ensures var m := s.core.matches[id];
      Transfer(s.balances, m.terms.token, p, s.self, BondFor(s.config.stakes, m.terms.stake)).Some?
  {
    hide Inv, BondRate;
  }

  lemma DisputeDone(s: State, id: nat, p: Address, hashOk: bool, s': State)
    requires Inv(s) && OpenDispute(s, id, p, hashOk).Ok? && DisputeShape(s, id, p, s')
    ensures Took(s, RaiseDispute(id, p, hashOk), s', Ok(())) && Inv(s')
  {
    hide Inv, BondRate, BondFor, PayAll, Took;
    var m := s.core.matches[id];
    PayOne(s.balances, Pay(m.terms.token, p, s.self, BondFor(s.config.stakes, m.terms.stake)));
    assert p != s.self by { PlayersOutside(s, id); }
    Accepted(s, RaiseDispute(id, p, hashOk), OpenDispute(s, id, p, hashOk).value, s');
  }

  lemma PlayersOutside(s: State, id: nat)
    requires Inv(s) && id in s.core.matches
    ensures forall p: Address :: Plays(s.core.matches[id], p) ==> p != s.self
  {
    ReadyAt(s, id);
  }

  lemma VoteDone(s: State, d: nat, voter: Address, vote: bool, weight: int, s': State)
    requires Inv(s) && Cast(s, d, voter, vote).Ok? && d in s.docket.disputes
    requires var at := SatSub(s.docket.disputes[d].snapshotLedger, s.config.holdDuration);
      WeightAt(Lookup(s.core.log, voter, []), at) == Some(weight)
    requires var dispute := s.docket.disputes[d];
      s' == s.(docket := s.docket.(
        ballots := s.docket.ballots[d := Lookup(s.docket.ballots, d, map[])[voter := Ballot(vote, weight)]],
        disputes := s.docket.disputes[d :=
          if vote then dispute.(yes := dispute.yes + weight) else dispute.(no := dispute.no + weight)]))
    ensures Took(s, VoteDispute(d, voter, vote), s', Ok(())) && Inv(s')
  {
    hide Inv, WeightAt, PayAll, Took;
    PayNothing(s.balances);
    Accepted(s, VoteDispute(d, voter, vote), Cast(s, d, voter, vote).value, s');
  }

  lemma ResolveShape(s: State, d: nat)
    requires Inv(s) && ResolveDispute(s, d).Ok?
    ensures d in s.docket.disputes
    ensures var dispute := s.docket.disputes[d];
      var id := dispute.matchId;
      && id in s.core.matches && id in s.docket.winner
      && var m := s.core.matches[id];
         var m1 := m.(state := Completed, timing := m.timing.(completedAt := Some(s.ledger)));
         && m.terms.player1 != m.terms.player2
         && ResolveDispute(s, d).value ==
              Effect(CountBoth(Put(s.core, id, m1), m),
                s.docket.(disputes := s.docket.disputes[d := Resolved(dispute)]),
                     ResolutionPays(s.self, s.config.fees.treasury, m, dispute, s.docket.winner[id]))
  {
    hide Inv, Put, CountBoth, ResolutionPays, Resolved;
    ReadyAt(s, s.docket.disputes[d].matchId);
  }

  /** The rate is that of the first tier that covers the stake, or of the last tier when none does. */
  lemma {:induction false} TierIsFirst(tiers: seq<BondTier>, stake: int, i: nat)
    requires i < |tiers| && (stake <= tiers[i].maxStake || i == |tiers| - 1)
    requires forall k :: 0 <= k < i ==> tiers[k].maxStake < stake
    ensures TierBps(tiers, stake) == tiers[i].bps
    decreases |tiers|
  {
    if i > 0 {
      TierIsFirst(tiers[1..], stake, i - 1);
    }
  }

  /** The rate of the first bond tier that covers the stake, else of the last one. */
  method BondBasisPoints(st: Stakes, stake: int) returns (bps: nat)
    ensures bps == BondRate(st, stake)
  {
    if st.tiers == [] {
      return st.bondBps;
    }
    for i := 0 to |st.tiers|
      invariant i < |st.tiers| ==> TierBps(st.tiers, stake) == TierBps(st.tiers[i..], stake)
      invariant i == |st.tiers| ==> TierBps(st.tiers, stake) == st.tiers[|st.tiers| - 1].bps
    {
      if stake <= st.tiers[i].maxStake {
        return st.tiers[i].bps;
      }
      assert st.tiers[i..][1..] == st.tiers[i + 1..];
    }
    return st.tiers[|st.tiers| - 1].bps;
  }

  /** Carry out a transaction's transfers one after the other. */
  method TransferAll(balances: Balances, pays: seq<Pay>) returns (paid: Option<Balances>)
    ensures paid == PayAll(balances, pays)
  {
    var b := balances;
    for i := 0 to |pays|
      invariant PayAll(b, pays[i..]) == PayAll(balances, pays)
    {
      assert pays[i..][1..] == pays[i + 1..];
      var moved := Transfer(b, pays[i].token, pays[i].src, pays[i].dst, pays[i].amount);
      if moved.None? {
        return None;
      }
      b := moved.value;
    }
    return Some(b);
  }

  /** Add the finished pause to the match's pause budget. */
  method EndPause(timing: Timing, ledger: nat) returns (t: Timing)
    ensures t == Resumed(timing, ledger)
  {
    t := timing;
    if timing.pausedAt.Some? {
      var duration := SatSub(ledger, timing.pausedAt.value);
      t := t.(pauseTotal := SatAdd32(t.pauseTotal, duration));
    }
    t := t.(pausedAt := None);
  }

  /** The stored records other than the snapshot log, which is kept only as rings. */
  datatype Store = Store(
    matches: map<nat, Match>, count: nat, games: set<string>, completed: map<Address, nat>, counter: map<Address, int>)

  class EscrowContract {
    const self: Address
    var config: Config
    var store: Store
    var docket: Docket
    var balances: Balances
    var ledger: nat
    var time: nat

    // Kept for speed; each is determined by the records above and the log.
    var index: Index
    var active: ActiveSets
    var activeCount: map<Address, nat>
    var rings: map<Address, Ring>
    ghost var log: Log

    ghost function CoreView(): Core
      reads this
    {
      Core(store.matches, store.count, store.games, store.completed, store.counter, log)
    }

    ghost function View(): State
      reads this
    {
      State(self, config, CoreView(), docket, balances, ledger, time)
    }

    ghost predicate Valid()
      reads this
    {
      && Inv(View())
      && IndexOk(index, store.matches)
      && ActiveOk(active, activeCount, store.matches)
      && RingsOk(rings, log)
    }

    /** A newly initialised contract. */
    constructor (address: Address, settings: Config, held: Balances, now: nat, clock: nat)
      requires ConfigOk(settings, address)
      ensures Valid()
      ensures View() == State(address, settings, Core(map[], 0, {}, map[], map[], map[]),
                              Docket(map[], map[], map[], map[], 0, map[]), held, now, clock)
    {
      self := address;
      config, store := settings, Store(map[], 0, {}, map[], map[]);
      docket := Docket(map[], map[], map[], map[], 0, map[]);
      balances, ledger, time := held, now, clock;
      index, active, activeCount, rings, log := map[], map[], map[], map[], map[];
      new;
      FreshInv(View());
      forall p: Address
        ensures ActiveOf(store.matches, p) == {}
      {
      }
    }

    // ----- reads

    /** The page of a state's matches, out of the whole filtered match map. */
    method GetMatchesPage(st: MatchState, offset: nat, limit: nat) returns (page: seq<Match>)
      requires Valid() && |Lookup(index, st, [])| <= U32_MAX
      ensures forall i :: 0 <= i < |Slice(Filtered(store.matches, st, store.count), offset, limit)| ==>
        Slice(Filtered(store.matches, st, store.count), offset, limit)[i] in store.matches
      ensures page == Resolve(store.matches, Slice(Filtered(store.matches, st, store.count), offset, limit))
    {
      hide Filtered, Slice, CountersOk, DocketOk, WithinCap, LogOk, MatchOk, ActiveOk, RingsOk;
      IndexIsFilter(index, store.matches, st, store.count);
      page := CollectPage(index, store.matches, st, offset, limit);
    }

    /** A player's balance at a past ledger, out of the full log. */
    method GetPlayerBalance(player: Address, t: nat) returns (r: BalanceAt)
      requires Valid()
      ensures r == LoggedBalance(Lookup(log, player, []), t)
    {
      assert RingOk(Lookup(rings, player, EMPTY_RING), Lookup(log, player, []));
      r := GetBalanceAtTimestamp(Lookup(rings, player, EMPTY_RING), t, Lookup(log, player, []));
    }

    // ----- storage helpers

    method PutMatch(id: nat, m: Match)
      modifies `store
      ensures CoreView() == Put(old(CoreView()), id, m) && store.matches == old(store.matches)[id := m]
    {
      store := store.(matches := store.matches[id := m]);
    }

    method UpdatePlayerEscrowBalance(p: Address, delta: int)
      modifies `store
      ensures CoreView() == Adjust(old(CoreView()), p, delta) && store.matches == old(store.matches)
    {
      store := store.(counter := store.counter[p := Lookup(store.counter, p, 0) + delta]);
    }

    method RecordCompletedMatch(p: Address)
      modifies `store
      ensures CoreView() == CountCompleted(old(CoreView()), p) && store.matches == old(store.matches)
    {
      store := store.(completed := store.completed[p := SatAdd32(Lookup(store.completed, p, 0), 1)]);
    }

    /** Overwrite the slot of the next index; the ring stays in step with the log. */
    method RecordPlayerSnapshot(p: Address)
      requires RingsOk(rings, log)
      modifies `rings, `log
      ensures CoreView() == Snapshot(old(CoreView()), p, ledger) && RingsOk(rings, log)
    {
      var ring := Lookup(rings, p, EMPTY_RING);
      var balance := Lookup(store.counter, p, 0);
      var slot := ring.count % MAX_SNAPSHOTS;
      RingsRecorded(rings, log, p, Snap(ledger, balance));
      rings := rings[p := Ring(ring.count + 1, ring.slots[slot := Slot(ring.count, ledger, balance)])];
      log := log[p := Lookup(log, p, []) + [Snap(ledger, balance)]];
    }

    method AddMatchToIndex(st: MatchState, id: nat, ghost matches: map<nat, Match>)
      requires IndexLacks(index, matches, id)
      modifies `index
      ensures IndexFor(index, matches, id, st)
    {
      assert ListsOthers(Lookup(index, st, []), matches, id, st);
      var ids := SortedInsert(Lookup(index, st, []), id);
      index := index[st := ids];
      forall to: MatchState
        ensures ListsFor(Lookup(index, to, []), matches, id, st, to)
      {
        assert ListsOthers(Lookup(old(index), to, []), matches, id, to);
      }
    }

    method RemoveMatchFromIndex(st: MatchState, id: nat)
      requires Ascending(Lookup(index, st, []))
      modifies `index
      ensures forall to: MatchState :: to != st ==> Lookup(index, to, []) == Lookup(old(index), to, [])
      ensures Ascending(Lookup(index, st, [])) && forall k :: k in Lookup(index, st, []) <==>
        k in Lookup(old(index), st, []) && k != id
    {
      var remaining := Strike(Lookup(index, st, []), id);
      if remaining == [] {
        index := index - {st};
      } else {
        index := index[st := remaining];
      }
    }

    /** Move a match from one state's list to another's. */
    method SetMatchState(id: nat, from: MatchState, to: MatchState, ghost matches: map<nat, Match>)
      requires IndexFor(index, matches, id, from)
      modifies `index
      ensures IndexFor(index, matches, id, to)
    {
      if from == to {
        return;
      }
      assert ListsFor(Lookup(index, from, []), matches, id, from, from);
      RemoveMatchFromIndex(from, id);
      forall st: MatchState
        ensures ListsOthers(Lookup(index, st, []), matches, id, st)
      {
        assert ListsFor(Lookup(old(index), st, []), matches, id, from, st);
      }
      AddMatchToIndex(to, id, matches);
    }

    method AddActiveMatch(p: Address, id: nat)
      modifies `active, `activeCount
      ensures active == Joined(old(active), p, id) && activeCount == Bumped(old(activeCount), p)
    {
      active := active[p := Lookup(active, p, {}) + {id}];
      activeCount := activeCount[p := Lookup(activeCount, p, 0) + 1];
    }

    method RemoveActiveMatch(p: Address, id: nat)
      modifies `active, `activeCount
      ensures active == Left(old(active), p, id) && activeCount == Dropped(old(active), old(activeCount), p, id)
    {
      if id in Lookup(active, p, {}) {
        active := active[p := Lookup(active, p, {}) - {id}];
        var count := Lookup(activeCount, p, 0);
        if count > 0 {
          activeCount := activeCount[p := count - 1];
        }
      }
    }

    /** Both stakes are in: the match becomes active for both players. */
    method Activate(id: nat, m: Match) returns (m1: Match)
      requires IndexFor(index, store.matches, id, m.state) && ActiveOk(active, activeCount, store.matches)
      requires id in store.matches && !Live(store.matches[id].state) && m.terms.player1 != m.terms.player2
      modifies `index, `active, `activeCount
      ensures m1 == Activated(m, time)
      ensures IndexFor(index, store.matches, id, Active) && ActiveOk(active, activeCount, store.matches[id := m1])
    {
      hide IndexFor, ActiveOk, Joined, Bumped;
      SetMatchState(id, m.state, Active, store.matches);
      m1 := m.(state := Active, timing := m.timing.(activatedAt := Some(time)));
      AddActiveMatch(m.terms.player1, id);
      AddActiveMatch(m.terms.player2, id);
      ActiveAdded(old(active), old(activeCount), store.matches, id, m1);
    }

    // ----- lifecycle

    method CheckCreate(t: Terms, platform: Platform) returns (fault: Option<Error>)
      ensures fault == CreateFault(View(), t, platform)
    {
      if config.paused { return Some(ContractPaused); }
      if t.player1 in config.frozen { return Some(PlayerFrozen); }
      if t.player2 in config.frozen { return Some(PlayerFrozen); }
      if t.token in config.blocked { return Some(TokenNotAllowed); }
      if config.allowed.Some? && t.token !in config.allowed.value { return Some(TokenNotAllowed); }
      if config.stablecoins.Some? && t.token !in config.stablecoins.value { return Some(NotStablecoin); }
      if t.stake < config.stakes.minimum { return Some(InvalidAmount); }
      if config.stakes.maximum.Some? && t.stake > config.stakes.maximum.value { return Some(InvalidAmount); }
      if t.referrer.Some? && t.referrer.value in {t.player1, t.player2, self} {
        return Some(InvalidAddress);
      }
      var allowed1 := CheckTier(t.player1, t.stake);
      if !allowed1 { return Some(TierStakeNotAllowed); }
      var allowed2 := CheckTier(t.player2, t.stake);
      if !allowed2 { return Some(TierStakeNotAllowed); }
      if !GameIdOk(t.game, platform) { return Some(InvalidGameId); }
      if t.player1 == t.player2 || t.player2 == self { return Some(InvalidPlayers); }
      if t.game in store.games { return Some(DuplicateGameId); }
      return None;
    }

    method CheckTier(p: Address, stake: int) returns (allowed: bool)
      ensures allowed == TierAllows(CoreView(), p, stake)
    {
      var bounds := TierBounds(Lookup(store.completed, p, 0));
      allowed := bounds.0 <= stake && stake <= bounds.1;
    }

    method CreateMatch(t: Terms, platform: Platform) returns (r: Result<(), Error>)
      requires Valid() && t.player1 != self
      modifies `store, `index
      ensures Valid() && Took(old(View()), EscrowModel.CreateMatch(t, platform), View(), r)
    {
      hide Inv, Took, CreateFault, ActiveOk, RingsOk, PayAll, IndexOk, IndexFor, IndexLacks;
      ghost var s0, op := View(), EscrowModel.CreateMatch(t, platform);
      var terms := t.(created := ledger);
      var fault := CheckCreate(terms, platform);
      if fault.Some? {
        Refused(s0, op, fault.value);
        return Err(fault.value);
      }
      var id := store.count;
      var m := NewMatch(terms, time);
      FreshId(s0);
      PayNothing(balances);
      PutMatch(id, m);
      IndexFresh(index, s0.core.matches, id);
      AddMatchToIndex(Pending, id, s0.core.matches);
      store := store.(count := id + 1, games := store.games + {t.game});
      IndexClose(index, s0.core.matches, id, m);
      ActiveSame(active, activeCount, s0.core.matches, id, m);
      Accepted(s0, op, Create(s0, t, platform).value, View());
      return Ok(());
    }

    method CheckDeposit(id: nat, player: Address) returns (fault: Option<Error>)
      requires ActiveOk(active, activeCount, store.matches)
      ensures fault == DepositFault(View(), id, player)
    {
      hide ActiveOk, ActiveOf, TierAllows;
      if config.paused { return Some(ContractPaused); }
      if player in config.frozen { return Some(PlayerFrozen); }
      if id !in store.matches { return Some(MatchNotFound); }
      var m := store.matches[id];
      if m.deposited1 && m.deposited2 { return Some(AlreadyFunded); }
      if m.state != Pending { return Some(InvalidState); }
      var isP1, isP2 := player == m.terms.player1, player == m.terms.player2;
      if !isP1 && !isP2 { return Some(Unauthorized); }
      if isP1 && m.deposited1 { return Some(AlreadyFunded); }
      if isP2 && m.deposited2 { return Some(AlreadyFunded); }
      var allowed := CheckTier(player, m.terms.stake);
      if !allowed { return Some(TierStakeNotAllowed); }
      if BalanceOf(balances, m.terms.token, player) < m.terms.stake { return Some(TransferFailed); }
      var both := if isP1 then m.deposited2 else m.deposited1;
      ActiveCounts(active, activeCount, store.matches, m.terms.player1);
      ActiveCounts(active, activeCount, store.matches, m.terms.player2);
      if both && Lookup(activeCount, m.terms.player1, 0) >= MAX_ACTIVE_MATCHES { return Some(TooManyActiveMatches); }
      if both && Lookup(activeCount, m.terms.player2, 0) >= MAX_ACTIVE_MATCHES { return Some(TooManyActiveMatches); }
      return None;
    }

    method StoreDeposit(id: nat, m: Match, player: Address)
      requires RingsOk(rings, log)
      modifies `store, `rings, `log
      ensures CoreView() == Snapshot(Adjust(Put(old(CoreView()), id, m), player, m.terms.stake), player, ledger)
      ensures store.matches == old(store.matches)[id := m] && RingsOk(rings, log)
    {
      PutMatch(id, m);
      UpdatePlayerEscrowBalance(player, m.terms.stake);
      RecordPlayerSnapshot(player);
    }

    method DepositStake(id: nat, player: Address) returns (r: Result<(), Error>)
      requires Valid()
      modifies `store, `balances, `index, `active, `activeCount, `rings, `log
      ensures Valid() && Took(old(View()), EscrowModel.DepositStake(id, player), View(), r)
    {
      hide Inv, Took, ActiveOk, RingsOk, PayAll, IndexOk, IndexFor, Transfer, DepositFault, WithDeposit, Activated,
        Put, Adjust, Snapshot, Attempt;
      ghost var s0, op := View(), EscrowModel.DepositStake(id, player);
      DepositAttempt(s0, id, player);
      var fault := CheckDeposit(id, player);
      if fault.Some? {
        Refused(s0, op, fault.value);
        return Err(fault.value);
      }
      DepositChecked(s0, id, player);
      var m := store.matches[id];
      PayOne(balances, Pay(m.terms.token, player, self, m.terms.stake));
      balances := Transfer(balances, m.terms.token, player, self, m.terms.stake).value;
      var m1 := WithDeposit(m, player, time);
      IndexOpen(index, store.matches, id);
      if m1.deposited1 && m1.deposited2 {
        m1 := Activate(id, m1);
      } else {
        ActiveSame(active, activeCount, store.matches, id, m1);
      }
      IndexClose(index, store.matches, id, m1);
      StoreDeposit(id, m1, player);
      Accepted(s0, op, Deposit(s0, id, player).value, View());
      return Ok(());
    }

    /** Call a match off: new state, counters and snapshots of whoever deposited. */
    method CallOff(id: nat, m: Match)
      requires id in store.matches && m == store.matches[id] && !Live(m.state)
      requires IndexOk(index, store.matches) && ActiveOk(active, activeCount, store.matches) && RingsOk(rings, log)
      modifies `store, `index, `rings, `log
      ensures CoreView() == ReleaseDeposited(Put(old(CoreView()), id, CalledOff(m, ledger)), m, ledger)
      ensures IndexOk(index, store.matches) && ActiveOk(active, activeCount, store.matches) && RingsOk(rings, log)
    {
      hide IndexOk, IndexFor, ActiveOk, RingsOk, Put, Adjust, Snapshot;
      IndexOpen(index, store.matches, id);
      SetMatchState(id, m.state, Cancelled, store.matches);
      IndexClose(index, store.matches, id, CalledOff(m, ledger));
      ActiveSame(active, activeCount, store.matches, id, CalledOff(m, ledger));
      PutMatch(id, CalledOff(m, ledger));
      if m.deposited1 { UpdatePlayerEscrowBalance(m.terms.player1, -m.terms.stake); }
      if m.deposited2 { UpdatePlayerEscrowBalance(m.terms.player2, -m.terms.stake); }
      if m.deposited1 { RecordPlayerSnapshot(m.terms.player1); }
      if m.deposited2 { RecordPlayerSnapshot(m.terms.player2); }
    }

    method CancelMatch(id: nat, caller: Address) returns (r: Result<(), Error>)
      requires Valid()
      modifies `store, `balances, `index, `rings, `log
      ensures Valid() && Took(old(View()), EscrowModel.CancelMatch(id, caller), View(), r)
    {
      hide Inv, Took, ActiveOk, RingsOk, PayAll, IndexOk, RefundDeposited, ReleaseDeposited, CalledOff;
      ghost var s0, op := View(), EscrowModel.CancelMatch(id, caller);
      if config.paused { Refused(s0, op, ContractPaused); return Err(ContractPaused); }
      if id !in store.matches { Refused(s0, op, MatchNotFound); return Err(MatchNotFound); }
      var m := store.matches[id];
      if m.state != Pending { Refused(s0, op, InvalidState); return Err(InvalidState); }
      if caller != m.terms.player1 && caller != m.terms.player2 {
        Refused(s0, op, Unauthorized);
        return Err(Unauthorized);
      }
      if m.terms.stake * config.fees.cancelBps > I128_MAX { Refused(s0, op, Overflow); return Err(Overflow); }
      var fee := m.terms.stake * config.fees.cancelBps / 10_000;
      var paid := TransferAll(balances, RefundDeposited(self, config.fees.treasury, m, fee));
      if paid.None? { Refused(s0, op, TransferFailed); return Err(TransferFailed); }
      CallOff(id, m);
      balances := paid.value;
      Accepted(s0, op, Cancel(s0, id, caller).value, View());
      return Ok(());
    }

    method ExpireMatch(id: nat) returns (r: Result<(), Error>)
      requires Valid()
      modifies `store, `balances, `index, `rings, `log
      ensures Valid() && Took(old(View()), EscrowModel.ExpireMatch(id), View(), r)
    {
      hide Inv, Took, ActiveOk, RingsOk, PayAll, IndexOk, RefundDeposited, ReleaseDeposited, CalledOff;
      ghost var s0, op := View(), EscrowModel.ExpireMatch(id);
      if id !in store.matches { Refused(s0, op, MatchNotFound); return Err(MatchNotFound); }
      var m := store.matches[id];
      if m.state != Pending { Refused(s0, op, InvalidState); return Err(InvalidState); }
      var elapsed := SatSub(ledger, m.terms.created);
      if elapsed < TimeoutLedgers(config.timeoutSecs) { Refused(s0, op, MatchNotExpired); return Err(MatchNotExpired); }
      if m.terms.token in config.blocked { Refused(s0, op, TokenNotAllowed); return Err(TokenNotAllowed); }
      var paid := TransferAll(balances, RefundDeposited(self, config.fees.treasury, m, 0));
      if paid.None? { Refused(s0, op, TransferFailed); return Err(TransferFailed); }
      CallOff(id, m);
      balances := paid.value;
      Accepted(s0, op, Expire(s0, id).value, View());
      return Ok(());
    }

    /** Rewrite a match record that stays live or stays not live. */
    method Rewrite(id: nat, m: Match)
      requires id in store.matches && m.terms == store.matches[id].terms
      requires Live(m.state) == Live(store.matches[id].state)
      requires IndexOk(index, store.matches) && ActiveOk(active, activeCount, store.matches)
      modifies `store, `index
      ensures CoreView() == Put(old(CoreView()), id, m)
      ensures IndexOk(index, store.matches) && ActiveOk(active, activeCount, store.matches)
    {
      hide IndexOk, IndexFor, ActiveOk, Put;
      IndexOpen(index, store.matches, id);
      SetMatchState(id, store.matches[id].state, m.state, store.matches);
      IndexClose(index, store.matches, id, m);
      ActiveSame(active, activeCount, store.matches, id, m);
      PutMatch(id, m);
    }

    method PauseMatch(id: nat, caller: Address) returns (r: Result<(), Error>)
      requires Valid()
      modifies `store, `index
      ensures Valid() && Took(old(View()), EscrowModel.PauseMatch(id, caller), View(), r)
    {
      hide Inv, Took, ActiveOk, RingsOk, PayAll, IndexOk, Put;
      ghost var s0, op := View(), EscrowModel.PauseMatch(id, caller);
      if id !in store.matches { Refused(s0, op, MatchNotFound); return Err(MatchNotFound); }
      var m := store.matches[id];
      if m.state != Active { Refused(s0, op, InvalidPauseState); return Err(InvalidPauseState); }
      if caller != m.terms.player1 && caller != m.terms.player2 {
        Refused(s0, op, Unauthorized);
        return Err(Unauthorized);
      }
      if m.timing.pauseTotal >= MAX_PAUSE_DURATION_LEDGERS {
        Refused(s0, op, InvalidPauseState);
        return Err(InvalidPauseState);
      }
      PayNothing(balances);
      Rewrite(id, m.(state := Paused, timing := m.timing.(pausedAt := Some(ledger))));
      Accepted(s0, op, Pause(s0, id, caller).value, View());
      return Ok(());
    }

    method ResumeMatch(id: nat, caller: Address) returns (r: Result<(), Error>)
      requires Valid()
      modifies `store, `index
      ensures Valid() && Took(old(View()), EscrowModel.ResumeMatch(id, caller), View(), r)
    {
      hide Inv, Took, ActiveOk, RingsOk, PayAll, IndexOk, Put, Resumed;
      ghost var s0, op := View(), EscrowModel.ResumeMatch(id, caller);
      if id !in store.matches { Refused(s0, op, MatchNotFound); return Err(MatchNotFound); }
      var m := store.matches[id];
      if m.state != Paused { Refused(s0, op, InvalidState); return Err(InvalidState); }
      if caller != m.terms.player1 && caller != m.terms.player2 {
        Refused(s0, op, Unauthorized);
        return Err(Unauthorized);
      }
      var timing := EndPause(m.timing, ledger);
      PayNothing(balances);
      Rewrite(id, m.(state := Active, timing := timing));
      Accepted(s0, op, Resume(s0, id, caller).value, View());
      return Ok(());
    }

    method HeartbeatMatch(id: nat, player: Address) returns (r: Result<(), Error>)
      requires Valid()
      modifies `store, `index
      ensures Valid() && Took(old(View()), EscrowModel.Heartbeat(id, player), View(), r)
    {
      hide Inv, Took, ActiveOk, RingsOk, PayAll, IndexOk, Put;
      ghost var s0, op := View(), EscrowModel.Heartbeat(id, player);
      if id !in store.matches { Refused(s0, op, MatchNotFound); return Err(MatchNotFound); }
      var m := store.matches[id];
      if player != m.terms.player1 && player != m.terms.player2 {
        Refused(s0, op, Unauthorized);
        return Err(Unauthorized);
      }
      if m.state == Completed || m.state == Cancelled { Refused(s0, op, InvalidState); return Err(InvalidState); }
      if m.state != Active { Refused(s0, op, InvalidState); return Err(InvalidState); }
      PayNothing(balances);
      Rewrite(id, m.(timing := m.timing.(heartbeat := time)));
      Accepted(s0, op, Beat(s0, id, player).value, View());
      return Ok(());
    }

    /** Take a match out of both players' active sets and into its new state. */
    method Retire(id: nat, m: Match)
      requires id in store.matches && m.terms == store.matches[id].terms && !Live(m.state)
      requires m.terms.player1 != m.terms.player2
      requires IndexOk(index, store.matches) && ActiveOk(active, activeCount, store.matches)
      modifies `store, `index, `active, `activeCount
      ensures CoreView() == Put(old(CoreView()), id, m)
      ensures IndexOk(index, store.matches) && ActiveOk(active, activeCount, store.matches)
    {
      hide IndexOk, IndexFor, ActiveOk, Put, Left, Dropped;
      RemoveActiveMatch(m.terms.player1, id);
      RemoveActiveMatch(m.terms.player2, id);
      ActiveRemoved(old(active), old(activeCount), store.matches, id, m);
      IndexOpen(index, store.matches, id);
      SetMatchState(id, store.matches[id].state, m.state, store.matches);
      IndexClose(index, store.matches, id, m);
      PutMatch(id, m);
    }

    method SnapshotDeposits(m: Match)
      requires RingsOk(rings, log)
      modifies `rings, `log
      ensures CoreView() == SnapshotDeposited(old(CoreView()), m, ledger) && RingsOk(rings, log)
    {
      hide Snapshot, RingsOk;
      if m.deposited1 { RecordPlayerSnapshot(m.terms.player1); }
      if m.deposited2 { RecordPlayerSnapshot(m.terms.player2); }
    }

    method SnapshotPlayers(m: Match)
      requires RingsOk(rings, log)
      modifies `rings, `log
      ensures CoreView() == SnapshotBoth(old(CoreView()), m, ledger) && RingsOk(rings, log)
    {
      hide Snapshot, RingsOk;
      RecordPlayerSnapshot(m.terms.player1);
      RecordPlayerSnapshot(m.terms.player2);
    }

    method CountPlayers(m: Match)
      modifies `store
      ensures CoreView() == CountBoth(old(CoreView()), m) && store.matches == old(store.matches)
    {
      hide CountCompleted;
      RecordCompletedMatch(m.terms.player1);
      RecordCompletedMatch(m.terms.player2);
    }

    method ReleasePlayers(m: Match)
      modifies `store
      ensures CoreView() == ReleaseBoth(old(CoreView()), m) && store.matches == old(store.matches)
    {
      hide Adjust;
      UpdatePlayerEscrowBalance(m.terms.player1, -m.terms.stake);
      UpdatePlayerEscrowBalance(m.terms.player2, -m.terms.stake);
    }

    method CheckRollback(id: nat, disputer: Address, reasonLen: nat) returns (fault: Option<Error>)
      ensures Judged(Rollback(View(), id, disputer, reasonLen), fault)
    {
      hide RefundDeposited, SnapshotDeposited, CalledOff, Put, Consent;
      if reasonLen == 0 || reasonLen > MAX_REASON_LEN { return Some(InvalidEvidenceHash); }
      if id !in store.matches { return Some(MatchNotFound); }
      var m := store.matches[id];
      if disputer != m.terms.player1 && disputer != m.terms.player2 { return Some(Unauthorized); }
      if m.state == PendingResult || m.state == Completed { return Some(InvalidState); }
      if m.state != Active { return Some(InvalidState); }
      if SatSub(time, m.timing.heartbeat) > ROLLBACK_WINDOW_SECONDS { return Some(VotingPeriodElapsed); }
      return None;
    }

    /** Both players consent: the match is called off and the balances logged. */
    method RollBack(id: nat, m1: Match)
      requires id in store.matches && m1.terms == store.matches[id].terms && m1.terms.player1 != m1.terms.player2
      requires IndexOk(index, store.matches) && ActiveOk(active, activeCount, store.matches) && RingsOk(rings, log)
      modifies `store, `index, `active, `activeCount, `rings, `log
      ensures CoreView() == SnapshotDeposited(Put(old(CoreView()), id, CalledOff(m1, ledger)), m1, ledger)
      ensures IndexOk(index, store.matches) && ActiveOk(active, activeCount, store.matches) && RingsOk(rings, log)
    {
      hide ActiveOk, RingsOk, IndexOk, Put, SnapshotDeposited;
      Retire(id, CalledOff(m1, ledger));
      SnapshotDeposits(m1);
    }

    method DisputeAndRollbackMatch(id: nat, disputer: Address, reasonLen: nat) returns (r: Result<(), Error>)
      requires Valid()
      modifies `store, `balances, `index, `active, `activeCount, `rings, `log
      ensures Valid() && Took(old(View()), VoteRollback(id, disputer, reasonLen), View(), r)
    {
      hide Inv, Took, ActiveOk, RingsOk, PayAll, IndexOk, RefundDeposited, SnapshotDeposited, CalledOff, Put, Consent,
        Rollback, Attempt;
      ghost var s0, op := View(), VoteRollback(id, disputer, reasonLen);
      RollbackAttempt(s0, id, disputer, reasonLen);
      var fault := CheckRollback(id, disputer, reasonLen);
      if fault.Some? { Refused(s0, op, fault.value); return Err(fault.value); }
      RollbackShape(s0, id, disputer, reasonLen);
      var m1 := Consent(store.matches[id], disputer);
      if !m1.rollback1 || !m1.rollback2 {
        PayNothing(balances);
        Rewrite(id, m1);
      } else {
        var paid := TransferAll(balances, RefundDeposited(self, config.fees.treasury, m1, 0));
        if paid.None? { Refused(s0, op, TransferFailed); return Err(TransferFailed); }
        RollBack(id, m1);
        balances := paid.value;
      }
      Accepted(s0, op, Rollback(s0, id, disputer, reasonLen).value, View());
      return Ok(());
    }

    // ----- settlement

    method CheckSettle(id: nat, winner: Winner, oracle: Address) returns (fault: Option<Error>)
      ensures Judged(Settle(View(), id, winner, oracle), fault)
    {
      hide SettledNow, SettledLater;
      if config.paused { return Some(ContractPaused); }
      if oracle != config.oracle { return Some(Unauthorized); }
      if winner == NoWinner { return Some(InvalidState); }
      if id !in store.matches { return Some(MatchNotFound); }
      var m := store.matches[id];
      if m.state == Pending || !m.deposited1 || !m.deposited2 { return Some(NotFunded); }
      if m.state != Active && m.state != Paused { return Some(InvalidState); }
      if config.disputePeriod == 0 {
        if m.terms.stake * 2 > I128_MAX { return Some(Overflow); }
      } else {
        if ledger + config.disputePeriod > U32_MAX { return Some(Overflow); }
      }
      return None;
    }

    /** Settlement without a dispute period: completed, counters released, balances logged. */
    method CompleteNow(id: nat, winner: Winner)
      requires id in store.matches && store.matches[id].terms.player1 != store.matches[id].terms.player2
      requires IndexOk(index, store.matches) && ActiveOk(active, activeCount, store.matches) && RingsOk(rings, log)
      modifies `store, `index, `active, `activeCount, `rings, `log
      ensures CoreView() == SettledNow(old(View()), id, winner).core
      ensures IndexOk(index, store.matches) && ActiveOk(active, activeCount, store.matches) && RingsOk(rings, log)
    {
      hide ActiveOk, RingsOk, IndexOk, Put, CountBoth, ReleaseBoth, SnapshotBoth;
      var m := store.matches[id];
      var m1 := Settled(m, winner, time);
      Retire(id, m1.(timing := m1.timing.(completedAt := Some(ledger))));
      CountPlayers(m);
      ReleasePlayers(m);
      SnapshotPlayers(m);
    }

    /** Settlement with a dispute period: completed first, then moved to pending with a deadline. */
    method AwaitDisputes(id: nat, winner: Winner)
      requires id in store.matches && store.matches[id].terms.player1 != store.matches[id].terms.player2
      requires IndexOk(index, store.matches) && ActiveOk(active, activeCount, store.matches)
      modifies `store, `docket, `index, `active, `activeCount
      ensures CoreView() == SettledLater(old(View()), id, winner).core
      ensures docket == SettledLater(old(View()), id, winner).docket
      ensures IndexOk(index, store.matches) && ActiveOk(active, activeCount, store.matches)
    {
      hide ActiveOk, IndexOk, Put, CountBoth;
      ghost var c := CoreView();
      var m := store.matches[id];
      var m1 := Settled(m, winner, time);
      Retire(id, m1);
      CountPlayers(m);
      PutTwice(c, id, m1, m1.(state := PendingResult), m);
      Rewrite(id, m1.(state := PendingResult));
      docket := docket.(winner := docket.winner[id := winner]);
      docket := docket.(deadline := docket.deadline[id := ledger + config.disputePeriod]);
    }

    method SubmitResult(id: nat, winner: Winner, oracle: Address) returns (r: Result<(), Error>)
      requires Valid()
      modifies `store, `docket, `index, `active, `activeCount, `rings, `log
      ensures Valid() && Took(old(View()), EscrowModel.SubmitResult(id, winner, oracle), View(), r)
    {
      hide Inv, Took, ActiveOk, RingsOk, PayAll, IndexOk, Settle, SettledNow, SettledLater;
      ghost var s0, op := View(), EscrowModel.SubmitResult(id, winner, oracle);
      var fault := CheckSettle(id, winner, oracle);
      if fault.Some? { Refused(s0, op, fault.value); return Err(fault.value); }
      SettleShape(s0, id, winner, oracle);
      PayNothing(balances);
      if config.disputePeriod == 0 {
        CompleteNow(id, winner);
      } else {
        AwaitDisputes(id, winner);
      }
      Accepted(s0, op, Settle(s0, id, winner, oracle).value, View());
      return Ok(());
    }

    method CheckStalled(id: nat, caller: Address, winner: Winner) returns (fault: Option<Error>)
      ensures Judged(ResolveStalled(View(), id, caller, winner), fault)
    {
      hide Payout, SnapshotBoth, CountBoth, Put;
      if caller != config.admin { return Some(Unauthorized); }
      if winner == NoWinner { return Some(InvalidAmount); }
      if id !in store.matches { return Some(MatchNotFound); }
      var m := store.matches[id];
      var reference := if m.timing.activatedAt.Some? then m.timing.activatedAt.value else m.timing.heartbeat;
      var since := SatSub(time, reference);
      var pauseBudget := MAX_PAUSE_DURATION_LEDGERS * SECONDS_PER_LEDGER;
      var stalled := m.state == Paused || (m.state == Active && since > pauseBudget);
      if !stalled { return Some(InvalidState); }
      if !m.deposited1 || !m.deposited2 { return Some(NotFunded); }
      if since <= ADMIN_STALL_WINDOW_SECONDS { return Some(MatchNotExpired); }
      if winner != Draw && 2 * m.terms.stake > I128_MAX { return Some(Overflow); }
      return None;
    }

    /** Complete a stalled match as the admin decided; the counters are left as they are. */
    method CompleteStalled(id: nat, m: Match, m1: Match, winner: Winner)
      requires id in store.matches && m == store.matches[id] && m1.terms == m.terms
      requires m.terms.player1 != m.terms.player2
      requires m1.state == Completed
      requires IndexOk(index, store.matches) && ActiveOk(active, activeCount, store.matches) && RingsOk(rings, log)
      modifies `store, `index, `active, `activeCount, `rings, `log
      ensures var c := SnapshotBoth(Put(old(CoreView()), id, m1), m, ledger);
        CoreView() == if winner == Draw then c else CountBoth(c, m)
      ensures IndexOk(index, store.matches) && ActiveOk(active, activeCount, store.matches) && RingsOk(rings, log)
    {
      hide ActiveOk, RingsOk, IndexOk, Put, CountBoth, SnapshotBoth;
      Retire(id, m1);
      SnapshotPlayers(m);
      if winner != Draw {
        CountPlayers(m);
      }
    }

    method AdminResolveStalledMatch(id: nat, caller: Address, winner: Winner) returns (r: Result<(), Error>)
      requires Valid()
      modifies `store, `balances, `index, `active, `activeCount, `rings, `log
      ensures Valid() && Took(old(View()), AdminResolve(id, caller, winner), View(), r)
    {
      hide Inv, Took, ActiveOk, RingsOk, PayAll, IndexOk, ResolveStalled, Put, CountBoth, SnapshotBoth, Payout, Attempt;
      ghost var s0, op := View(), AdminResolve(id, caller, winner);
      StalledAttempt(s0, id, caller, winner);
      var fault := CheckStalled(id, caller, winner);
      if fault.Some? { Refused(s0, op, fault.value); return Err(fault.value); }
      StalledShape(s0, id, caller, winner);
      var m := store.matches[id];
      var paid := TransferAll(balances, Payout(self, m, winner));
      if paid.None? { Refused(s0, op, TransferFailed); return Err(TransferFailed); }
      CompleteStalled(id, m, m.(state := Completed, winner := winner,
        timing := m.timing.(completedAt := Some(ledger))), winner);
      balances := paid.value;
      Accepted(s0, op, ResolveStalled(s0, id, caller, winner).value, View());
      return Ok(());
    }

    // ----- claims

    method CheckClaim(id: nat, player: Address) returns (fault: Option<Error>)
      ensures Judged(Claim(View(), id, player), fault)
    {
      hide Share, Put, Snapshot, Claimed;
      if id !in store.matches { return Some(MatchNotFound); }
      var m := store.matches[id];
      if m.state != Completed { return Some(InvalidState); }
      if m.timing.vestedAt.None? { return Some(InvalidState); }
      if time < m.timing.vestedAt.value + config.vestingSecs { return Some(VestingNotExpired); }
      var isP1, isP2 := player == m.terms.player1, player == m.terms.player2;
      if !isP1 && !isP2 { return Some(Unauthorized); }
      if m.winner == NoWinner { return Some(InvalidState); }
      if isP1 && m.claimed1 { return Some(AlreadyClaimed); }
      if isP1 && m.winner == Player2 { return Some(Unauthorized); }
      if !isP1 && m.claimed2 { return Some(AlreadyClaimed); }
      if !isP1 && m.winner == Player1 { return Some(Unauthorized); }
      if Share(config, self, m, player).None? { return Some(Overflow); }
      return None;
    }

    method MarkClaimed(id: nat, player: Address)
      requires id in store.matches
      requires IndexOk(index, store.matches) && ActiveOk(active, activeCount, store.matches) && RingsOk(rings, log)
      modifies `store, `index, `rings, `log
      ensures CoreView() == Snapshot(Put(old(CoreView()), id, Claimed(old(store.matches)[id], player)), player, ledger)
      ensures IndexOk(index, store.matches) && ActiveOk(active, activeCount, store.matches) && RingsOk(rings, log)
    {
      hide ActiveOk, RingsOk, IndexOk, Put, Snapshot, Claimed;
      Rewrite(id, Claimed(store.matches[id], player));
      RecordPlayerSnapshot(player);
    }

    method ClaimVestedPayout(id: nat, player: Address) returns (r: Result<(), Error>)
      requires Valid()
      modifies `store, `balances, `index, `rings, `log
      ensures Valid() && Took(old(View()), ClaimPayout(id, player), View(), r)
    {
      hide Inv, Took, ActiveOk, RingsOk, PayAll, IndexOk, Claim, Put, Snapshot, Share, Claimed, Attempt;
      ghost var s0, op := View(), ClaimPayout(id, player);
      ClaimAttempt(s0, id, player);
      var fault := CheckClaim(id, player);
      if fault.Some? { Refused(s0, op, fault.value); return Err(fault.value); }
      ClaimShape(s0, id, player);
      var share := Share(config, self, store.matches[id], player);
      var paid := TransferAll(balances, share.value);
      if paid.None? { Refused(s0, op, TransferFailed); return Err(TransferFailed); }
      MarkClaimed(id, player);
      balances := paid.value;
      Accepted(s0, op, Claim(s0, id, player).value, View());
      return Ok(());
    }

    // ----- disputes

    method CheckFinalize(id: nat) returns (fault: Option<Error>)
      ensures Judged(Finalize(View(), id), fault)
    {
      hide Payout, SnapshotBoth, CountBoth, ReleaseBoth, Put;
      if id !in store.matches { return Some(MatchNotFound); }
      var m := store.matches[id];
      if m.state != PendingResult { return Some(MatchNotInPendingResult); }
      if id !in docket.deadline { return Some(PendingResultNotFound); }
      if ledger < docket.deadline[id] { return Some(DisputePeriodNotElapsed); }
      if id in docket.byMatch { return Some(DisputeAlreadyRaised); }
      if id !in docket.winner { return Some(PendingResultNotFound); }
      var winner := docket.winner[id];
      if winner == NoWinner { return Some(InvalidState); }
      if winner != Draw && 2 * m.terms.stake > I128_MAX { return Some(Overflow); }
      return None;
    }

    method CompleteFinalized(id: nat, m: Match, m1: Match)
      requires id in store.matches && m == store.matches[id] && m1.terms == m.terms
      requires m.terms.player1 != m.terms.player2
      requires m1.state == Completed
      requires IndexOk(index, store.matches) && ActiveOk(active, activeCount, store.matches) && RingsOk(rings, log)
      modifies `store, `index, `active, `activeCount, `rings, `log
      ensures CoreView() == SnapshotBoth(CountBoth(ReleaseBoth(Put(old(CoreView()), id, m1), m), m), m, ledger)
      ensures IndexOk(index, store.matches) && ActiveOk(active, activeCount, store.matches) && RingsOk(rings, log)
    {
      hide ActiveOk, RingsOk, IndexOk, Put, CountBoth, SnapshotBoth, ReleaseBoth;
      Retire(id, m1);
      ReleasePlayers(m);
      CountPlayers(m);
      SnapshotPlayers(m);
    }

    method FinalizeMatch(id: nat) returns (r: Result<(), Error>)
      requires Valid()
      modifies `store, `balances, `index, `active, `activeCount, `rings, `log
      ensures Valid() && Took(old(View()), EscrowModel.FinalizeMatch(id), View(), r)
    {
      hide Inv, Took, ActiveOk, RingsOk, PayAll, IndexOk, Finalize, Put, CountBoth, SnapshotBoth, ReleaseBoth, Payout,
        Attempt;
      ghost var s0, op := View(), EscrowModel.FinalizeMatch(id);
      FinalizeAttempt(s0, id);
      var fault := CheckFinalize(id);
      if fault.Some? { Refused(s0, op, fault.value); return Err(fault.value); }
      FinalizeFacts(s0, id);
      var m := store.matches[id];
      var paid := TransferAll(balances, Payout(self, m, docket.winner[id]));
      if paid.None? { Refused(s0, op, TransferFailed); return Err(TransferFailed); }
      CompleteFinalized(id, m, m.(state := Completed, timing := m.timing.(completedAt := Some(ledger))));
      balances := paid.value;
      FinalizeDone(s0, id, View());
      return Ok(());
    }

    method CheckDispute(id: nat, disputer: Address, hashOk: bool) returns (fault: Option<Error>)
      ensures Judged(OpenDispute(View(), id, disputer, hashOk), fault)
    {
      hide BondRate, BondFor;
      if id !in store.matches { return Some(MatchNotFound); }
      var m := store.matches[id];
      if m.state != PendingResult { return Some(MatchNotInPendingResult); }
      if disputer != m.terms.player1 && disputer != m.terms.player2 { return Some(Unauthorized); }
      if id !in docket.deadline { return Some(PendingResultNotFound); }
      if ledger >= docket.deadline[id] { return Some(DisputePeriodNotElapsed); }
      if !hashOk { return Some(InvalidEvidenceHash); }
      if id in docket.byMatch { return Some(DisputeAlreadyRaised); }
      var bps := BondBasisPoints(config.stakes, m.terms.stake);
      if m.terms.stake * bps > I128_MAX { return Some(Overflow); }
      var bond := BondFor(config.stakes, m.terms.stake);
      if BalanceOf(balances, m.terms.token, disputer) < bond { return Some(TransferFailed); }
      if ledger + VOTING_PERIOD_LEDGERS > U32_MAX { return Some(Overflow); }
      var total := BalanceOf(balances, m.terms.token, self) + bond;
      if total * config.quorumBps > I128_MAX { return Some(Overflow); }
      return None;
    }

    method DisputeOracleResult(id: nat, disputer: Address, hashOk: bool) returns (r: Result<(), Error>)
      requires Valid()
      modifies `docket, `balances
      ensures Valid() && Took(old(View()), RaiseDispute(id, disputer, hashOk), View(), r)
    {
      hide Inv, Took, ActiveOk, RingsOk, PayAll, IndexOk, OpenDispute, BondFor, Transfer, BalanceOf;
      ghost var s0, op := View(), RaiseDispute(id, disputer, hashOk);
      var fault := CheckDispute(id, disputer, hashOk);
      if fault.Some? { Refused(s0, op, fault.value); return Err(fault.value); }
      DisputeFacts(s0, id, disputer, hashOk);
      var m := store.matches[id];
      var bond := BondFor(config.stakes, m.terms.stake);
      balances := Transfer(balances, m.terms.token, disputer, self, bond).value;
      var d := docket.disputeCount;
      var total := BalanceOf(balances, m.terms.token, self);
      var dispute := Dispute(id, disputer, bond, 0, 0, Ongoing, ledger, ledger + VOTING_PERIOD_LEDGERS,
        total * config.quorumBps / 10_000);
      docket := docket.(disputes := docket.disputes[d := dispute], ballots := docket.ballots[d := map[]]);
      docket := docket.(byMatch := docket.byMatch[id := d], disputeCount := d + 1);
      DisputeDone(s0, id, disputer, hashOk, View());
      return Ok(());
    }

    /** The checks of a vote and, when they pass, the weight it carries. */
    method CheckVote(d: nat, voter: Address, vote: bool) returns (fault: Option<Error>, weight: int)
      requires RingsOk(rings, log)
      ensures Judged(Cast(View(), d, voter, vote), fault)
      ensures fault.None? ==> d in docket.disputes
      ensures fault.None? ==>
        WeightAt(Lookup(log, voter, []), SatSub(docket.disputes[d].snapshotLedger, config.holdDuration)) == Some(weight)
    {
      hide WeightAt, RingOk;
      weight := 0;
      if d !in docket.disputes { return Some(DisputeNotFound), 0; }
      var dispute := docket.disputes[d];
      if dispute.state != Ongoing { return Some(DisputeAlreadyResolved), 0; }
      if ledger >= dispute.votingDeadline { return Some(VotingPeriodElapsed), 0; }
      if voter in Lookup(docket.ballots, d, map[]) { return Some(AlreadyVoted), 0; }
      if dispute.matchId !in store.matches { return Some(MatchNotFound), 0; }
      var token := store.matches[dispute.matchId].terms.token;
      var minLedger := SatSub(dispute.snapshotLedger, config.holdDuration);
      assert RingOk(Lookup(rings, voter, EMPTY_RING), Lookup(log, voter, []));
      var found := SnapshotWeight(Lookup(rings, voter, EMPTY_RING), dispute.snapshotLedger, minLedger, Lookup(log,
        voter, []));
      if found.None? {
        return Some(if BalanceOf(balances, token, voter) <= 0 then NotStaker else InsufficientHoldingDuration), 0;
      }
      if found.value <= 0 { return Some(NotStaker), 0; }
      return None, found.value;
    }

    method VoteOnDispute(d: nat, voter: Address, vote: bool) returns (r: Result<(), Error>)
      requires Valid()
      modifies `docket
      ensures Valid() && Took(old(View()), VoteDispute(d, voter, vote), View(), r)
    {
      hide Inv, Took, ActiveOk, RingsOk, PayAll, IndexOk, WeightAt, Cast;
      ghost var s0, op := View(), VoteDispute(d, voter, vote);
      var fault, weight := CheckVote(d, voter, vote);
      if fault.Some? { Refused(s0, op, fault.value); return Err(fault.value); }
      var dispute := docket.disputes[d];
      var ballots := Lookup(docket.ballots, d, map[]);
      docket := docket.(ballots := docket.ballots[d := ballots[voter := Ballot(vote, weight)]]);
      if vote {
        dispute := dispute.(yes := dispute.yes + weight);
      } else {
        dispute := dispute.(no := dispute.no + weight);
      }
      docket := docket.(disputes := docket.disputes[d := dispute]);
      VoteDone(s0, d, voter, vote, weight, View());
      return Ok(());
    }

    method CheckResolve(d: nat) returns (fault: Option<Error>)
      ensures Judged(ResolveDispute(View(), d), fault)
    {
      hide ResolutionPays, CountBoth, Put, Resolved;
      if d !in docket.disputes { return Some(DisputeNotFound); }
      var dispute := docket.disputes[d];
      if dispute.state != Ongoing { return Some(DisputeAlreadyResolved); }
      if ledger < dispute.votingDeadline { return Some(VotingPeriodNotElapsed); }
      var id := dispute.matchId;
      if id !in store.matches { return Some(MatchNotFound); }
      var m := store.matches[id];
      if m.state != PendingResult { return Some(MatchNotInPendingResult); }
      if id !in docket.winner { return Some(PendingResultNotFound); }
      if dispute.yes + dispute.no < dispute.quorum { return Some(QuorumNotMet); }
      var winner := if dispute.yes > dispute.no then Draw else docket.winner[id];
      if winner == NoWinner { return Some(InvalidState); }
      if winner != Draw && 2 * m.terms.stake > I128_MAX { return Some(Overflow); }
      return None;
    }

    /** Complete a disputed match; counters and snapshots are left as they are. */
    method CompleteDisputed(id: nat, m: Match, m1: Match)
      requires id in store.matches && m == store.matches[id] && m1.terms == m.terms
      requires m.terms.player1 != m.terms.player2
      requires m1.state == Completed
      requires IndexOk(index, store.matches) && ActiveOk(active, activeCount, store.matches)
      modifies `store, `index, `active, `activeCount
      ensures CoreView() == CountBoth(Put(old(CoreView()), id, m1), m)
      ensures IndexOk(index, store.matches) && ActiveOk(active, activeCount, store.matches)
    {
      hide ActiveOk, IndexOk, Put, CountBoth;
      Retire(id, m1);
      CountPlayers(m);
    }

    method ResolveDisputeByVote(d: nat) returns (r: Result<(), Error>)
      requires Valid()
      modifies `store, `docket, `balances, `index, `active, `activeCount
      ensures Valid() && Took(old(View()), SettleDispute(d), View(), r)
    {
      hide Inv, Took, ActiveOk, RingsOk, PayAll, IndexOk, ResolveDispute, Put, CountBoth, ResolutionPays, Resolved,
        Attempt;
      ghost var s0, op := View(), SettleDispute(d);
      ResolveAttempt(s0, d);
      var fault := CheckResolve(d);
      if fault.Some? { Refused(s0, op, fault.value); return Err(fault.value); }
      ResolveShape(s0, d);
      var dispute := docket.disputes[d];
      var id := dispute.matchId;
      var m := store.matches[id];
      var paid := TransferAll(balances, ResolutionPays(self, config.fees.treasury, m, dispute, docket.winner[id]));
      if paid.None? { Refused(s0, op, TransferFailed); return Err(TransferFailed); }
      CompleteDisputed(id, m, m.(state := Completed, timing := m.timing.(completedAt := Some(ledger))));
      docket := docket.(disputes := docket.disputes[d := Resolved(dispute)]);
      balances := paid.value;
      Accepted(s0, op, ResolveDispute(s0, d).value, View());
      return Ok(());
    }

    // ----- settings, clocks and other accounts

    /** The admin setters: the new settings apply from the next transaction on. */
    method SetConfig(settings: Config)
      requires Valid() && ConfigOk(settings, self)
      modifies `config
      ensures Valid() && View() == Step(old(View()), Configure(settings))
    {
      hide Inv, IndexOk, ActiveOk, RingsOk, Perform;
      StepKeeps(View(), Configure(settings));
      config := settings;
    }

    /** A later ledger. */
    method NextLedger(sequence: nat, timestamp: nat)
      requires Valid() && sequence >= ledger && timestamp >= time
      modifies `ledger, `time
      ensures Valid() && View() == Step(old(View()), Advance(sequence, timestamp))
    {
      hide Inv, IndexOk, ActiveOk, RingsOk, Perform;
      StepKeeps(View(), Advance(sequence, timestamp));
      ledger, time := sequence, timestamp;
    }

    /** A token transfer between other accounts. */
    method OtherTransfer(token: Address, src: Address, dst: Address, amount: int)
      requires Valid() && src != self && dst != self
      modifies `balances
      ensures Valid() && View() == Step(old(View()), Outside(token, src, dst, amount))
    {
      hide Inv, IndexOk, ActiveOk, RingsOk, Perform;
      StepKeeps(View(), Outside(token, src, dst, amount));
      var moved := Transfer(balances, token, src, dst, amount);
      if moved.Some? {
        balances := moved.value;
      }
    }
  }
}
