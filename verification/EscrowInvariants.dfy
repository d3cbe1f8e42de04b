/** What every escrow transaction keeps. A call changes one match; each operation is shown to be
    sound at that match, and general lemmas carry the rest. */
module EscrowInvariants {
  import opened Prelude
  import opened EscrowModel

  // ----- what a match holds

  predicate HasDeposit(m: Match, p: Address) {
    (p == m.terms.player1 && m.deposited1) || (p == m.terms.player2 && m.deposited2)
  }

  /** Terminal matches whose stakes were never taken off the counters: rolled back, resolved by the
      admin, or resolved by a dispute vote. */
  predicate Stranded(m: Match, d: Docket, id: nat) {
    (m.state == Cancelled && Funded(m)) || (m.state == Completed && (m.timing.vestedAt.None? || id in d.byMatch))
  }

  /** What match `id` contributes to the counter of `p`. */
  function Held(c: Core, d: Docket, id: nat, p: Address): int {
    if id !in c.matches then 0
    else
      var m := c.matches[id];
      if HasDeposit(m, p) && (!Terminal(m.state) || Stranded(m, d, id)) then m.terms.stake else 0
  }

  /** The bond held for the ongoing dispute of match `id`. */
  function BondHeld(d: Docket, id: nat): int {
    if id in d.byMatch && d.byMatch[id] in d.disputes && d.disputes[d.byMatch[id]].state == Ongoing
    then d.disputes[d.byMatch[id]].bond else 0
  }

  function Deposits(m: Match): int {
    (if m.deposited1 then m.terms.stake else 0) + (if m.deposited2 then m.terms.stake else 0)
  }

  /** The part of a settled pot nobody has claimed yet. */
  function Unclaimed(m: Match): int {
    match m.winner
    case Player1 => if m.claimed1 then 0 else 2 * m.terms.stake
    case Player2 => if m.claimed2 then 0 else 2 * m.terms.stake
    case Draw => (if m.claimed1 then 0 else m.terms.stake) + (if m.claimed2 then 0 else m.terms.stake)
    case NoWinner => 0
  }

  /** What is still owed on a match record, given a bond held for it and whether its result went
      through the docket. */
  function Owed(m: Match, bond: int, docketed: bool): int {
    bond +
    if !Terminal(m.state) then Deposits(m)
    else if m.state == Completed && m.timing.vestedAt.Some? && !docketed then Unclaimed(m)
    else 0
  }

  /** What the contract still owes on match `id` in `token`, including a bond it holds. */
  function Due(c: Core, d: Docket, id: nat, token: Address): int {
    if id !in c.matches || c.matches[id].terms.token != token then 0
    else Owed(c.matches[id], BondHeld(d, id), id in d.winner)
  }

  // ----- the invariant

  ghost predicate TermsOk(t: Terms, self: Address) {
    && t.stake >= 1
    && t.player1 != t.player2 && t.player1 != self && t.player2 != self
    && t.referrer != Some(self)
  }

  /** A match record agrees with its state and with the docket. */
  ghost predicate MatchOk(m: Match, d: Docket, id: nat, self: Address) {
    && TermsOk(m.terms, self)
    && (m.state == Pending ==> !Funded(m))
    && (m.state != Pending && m.state != Cancelled ==> Funded(m))
    && (m.state == Pending || Live(m.state) || m.state == Cancelled ==>
          m.winner == NoWinner && m.timing.vestedAt.None? && id !in d.winner)
    && (m.state == PendingResult ==>
          id in d.winner && id in d.deadline && m.winner == d.winner[id] && m.timing.vestedAt.Some?)
    && (m.state == PendingResult || m.state == Completed ==> m.winner != NoWinner)
    && (m.state == Completed && m.timing.vestedAt.None? ==> id !in d.winner)
    && (m.state != Completed ==> !m.claimed1 && !m.claimed2)
    && (id in d.byMatch ==> id in d.winner)
  }

  ghost function Weights(ballots: map<Address, Ballot>, vote: bool): map<Address, int> {
    map v | v in ballots :: if ballots[v].vote == vote then ballots[v].weight else 0
  }

  ghost function VoteSum(ballots: map<Address, Ballot>, vote: bool): int {
    MapSum(Weights(ballots, vote))
  }

  /** Dispute `k` is the only one of its match, its totals are the recorded weights, and it is open
      exactly while its match waits for a result. */
  ghost predicate DisputeOk(d: Docket, matches: map<nat, Match>, k: nat)
    requires k in d.disputes
  {
    var dispute := d.disputes[k];
    && k < d.disputeCount
    && dispute.matchId in d.byMatch && d.byMatch[dispute.matchId] == k
    && dispute.matchId in matches
    && dispute.bond >= 1
    && k in d.ballots
    && dispute.yes == VoteSum(d.ballots[k], true)
    && dispute.no == VoteSum(d.ballots[k], false)
    && matches[dispute.matchId].state == (if dispute.state == Ongoing then PendingResult else Completed)
    && Plays(matches[dispute.matchId], dispute.disputer)
  }

  ghost predicate DocketOk(d: Docket, matches: map<nat, Match>) {
    && (forall k :: k in d.disputes ==> DisputeOk(d, matches, k))
    && (forall id :: id in d.byMatch ==> d.byMatch[id] in d.disputes && d.disputes[d.byMatch[id]].matchId == id)
    && (forall id :: id in d.winner || id in d.byMatch ==> id in matches)
    && (forall id :: id in d.winner ==> d.winner[id] != NoWinner)
  }

  ghost function HeldBy(c: Core, d: Docket, p: Address): map<nat, int> {
    map id | id in c.matches :: Held(c, d, id, p)
  }

  ghost function HeldAll(c: Core, d: Docket, p: Address): int {
    MapSum(HeldBy(c, d, p))
  }

  ghost function DueBy(c: Core, d: Docket, token: Address): map<nat, int> {
    map id | id in c.matches :: Due(c, d, id, token)
  }

  ghost function DueAll(c: Core, d: Docket, token: Address): int {
    MapSum(DueBy(c, d, token))
  }

  ghost predicate MatchesOk(c: Core, d: Docket, self: Address) {
    && (forall id :: id in c.matches <==> 0 <= id < c.count)
    && (forall id :: id in c.matches ==> MatchOk(c.matches[id], d, id, self))
  }

  ghost predicate CountersOk(c: Core, d: Docket) {
    forall p: Address :: Lookup(c.counter, p, 0) == HeldAll(c, d, p)
  }

  ghost predicate WithinCap(matches: map<nat, Match>) {
    forall p: Address :: |ActiveOf(matches, p)| <= MAX_ACTIVE_MATCHES
  }

  ghost predicate Chronological(log: seq<Snap>, now: nat) {
    && (forall i, j :: 0 <= i < j < |log| ==> log[i].ledger <= log[j].ledger)
    && (forall i :: 0 <= i < |log| ==> log[i].ledger <= now)
  }

  ghost predicate LogOk(log: Log, now: nat) {
    forall p: Address :: Chronological(Lookup(log, p, []), now)
  }

  ghost predicate Inv(s: State) {
    && ConfigOk(s.config, s.self)
    && MatchesOk(s.core, s.docket, s.self)
    && DocketOk(s.docket, s.core.matches)
    && CountersOk(s.core, s.docket)
    && WithinCap(s.core.matches)
    && LogOk(s.core.log, s.ledger)
  }

  // ----- a call changes one match

  function Target(s: State, op: Op): nat {
    match op
    case CreateMatch(_, _) => s.core.count
    case VoteDispute(d, _, _) => if d in s.docket.disputes then s.docket.disputes[d].matchId else 0
    case SettleDispute(d) => if d in s.docket.disputes then s.docket.disputes[d].matchId else 0
    case _ => op.id
  }

  /** Nothing about a match other than `id` changes. */
  ghost predicate OthersSame(s: State, e: Effect, id: nat) {
    && id in e.core.matches && e.core.matches == s.core.matches[id := e.core.matches[id]]
    && (forall k :: k != id ==> Get(e.docket.winner, k) == Get(s.docket.winner, k))
    && (forall k :: k != id ==> Get(e.docket.deadline, k) == Get(s.docket.deadline, k))
    && (forall k :: k != id ==> Get(e.docket.byMatch, k) == Get(s.docket.byMatch, k))
    && (forall k :: k != id ==> BondHeld(e.docket, k) == BondHeld(s.docket, k))
  }

  /** The states a match may move between in one call. */
  predicate Moves(from: MatchState, to: MatchState) {
    || from == to
    || (from == Pending && (to == Active || to == Cancelled))
    || (from == Active && to != Pending)
    || (from == Paused && (to == Active || to == PendingResult || to == Completed))
    || (from == PendingResult && to == Completed)
  }

  /** What a call does at its own match. */
  ghost predicate SoundAt(s: State, e: Effect, id: nat) {
    && id in e.core.matches
    && e.core.count == (if id in s.core.matches then s.core.count else s.core.count + 1)
    && MatchOk(e.core.matches[id], e.docket, id, s.self)
    && (id in s.core.matches ==>
          && e.core.matches[id].terms == s.core.matches[id].terms
          && Moves(s.core.matches[id].state, e.core.matches[id].state))
    && (id !in s.core.matches ==> id == s.core.count && e.core.matches[id].state == Pending)
  }

  /** The counters move by what the match newly holds for each player. */
  ghost predicate CountsAt(s: State, e: Effect, id: nat) {
    forall p: Address ::
      Lookup(e.core.counter, p, 0) == Lookup(s.core.counter, p, 0)
      + Held(e.core, e.docket, id, p) - Held(s.core, s.docket, id, p)
  }

  /** A match becomes live only below both players' caps. */
  ghost predicate CapAt(s: State, e: Effect, id: nat) {
    id in e.core.matches && Live(e.core.matches[id].state)
    && !(id in s.core.matches && Live(s.core.matches[id].state)) ==>
      var t := e.core.matches[id].terms;
      !AtCap(s.core.matches, t.player1) && !AtCap(s.core.matches, t.player2)
  }

  ghost predicate Local(s: State, e: Effect, id: nat) {
    OthersSame(s, e, id) && SoundAt(s, e, id) && CountsAt(s, e, id) && CapAt(s, e, id)
  }

  /** `c'` differs from `c` in counters, completion counts and log only. */
  ghost predicate SameMatches(c: Core, c': Core) {
    c'.matches == c.matches && c'.count == c.count
  }

  lemma SnapshotFrames(c: Core, m: Match, ledger: nat)
    ensures var c' := SnapshotBoth(c, m, ledger); SameMatches(c, c') && c'.counter == c.counter
    ensures var c' := SnapshotDeposited(c, m, ledger); SameMatches(c, c') && c'.counter == c.counter
    ensures var c' := CountBoth(c, m); SameMatches(c, c') && c'.counter == c.counter
  {
  }

  lemma ReleaseBothSpec(c: Core, m: Match)
    requires m.terms.player1 != m.terms.player2
    ensures SameMatches(c, ReleaseBoth(c, m))
    ensures forall p: Address ::
      Lookup(ReleaseBoth(c, m).counter, p, 0) == Lookup(c.counter, p, 0) - (if Plays(m, p) then m.terms.stake else 0)
  {
  }

  lemma ReleaseDepositedSpec(c: Core, m: Match, ledger: nat)
    requires m.terms.player1 != m.terms.player2
    ensures SameMatches(c, ReleaseDeposited(c, m, ledger))
    ensures forall p: Address ::
      Lookup(ReleaseDeposited(c, m, ledger).counter, p, 0)
      == Lookup(c.counter, p, 0) - (if HasDeposit(m, p) then m.terms.stake else 0)
  {
    hide SnapshotDeposited;
    var c1 := if m.deposited1 then Adjust(c, m.terms.player1, -m.terms.stake) else c;
    var c2 := if m.deposited2 then Adjust(c1, m.terms.player2, -m.terms.stake) else c1;
    SnapshotFrames(c2, m, ledger);
  }

  ghost predicate Ready(s: State, id: nat) {
    id in s.core.matches && MatchOk(s.core.matches[id], s.docket, id, s.self)
  }

  lemma CreateLocal(s: State, t: Terms, platform: Platform)
    requires MatchesOk(s.core, s.docket, s.self) && DocketOk(s.docket, s.core.matches) && s.config.stakes.minimum >= 1
    requires t.player1 != s.self && Create(s, t, platform).Ok?
    ensures Local(s, Create(s, t, platform).value, s.core.count)
  {
    hide BondHeld, TierAllows, GameIdOk, TokenFault, AtCap;
    assert s.core.count !in s.core.matches;
  }

  lemma BondSame(d: Docket, d': Docket, id: nat)
    requires d'.byMatch == d.byMatch && d'.disputes == d.disputes
    ensures BondHeld(d', id) == BondHeld(d, id)
  {
  }

  /** A call that only rewrites its match record, without changing who has what deposited. */
  lemma RewriteLocal(s: State, id: nat, m': Match, c: Core, pays: seq<Pay>)
    requires Ready(s, id) && MatchOk(m', s.docket, id, s.self)
    requires var m := s.core.matches[id];
      && m'.terms == m.terms && m'.deposited1 == m.deposited1 && m'.deposited2 == m.deposited2
      && m'.timing.vestedAt == m.timing.vestedAt
      && (m'.state == m.state || (Live(m.state) && Live(m'.state)))
    requires SameMatches(Put(s.core, id, m'), c) && c.counter == s.core.counter
    ensures Local(s, Effect(c, s.docket, pays), id)
  {
    hide BondHeld, MatchOk, AtCap;
  }

  lemma LiveLocal(s: State, op: Op)
    requires op.PauseMatch? || op.ResumeMatch? || op.Heartbeat?
    requires Ready(s, op.id) && Attempt(s, op).Ok?
    ensures Local(s, Attempt(s, op).value, op.id)
  {
    hide Local;
    var e := Attempt(s, op).value;
    RewriteLocal(s, op.id, e.core.matches[op.id], e.core, e.pays);
  }

  lemma DepositedRecord(m: Match, p: Address, time: nat, d: Docket, id: nat, self: Address)
    requires MatchOk(m, d, id, self) && m.state == Pending && Plays(m, p) && !HasDeposit(m, p)
    ensures var m' := Deposited(m, p, time);
      && MatchOk(m', d, id, self) && m'.terms == m.terms && Moves(m.state, m'.state)
      && (m'.state == Pending || m'.state == Active) && (m'.state == Active <==> Funded(m'))
      && forall q: Address :: HasDeposit(m', q) <==> HasDeposit(m, q) || q == p
  {
  }

  lemma DepositLocal(s: State, id: nat, p: Address)
    requires Ready(s, id) && Deposit(s, id, p).Ok?
    ensures Local(s, Deposit(s, id, p).value, id)
  {
    hide AtCap, TierAllows, BondHeld, Deposited, MatchOk, HasDeposit;
    assert !HasDeposit(s.core.matches[id], p) by { DepositOnce(s, id, p); }
    DepositedRecord(s.core.matches[id], p, s.time, s.docket, id, s.self);
  }

  lemma DepositOnce(s: State, id: nat, p: Address)
    requires Deposit(s, id, p).Ok?
    ensures id in s.core.matches && !HasDeposit(s.core.matches[id], p)
  {
    hide AtCap, TierAllows, Deposited;
  }

  lemma SettledNowLocal(s: State, id: nat, winner: Winner)
    requires Ready(s, id) && Live(s.core.matches[id].state) && winner != NoWinner
    ensures Local(s, SettledNow(s, id, winner), id)
  {
    hide SnapshotBoth, CountBoth, ReleaseBoth, BondHeld, AtCap;
    var m := s.core.matches[id];
    var m1 := Settled(m, winner, s.time);
    var c1 := Put(s.core, id, m1.(timing := m1.timing.(completedAt := Some(s.ledger))));
    SnapshotFrames(c1, m, s.ledger);
    ReleaseBothSpec(CountBoth(c1, m), m);
    SnapshotFrames(ReleaseBoth(CountBoth(c1, m), m), m, s.ledger);
  }

  lemma SettledLaterLocal(s: State, id: nat, winner: Winner)
    requires Ready(s, id) && Live(s.core.matches[id].state) && winner != NoWinner
    ensures Local(s, SettledLater(s, id, winner), id)
  {
    hide CountBoth, BondHeld, AtCap;
    var m, e := s.core.matches[id], SettledLater(s, id, winner);
    SnapshotFrames(Put(s.core, id, Settled(m, winner, s.time).(state := PendingResult)), m, s.ledger);
    forall k: nat
      ensures BondHeld(e.docket, k) == BondHeld(s.docket, k)
    {
      BondSame(s.docket, e.docket, k);
    }
  }

  lemma CallOffLocal(s: State, id: nat, pays: seq<Pay>)
    requires Ready(s, id) && s.core.matches[id].state == Pending
    ensures var m := s.core.matches[id];
      Local(s, Effect(ReleaseDeposited(Put(s.core, id, CalledOff(m, s.ledger)), m, s.ledger), s.docket, pays), id)
  {
    hide ReleaseDeposited, BondHeld, AtCap;
    var m := s.core.matches[id];
    ReleaseDepositedSpec(Put(s.core, id, CalledOff(m, s.ledger)), m, s.ledger);
  }

  lemma RolledBackLocal(s: State, id: nat, m1: Match, pays: seq<Pay>)
    requires Ready(s, id) && s.core.matches[id].state == Active
    requires m1 == s.core.matches[id].(rollback1 := m1.rollback1, rollback2 := m1.rollback2)
    ensures var core := SnapshotDeposited(Put(s.core, id, CalledOff(m1, s.ledger)), m1, s.ledger);
      Local(s, Effect(core, s.docket, pays), id)
  {
    hide SnapshotDeposited, BondHeld, AtCap;
    SnapshotFrames(Put(s.core, id, CalledOff(m1, s.ledger)), m1, s.ledger);
  }

  lemma RollbackLocal(s: State, id: nat, p: Address, reasonLen: nat)
    requires Ready(s, id) && Rollback(s, id, p, reasonLen).Ok?
    ensures Local(s, Rollback(s, id, p, reasonLen).value, id)
  {
    hide SnapshotDeposited, Local, RefundDeposited, CalledOff;
    var m, e := s.core.matches[id], Rollback(s, id, p, reasonLen).value;
    var m1 := Consent(m, p);
    if m1.rollback1 && m1.rollback2 {
      RolledBackLocal(s, id, m1, e.pays);
    } else {
      RewriteLocal(s, id, m1, e.core, e.pays);
    }
  }

  lemma StalledLocal(s: State, id: nat, p: Address, winner: Winner)
    requires Ready(s, id) && ResolveStalled(s, id, p, winner).Ok?
    ensures Local(s, ResolveStalled(s, id, p, winner).value, id)
  {
    hide SnapshotBoth, CountBoth, BondHeld, PotOverflows, AtCap;
    var m := s.core.matches[id];
    var m1 := m.(state := Completed, winner := winner, timing := m.timing.(completedAt := Some(s.ledger)));
    SnapshotFrames(Put(s.core, id, m1), m, s.ledger);
    SnapshotFrames(SnapshotBoth(Put(s.core, id, m1), m, s.ledger), m, s.ledger);
  }

  /** Every successful claim marks its player's share of a vested match as claimed. */
  lemma ClaimShape(s: State, id: nat, p: Address)
    requires Claim(s, id, p).Ok?
    ensures id in s.core.matches
    ensures var m, e := s.core.matches[id], Claim(s, id, p).value;
      && m.state == Completed && m.timing.vestedAt.Some? && Plays(m, p)
      && e.docket == s.docket
      && e.core == Snapshot(Put(s.core, id, Claimed(m, p)), p, s.ledger)
      && Share(s.config, s.self, m, p) == Some(e.pays)
  {
    hide Share, Put, Snapshot, Claimed;
  }

  lemma ClaimLocal(s: State, id: nat, p: Address)
    requires Ready(s, id) && Claim(s, id, p).Ok?
    ensures Local(s, Claim(s, id, p).value, id)
  {
    ClaimShape(s, id, p);
    hide Claim, Local;
    var e := Claim(s, id, p).value;
    RewriteLocal(s, id, e.core.matches[id], e.core, e.pays);
  }

  lemma FinalizeLocal(s: State, id: nat)
    requires Ready(s, id) && Finalize(s, id).Ok?
    ensures Local(s, Finalize(s, id).value, id)
  {
    hide SnapshotBoth, CountBoth, ReleaseBoth, BondHeld, PotOverflows, Payout, AtCap;
    var m := s.core.matches[id];
    var c1 := Put(s.core, id, m.(state := Completed, timing := m.timing.(completedAt := Some(s.ledger))));
    ReleaseBothSpec(c1, m);
    SnapshotFrames(ReleaseBoth(c1, m), m, s.ledger);
    SnapshotFrames(CountBoth(ReleaseBoth(c1, m), m), m, s.ledger);
  }

  /** A new dispute leaves the bonds of other matches alone. */
  lemma BondOpened(d: Docket, matches: map<nat, Match>, d': Docket, id: nat, k: nat, dispute: Dispute)
    requires DocketOk(d, matches) && k !in d.disputes
    requires d'.byMatch == d.byMatch[id := k] && d'.disputes == d.disputes[k := dispute]
    ensures forall i :: i != id ==> BondHeld(d', i) == BondHeld(d, i)
  {
  }

  lemma FreshDispute(d: Docket, matches: map<nat, Match>)
    requires DocketOk(d, matches)
    ensures d.disputeCount !in d.disputes
  {
  }

  lemma DisputeLocal(s: State, id: nat, p: Address, hashOk: bool)
    requires Ready(s, id) && DocketOk(s.docket, s.core.matches) && OpenDispute(s, id, p, hashOk).Ok?
    ensures Local(s, OpenDispute(s, id, p, hashOk).value, id)
  {
    hide BondFor, BondRate, BondHeld, DocketOk, AtCap;
    var d, e := s.docket.disputeCount, OpenDispute(s, id, p, hashOk).value;
    FreshDispute(s.docket, s.core.matches);
    BondOpened(s.docket, s.core.matches, e.docket, id, d, e.docket.disputes[d]);
    assert s.core.matches[id := s.core.matches[id]] == s.core.matches;
  }

  /** A change of one dispute leaves the bonds of other matches alone. */
  lemma BondElsewhere(d: Docket, matches: map<nat, Match>, k: nat, dispute: Dispute, ballots: map<nat, map<Address,
                      Ballot>>, id: nat)
    requires DocketOk(d, matches) && k in d.disputes && id != d.disputes[k].matchId
    ensures BondHeld(d.(disputes := d.disputes[k := dispute], ballots := ballots), id) == BondHeld(d, id)
  {
  }

  lemma CastLocal(s: State, d: nat, p: Address, vote: bool)
    requires DocketOk(s.docket, s.core.matches) && Cast(s, d, p, vote).Ok?
    requires Ready(s, s.docket.disputes[d].matchId)
    ensures Local(s, Cast(s, d, p, vote).value, s.docket.disputes[d].matchId)
  {
    hide BondHeld, WeightAt, DocketOk, AtCap;
    var e := Cast(s, d, p, vote).value;
    forall k | k != s.docket.disputes[d].matchId
      ensures BondHeld(e.docket, k) == BondHeld(s.docket, k)
    {
      BondElsewhere(s.docket, s.core.matches, d, e.docket.disputes[d], e.docket.ballots, k);
    }
  }

  lemma ResolveLocal(s: State, d: nat)
    requires DocketOk(s.docket, s.core.matches) && ResolveDispute(s, d).Ok?
    requires Ready(s, s.docket.disputes[d].matchId)
    ensures Local(s, ResolveDispute(s, d).value, s.docket.disputes[d].matchId)
  {
    hide BondHeld, DocketOk, CountBoth, PotOverflows, ResolutionPays, Verdict, AtCap, Resolved;
    var e, id := ResolveDispute(s, d).value, s.docket.disputes[d].matchId;
    var m := s.core.matches[id];
    SnapshotFrames(Put(s.core, id, m.(state := Completed, timing := m.timing.(completedAt := Some(s.ledger)))), m,
      s.ledger);
    InByMatch(s.docket, s.core.matches, d);
    forall k | k != id
      ensures BondHeld(e.docket, k) == BondHeld(s.docket, k)
    {
      BondElsewhere(s.docket, s.core.matches, d, e.docket.disputes[d], e.docket.ballots, k);
    }
  }

  lemma InByMatch(d: Docket, matches: map<nat, Match>, k: nat)
    requires DocketOk(d, matches) && k in d.disputes
    ensures d.disputes[k].matchId in d.byMatch && d.byMatch[d.disputes[k].matchId] == k
  {
    assert DisputeOk(d, matches, k);
  }
}
