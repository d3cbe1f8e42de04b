/** The escrow contract as a simple state machine over its primary records: the match map, the
    docket of results and disputes, the balance counters and the full snapshot log. The contract
    class in EscrowContract also keeps the state index, the active set and the snapshot ring, and is
    proved to take exactly these steps. Matches stake a single token. */
module EscrowModel {
  import opened Prelude

  const SECONDS_PER_LEDGER: nat := 5
  const VOTING_PERIOD_LEDGERS: nat := 17_280
  const ROLLBACK_WINDOW_SECONDS: nat := 86_400
  const MAX_PAUSE_DURATION_LEDGERS: nat := 17_280
  const ADMIN_STALL_WINDOW_SECONDS: nat := 604_800
  const MAX_REASON_LEN: nat := 256
  const MAX_ACTIVE_MATCHES: nat := 1_000
  const MAX_SNAPSHOTS: nat := 32

  datatype Platform = Lichess | ChessDotCom
  datatype MatchState = Pending | Active | Paused | PendingResult | Completed | Cancelled
  datatype Winner = Player1 | Player2 | Draw | NoWinner

  /** What the players agreed on; never changes. */
  datatype Terms = Terms(
    player1: Address, player2: Address, stake: int, token: Address, game: string,
    referrer: Option<Address>, created: nat)

  datatype Timing = Timing(
    pausedAt: Option<nat>, pauseTotal: nat, heartbeat: nat, activatedAt: Option<nat>,
    vestedAt: Option<nat>, completedAt: Option<nat>)

  datatype Match = Match(
    terms: Terms, state: MatchState, deposited1: bool, deposited2: bool, winner: Winner,
    claimed1: bool, claimed2: bool, rollback1: bool, rollback2: bool, timing: Timing)

  /** A player's escrow balance as recorded at a ledger. */
  datatype Snap = Snap(ledger: nat, balance: int)

  datatype DisputeState = Ongoing | Upheld | Overturned
  datatype Dispute = Dispute(
    matchId: nat, disputer: Address, bond: int, yes: int, no: int, state: DisputeState,
    snapshotLedger: nat, votingDeadline: nat, quorum: int)
  datatype Ballot = Ballot(vote: bool, weight: int)

  /** The admin-controlled settings. */
  datatype Config = Config(
    admin: Address, oracle: Address, paused: bool, frozen: set<Address>,
    blocked: set<Address>, allowed: Option<set<Address>>, stablecoins: Option<set<Address>>,
    fees: Fees, stakes: Stakes, vestingSecs: nat, timeoutSecs: nat,
    disputePeriod: nat, holdDuration: nat, quorumBps: nat)
  datatype Fees = Fees(
    protocolBps: nat, cancelBps: nat, referralBps: nat, cap: Option<int>, treasury: Address, recipient: Address)
  datatype Stakes = Stakes(minimum: int, maximum: Option<int>, tiers: seq<BondTier>, bondBps: nat)
  datatype BondTier = BondTier(maxStake: int, bps: nat)

  type Log = map<Address, seq<Snap>>

  datatype Core = Core(
    matches: map<nat, Match>, count: nat, games: set<string>, completed: map<Address, nat>,
    counter: map<Address, int>, log: Log)

  datatype Docket = Docket(
    winner: map<nat, Winner>, deadline: map<nat, nat>, byMatch: map<nat, nat>,
    disputes: map<nat, Dispute>, disputeCount: nat, ballots: map<nat, map<Address, Ballot>>)

  datatype State = State(
    self: Address, config: Config, core: Core, docket: Docket, balances: Balances, ledger: nat, time: nat)

  datatype Error =
    | MatchNotFound | AlreadyFunded | NotFunded | Unauthorized | InvalidState | Overflow | ContractPaused
    | InvalidAmount | PlayerFrozen | DuplicateGameId | MatchNotExpired | InvalidGameId | InvalidPlayers
    | TokenNotAllowed | InvalidAddress | VestingNotExpired | AlreadyClaimed | DisputeNotFound
    | PendingResultNotFound | DisputeAlreadyResolved | VotingPeriodElapsed | AlreadyVoted | NotStaker
    | VotingPeriodNotElapsed | MatchNotInPendingResult | DisputePeriodNotElapsed | DisputeAlreadyRaised
    | InvalidEvidenceHash | TierStakeNotAllowed | InvalidPauseState | QuorumNotMet
    | InsufficientHoldingDuration | TooManyActiveMatches | NotStablecoin | TransferFailed

  // ----- transfers

  /** One token transfer of a transaction. */
  datatype Pay = Pay(token: Address, src: Address, dst: Address, amount: int)

  /** Transfers in order; any failing transfer fails the whole transaction. */
  function PayAll(b: Balances, ps: seq<Pay>): Option<Balances>
    decreases |ps|
  {
    if ps == [] then Some(b)
    else
      var moved := Transfer(b, ps[0].token, ps[0].src, ps[0].dst, ps[0].amount);
      if moved.None? then None else PayAll(moved.value, ps[1..])
  }

  /** What an entry point that passes its checks does. */
  datatype Effect = Effect(core: Core, docket: Docket, pays: seq<Pay>)

  // ----- records

  predicate Funded(m: Match) {
    m.deposited1 && m.deposited2
  }

  predicate Plays(m: Match, p: Address) {
    p == m.terms.player1 || p == m.terms.player2
  }

  predicate Live(state: MatchState) {
    state == Active || state == Paused
  }

  predicate Terminal(state: MatchState) {
    state == Completed || state == Cancelled
  }

  /** The matches that count against a player's cap. */
  function ActiveOf(matches: map<nat, Match>, p: Address): set<nat> {
    set id | id in matches && Live(matches[id].state) && Plays(matches[id], p)
  }

  function Put(c: Core, id: nat, m: Match): Core {
    c.(matches := c.matches[id := m])
  }

  /** `update_player_escrow_balance`. */
  function Adjust(c: Core, p: Address, delta: int): Core {
    c.(counter := c.counter[p := Lookup(c.counter, p, 0) + delta])
  }

  /** `record_player_snapshot` against the full log. */
  function Snapshot(c: Core, p: Address, ledger: nat): Core {
    c.(log := c.log[p := Lookup(c.log, p, []) + [Snap(ledger, Lookup(c.counter, p, 0))]])
  }

  function CountCompleted(c: Core, p: Address): Core {
    c.(completed := c.completed[p := SatAdd32(Lookup(c.completed, p, 0), 1)])
  }

  function SnapshotBoth(c: Core, m: Match, ledger: nat): Core {
    Snapshot(Snapshot(c, m.terms.player1, ledger), m.terms.player2, ledger)
  }

  function CountBoth(c: Core, m: Match): Core {
    CountCompleted(CountCompleted(c, m.terms.player1), m.terms.player2)
  }

  /** Take a match's stake off both players' counters. */
  function ReleaseBoth(c: Core, m: Match): Core {
    Adjust(Adjust(c, m.terms.player1, -m.terms.stake), m.terms.player2, -m.terms.stake)
  }

  /** Release, then snapshot, whoever deposited. */
  function ReleaseDeposited(c: Core, m: Match, ledger: nat): Core {
    var c1 := if m.deposited1 then Adjust(c, m.terms.player1, -m.terms.stake) else c;
    var c2 := if m.deposited2 then Adjust(c1, m.terms.player2, -m.terms.stake) else c1;
    SnapshotDeposited(c2, m, ledger)
  }

  function SnapshotDeposited(c: Core, m: Match, ledger: nat): Core {
    var c1 := if m.deposited1 then Snapshot(c, m.terms.player1, ledger) else c;
    if m.deposited2 then Snapshot(c1, m.terms.player2, ledger) else c1
  }

  // ----- tiers

  function TierBounds(completed: nat): (int, int) {
    if completed >= 10 then (1_001, I128_MAX)
    else if completed >= 6 then (501, 1_000)
    else if completed >= 3 then (101, 500)
    else (1, 100)
  }

  predicate TierAllows(c: Core, p: Address, stake: int) {
    var bounds := TierBounds(Lookup(c.completed, p, 0));
    bounds.0 <= stake <= bounds.1
  }

  // ----- lifecycle

  predicate Digit(ch: char) {
    '0' <= ch <= '9'
  }

  predicate Alphanumeric(ch: char) {
    Digit(ch) || 'a' <= ch <= 'z' || 'A' <= ch <= 'Z'
  }

  predicate GameIdOk(game: string, platform: Platform) {
    match platform
    case Lichess => (|game| == 8 || |game| == 12) && forall i :: 0 <= i < |game| ==> Alphanumeric(game[i])
    case ChessDotCom => 7 <= |game| <= 12 && forall i :: 0 <= i < |game| ==> Digit(game[i])
  }

  function TokenFault(c: Config, token: Address): Option<Error> {
    if token in c.blocked then Some(TokenNotAllowed)
    else if c.allowed.Some? && token !in c.allowed.value then Some(TokenNotAllowed)
    else if c.stablecoins.Some? && token !in c.stablecoins.value then Some(NotStablecoin)
    else None
  }

  function NewMatch(terms: Terms, time: nat): Match {
    Match(terms, Pending, false, false, NoWinner, false, false, false, false,
          Timing(None, 0, time, None, None, None))
  }

  function CreateFault(s: State, t: Terms, platform: Platform): Option<Error> {
    var stakes := s.config.stakes;
    if s.config.paused then Some(ContractPaused)
    else if t.player1 in s.config.frozen || t.player2 in s.config.frozen then Some(PlayerFrozen)
    else if TokenFault(s.config, t.token).Some? then TokenFault(s.config, t.token)
    else if t.stake < stakes.minimum then Some(InvalidAmount)
    else if stakes.maximum.Some? && t.stake > stakes.maximum.value then Some(InvalidAmount)
    else if t.referrer.Some? && t.referrer.value in {t.player1, t.player2, s.self} then Some(InvalidAddress)
    else if !TierAllows(s.core, t.player1, t.stake) || !TierAllows(s.core, t.player2, t.stake)
    then Some(TierStakeNotAllowed)
    else if !GameIdOk(t.game, platform) then Some(InvalidGameId)
    else if t.player1 == t.player2 || t.player2 == s.self then Some(InvalidPlayers)
    else if t.game in s.core.games then Some(DuplicateGameId)
    else None
  }

  function Create(s: State, t: Terms, platform: Platform): Result<Effect, Error> {
    var terms := t.(created := s.ledger);
    var fault := CreateFault(s, terms, platform);
    if fault.Some? then Err(fault.value)
    else
      var c := Put(s.core, s.core.count, NewMatch(terms, s.time));
      Ok(Effect(c.(count := c.count + 1, games := c.games + {t.game}), s.docket, []))
  }

  function WithDeposit(m: Match, p: Address, time: nat): Match {
    var m1 := if p == m.terms.player1 then m.(deposited1 := true) else m.(deposited2 := true);
    m1.(timing := m1.timing.(heartbeat := time))
  }

  function Activated(m: Match, time: nat): Match {
    m.(state := Active, timing := m.timing.(activatedAt := Some(time)))
  }

  function Deposited(m: Match, p: Address, time: nat): Match {
    var m1 := WithDeposit(m, p, time);
    if Funded(m1) then Activated(m1, time) else m1
  }

  predicate AtCap(matches: map<nat, Match>, p: Address) {
    |ActiveOf(matches, p)| >= MAX_ACTIVE_MATCHES
  }

  function DepositFault(s: State, id: nat, p: Address): (fault: Option<Error>)
    ensures fault.None? ==> id in s.core.matches
  {
    if s.config.paused then Some(ContractPaused)
    else if p in s.config.frozen then Some(PlayerFrozen)
    else if id !in s.core.matches then Some(MatchNotFound)
    else
      var m := s.core.matches[id];
      if Funded(m) then Some(AlreadyFunded)
      else if m.state != Pending then Some(InvalidState)
      else if !Plays(m, p) then Some(Unauthorized)
      else if (p == m.terms.player1 && m.deposited1) || (p == m.terms.player2 && m.deposited2) then Some(AlreadyFunded)
      else if !TierAllows(s.core, p, m.terms.stake) then Some(TierStakeNotAllowed)
      else if BalanceOf(s.balances, m.terms.token, p) < m.terms.stake then Some(TransferFailed)
      else if Funded(Deposited(m, p, s.time))
              && (AtCap(s.core.matches, m.terms.player1) || AtCap(s.core.matches, m.terms.player2))
      then Some(TooManyActiveMatches)
      else None
  }

  function Deposit(s: State, id: nat, p: Address): Result<Effect, Error> {
    var fault := DepositFault(s, id, p);
    if fault.Some? then Err(fault.value)
    else
      var m := s.core.matches[id];
      Ok(Effect(Snapshot(Adjust(Put(s.core, id, Deposited(m, p, s.time)), p, m.terms.stake), p, s.ledger), s.docket,
                [Pay(m.terms.token, p, s.self, m.terms.stake)]))
  }

  function CalledOff(m: Match, ledger: nat): Match {
    m.(state := Cancelled, timing := m.timing.(completedAt := Some(ledger)))
  }

  /** Send a player's stake back, less a fee for the treasury. */
  function Refund(self: Address, treasury: Address, m: Match, p: Address, fee: int): seq<Pay> {
    [Pay(m.terms.token, self, p, m.terms.stake - fee)] +
    if fee > 0 then [Pay(m.terms.token, self, treasury, fee)] else []
  }

  function RefundDeposited(self: Address, treasury: Address, m: Match, fee: int): seq<Pay> {
    (if m.deposited1 then Refund(self, treasury, m, m.terms.player1, fee) else []) +
    (if m.deposited2 then Refund(self, treasury, m, m.terms.player2, fee) else [])
  }

  function Cancel(s: State, id: nat, caller: Address): Result<Effect, Error> {
    if s.config.paused then Err(ContractPaused)
    else if id !in s.core.matches then Err(MatchNotFound)
    else
      var m := s.core.matches[id];
      if m.state != Pending then Err(InvalidState)
      else if !Plays(m, caller) then Err(Unauthorized)
      else if m.terms.stake * s.config.fees.cancelBps > I128_MAX then Err(Overflow)
      else
        var fee := m.terms.stake * s.config.fees.cancelBps / 10_000;
        Ok(Effect(ReleaseDeposited(Put(s.core, id, CalledOff(m, s.ledger)), m, s.ledger), s.docket,
                  RefundDeposited(s.self, s.config.fees.treasury, m, fee)))
  }

  /** The timeout in ledgers, rounded up so that it is never reached early. */
  function TimeoutLedgers(secs: nat): (ledgers: nat)
    ensures secs <= ledgers * SECONDS_PER_LEDGER < secs + SECONDS_PER_LEDGER
  {
    (secs + SECONDS_PER_LEDGER - 1) / SECONDS_PER_LEDGER
  }

  function Expire(s: State, id: nat): Result<Effect, Error> {
    if id !in s.core.matches then Err(MatchNotFound)
    else
      var m := s.core.matches[id];
      if m.state != Pending then Err(InvalidState)
      else if SatSub(s.ledger, m.terms.created) < TimeoutLedgers(s.config.timeoutSecs) then Err(MatchNotExpired)
      else if m.terms.token in s.config.blocked then Err(TokenNotAllowed)
      else Ok(Effect(ReleaseDeposited(Put(s.core, id, CalledOff(m, s.ledger)), m, s.ledger), s.docket,
                     RefundDeposited(s.self, s.config.fees.treasury, m, 0)))
  }

  function Pause(s: State, id: nat, caller: Address): Result<Effect, Error> {
    if id !in s.core.matches then Err(MatchNotFound)
    else
      var m := s.core.matches[id];
      if m.state != Active then Err(InvalidPauseState)
      else if !Plays(m, caller) then Err(Unauthorized)
      else if m.timing.pauseTotal >= MAX_PAUSE_DURATION_LEDGERS then Err(InvalidPauseState)
      else
        var m1 := m.(state := Paused, timing := m.timing.(pausedAt := Some(s.ledger)));
        Ok(Effect(Put(s.core, id, m1), s.docket, []))
  }

  function Resumed(t: Timing, ledger: nat): Timing {
    t.(pausedAt := None,
       pauseTotal := if t.pausedAt.Some? then SatAdd32(t.pauseTotal, SatSub(ledger, t.pausedAt.value))
         else t.pauseTotal)
  }

  function Resume(s: State, id: nat, caller: Address): Result<Effect, Error> {
    if id !in s.core.matches then Err(MatchNotFound)
    else
      var m := s.core.matches[id];
      if m.state != Paused then Err(InvalidState)
      else if !Plays(m, caller) then Err(Unauthorized)
      else Ok(Effect(Put(s.core, id, m.(state := Active, timing := Resumed(m.timing, s.ledger))), s.docket, []))
  }

  function Beat(s: State, id: nat, caller: Address): Result<Effect, Error> {
    if id !in s.core.matches then Err(MatchNotFound)
    else
      var m := s.core.matches[id];
      if !Plays(m, caller) then Err(Unauthorized)
      else if m.state != Active then Err(InvalidState)
      else Ok(Effect(Put(s.core, id, m.(timing := m.timing.(heartbeat := s.time))), s.docket, []))
  }

  /** One player's consent to roll the match back. */
  function Consent(m: Match, p: Address): (m1: Match)
    ensures m1.terms == m.terms && m1.state == m.state
  {
    if p == m.terms.player1 then m.(rollback1 := true) else m.(rollback2 := true)
  }

  function Rollback(s: State, id: nat, caller: Address, reasonLen: nat): Result<Effect, Error> {
    if reasonLen == 0 || reasonLen > MAX_REASON_LEN then Err(InvalidEvidenceHash)
    else if id !in s.core.matches then Err(MatchNotFound)
    else
      var m := s.core.matches[id];
      if !Plays(m, caller) then Err(Unauthorized)
      else if m.state != Active then Err(InvalidState)
      else if SatSub(s.time, m.timing.heartbeat) > ROLLBACK_WINDOW_SECONDS then Err(VotingPeriodElapsed)
      else
        var m1 := Consent(m, caller);
        if !m1.rollback1 || !m1.rollback2 then Ok(Effect(Put(s.core, id, m1), s.docket, []))
        else Ok(Effect(SnapshotDeposited(Put(s.core, id, CalledOff(m1, s.ledger)), m1, s.ledger), s.docket,
                       RefundDeposited(s.self, s.config.fees.treasury, m1, 0)))
  }

  // ----- settlement

  function Settled(m: Match, winner: Winner, time: nat): Match {
    m.(state := Completed, winner := winner, timing := m.timing.(vestedAt := Some(time)))
  }

  /** Without a dispute period the match completes at once. */
  function SettledNow(s: State, id: nat, winner: Winner): Effect
    requires id in s.core.matches
  {
    var m := s.core.matches[id];
    var m1 := Settled(m, winner, s.time);
    var m2 := m1.(timing := m1.timing.(completedAt := Some(s.ledger)));
    Effect(SnapshotBoth(ReleaseBoth(CountBoth(Put(s.core, id, m2), m), m), m, s.ledger), s.docket, [])
  }

  /** With one, the result waits on the docket. */
  function SettledLater(s: State, id: nat, winner: Winner): Effect
    requires id in s.core.matches
  {
    var m := s.core.matches[id];
    Effect(CountBoth(Put(s.core, id, Settled(m, winner, s.time).(state := PendingResult)), m),
           s.docket.(winner := s.docket.winner[id := winner],
                     deadline := s.docket.deadline[id := s.ledger + s.config.disputePeriod]), [])
  }

  function Settle(s: State, id: nat, winner: Winner, caller: Address): Result<Effect, Error> {
    if s.config.paused then Err(ContractPaused)
    else if caller != s.config.oracle then Err(Unauthorized)
    else if winner == NoWinner then Err(InvalidState)
    else if id !in s.core.matches then Err(MatchNotFound)
    else
      var m := s.core.matches[id];
      if m.state == Pending || !Funded(m) then Err(NotFunded)
      else if !Live(m.state) then Err(InvalidState)
      else if s.config.disputePeriod == 0 then
        if m.terms.stake * 2 > I128_MAX then Err(Overflow) else Ok(SettledNow(s, id, winner))
      else if s.ledger + s.config.disputePeriod > U32_MAX then Err(Overflow)
      else Ok(SettledLater(s, id, winner))
  }

  /** Pay a match out: the pot to the winner, or each stake back. */
  function Payout(self: Address, m: Match, winner: Winner): seq<Pay> {
    var t := m.terms;
    match winner
    case Player1 => [Pay(t.token, self, t.player1, 2 * t.stake)]
    case Player2 => [Pay(t.token, self, t.player2, 2 * t.stake)]
    case Draw => [Pay(t.token, self, t.player1, t.stake), Pay(t.token, self, t.player2, t.stake)]
    case NoWinner => []
  }

  predicate PotOverflows(m: Match, winner: Winner) {
    winner != Draw && 2 * m.terms.stake > I128_MAX
  }

  predicate Stalled(m: Match, time: nat) {
    var since := SatSub(time, if m.timing.activatedAt.Some? then m.timing.activatedAt.value else m.timing.heartbeat);
    m.state == Paused || (m.state == Active && since > MAX_PAUSE_DURATION_LEDGERS * SECONDS_PER_LEDGER)
  }

  function ResolveStalled(s: State, id: nat, caller: Address, winner: Winner): Result<Effect, Error> {
    if caller != s.config.admin then Err(Unauthorized)
    else if winner == NoWinner then Err(InvalidAmount)
    else if id !in s.core.matches then Err(MatchNotFound)
    else
      var m := s.core.matches[id];
      var since := SatSub(s.time,
        if m.timing.activatedAt.Some? then m.timing.activatedAt.value else m.timing.heartbeat);
      if !Stalled(m, s.time) then Err(InvalidState)
      else if !Funded(m) then Err(NotFunded)
      else if since <= ADMIN_STALL_WINDOW_SECONDS then Err(MatchNotExpired)
      else if PotOverflows(m, winner) then Err(Overflow)
      else
        var m1 := m.(state := Completed, winner := winner, timing := m.timing.(completedAt := Some(s.ledger)));
        var c1 := SnapshotBoth(Put(s.core, id, m1), m, s.ledger);
        Ok(Effect(if winner == Draw then c1 else CountBoth(c1, m), s.docket, Payout(s.self, m, winner)))
  }

  // ----- claims

  function ReferralFee(c: Config, m: Match, pot: int): Option<int> {
    if m.terms.referrer.None? || c.fees.cancelBps == 0 then Some(0)
    else if pot * c.fees.cancelBps > I128_MAX then None
    else
      var platform := pot * c.fees.cancelBps / 10_000;
      if platform * c.fees.referralBps > I128_MAX then None else Some(platform * c.fees.referralBps / 10_000)
  }

  function ProtocolFee(c: Config, pot: int): Option<int> {
    if c.fees.protocolBps == 0 then Some(0)
    else if pot * c.fees.protocolBps > I128_MAX then None
    else
      var fee := pot * c.fees.protocolBps / 10_000;
      Some(if c.fees.cap.Some? then Min(fee, c.fees.cap.value) else fee)
  }

  /** How a winner's claim divides the pot. */
  function ClaimPays(self: Address, recipient: Address, m: Match, p: Address, referral: int, protocol: int): seq<Pay> {
    var t := m.terms;
    [Pay(t.token, self, p, 2 * t.stake - referral - protocol)] +
    (if referral > 0 && t.referrer.Some? then [Pay(t.token, self, t.referrer.value, referral)] else []) +
    (if protocol > 0 then [Pay(t.token, self, recipient, protocol)] else [])
  }

  /** What a claim by `p` sends out: the own stake after a draw, otherwise the divided pot. */
  function Share(c: Config, self: Address, m: Match, p: Address): Option<seq<Pay>> {
    if m.winner == Draw then Some([Pay(m.terms.token, self, p, m.terms.stake)])
    else
      var pot := 2 * m.terms.stake;
      var referral, protocol := ReferralFee(c, m, pot), ProtocolFee(c, pot);
      if pot > I128_MAX || referral.None? || protocol.None? then None
      else Some(ClaimPays(self, c.fees.recipient, m, p, referral.value, protocol.value))
  }

  function Claimed(m: Match, p: Address): (m1: Match)
    ensures m1.terms == m.terms && m1.state == m.state
  {
    if p == m.terms.player1 then m.(claimed1 := true) else m.(claimed2 := true)
  }

  function Claim(s: State, id: nat, p: Address): Result<Effect, Error> {
    if id !in s.core.matches then Err(MatchNotFound)
    else
      var m := s.core.matches[id];
      var first := p == m.terms.player1;
      if m.state != Completed || m.timing.vestedAt.None? then Err(InvalidState)
      else if s.time < m.timing.vestedAt.value + s.config.vestingSecs then Err(VestingNotExpired)
      else if !Plays(m, p) then Err(Unauthorized)
      else if m.winner == NoWinner then Err(InvalidState)
      else if if first then m.claimed1 else m.claimed2 then Err(AlreadyClaimed)
      else if m.winner == (if first then Player2 else Player1) then Err(Unauthorized)
      else
        var c1 := Snapshot(Put(s.core, id, Claimed(m, p)), p, s.ledger);
        var share := Share(s.config, s.self, m, p);
        if share.None? then Err(Overflow) else Ok(Effect(c1, s.docket, share.value))
  }

  // ----- disputes

  function Finalize(s: State, id: nat): Result<Effect, Error> {
    if id !in s.core.matches then Err(MatchNotFound)
    else
      var m := s.core.matches[id];
      if m.state != PendingResult then Err(MatchNotInPendingResult)
      else if id !in s.docket.deadline then Err(PendingResultNotFound)
      else if s.ledger < s.docket.deadline[id] then Err(DisputePeriodNotElapsed)
      else if id in s.docket.byMatch then Err(DisputeAlreadyRaised)
      else if id !in s.docket.winner then Err(PendingResultNotFound)
      else if s.docket.winner[id] == NoWinner then Err(InvalidState)
      else if PotOverflows(m, s.docket.winner[id]) then Err(Overflow)
      else
        var m1 := m.(state := Completed, timing := m.timing.(completedAt := Some(s.ledger)));
        Ok(Effect(SnapshotBoth(CountBoth(ReleaseBoth(Put(s.core, id, m1), m), m), m, s.ledger), s.docket,
                  Payout(s.self, m, s.docket.winner[id])))
  }

  /** The bond rate of the first tier that covers the stake, or of the last tier. */
  function TierBps(tiers: seq<BondTier>, stake: int): nat
    requires tiers != []
  {
    if stake <= tiers[0].maxStake || |tiers| == 1 then tiers[0].bps else TierBps(tiers[1..], stake)
  }

  function BondRate(st: Stakes, stake: int): nat {
    if st.tiers == [] then st.bondBps else TierBps(st.tiers, stake)
  }

  function BondFor(st: Stakes, stake: int): int {
    var bond := stake * BondRate(st, stake) / 10_000;
    if bond < 1 then 1 else bond
  }

  function OpenDispute(s: State, id: nat, p: Address, hashOk: bool): Result<Effect, Error> {
    if id !in s.core.matches then Err(MatchNotFound)
    else
      var m := s.core.matches[id];
      if m.state != PendingResult then Err(MatchNotInPendingResult)
      else if !Plays(m, p) then Err(Unauthorized)
      else if id !in s.docket.deadline then Err(PendingResultNotFound)
      else if s.ledger >= s.docket.deadline[id] then Err(DisputePeriodNotElapsed)
      else if !hashOk then Err(InvalidEvidenceHash)
      else if id in s.docket.byMatch then Err(DisputeAlreadyRaised)
      else if m.terms.stake * BondRate(s.config.stakes, m.terms.stake) > I128_MAX then Err(Overflow)
      else
        var bond := BondFor(s.config.stakes, m.terms.stake);
        var total := BalanceOf(s.balances, m.terms.token, s.self) + bond;
        if BalanceOf(s.balances, m.terms.token, p) < bond then Err(TransferFailed)
        else if s.ledger + VOTING_PERIOD_LEDGERS > U32_MAX || total * s.config.quorumBps > I128_MAX then Err(Overflow)
        else
          var d := s.docket.disputeCount;
          var dispute := Dispute(id, p, bond, 0, 0, Ongoing, s.ledger, s.ledger + VOTING_PERIOD_LEDGERS,
                                 total * s.config.quorumBps / 10_000);
          Ok(Effect(s.core,
                    s.docket.(byMatch := s.docket.byMatch[id := d], disputes := s.docket.disputes[d := dispute],
                              disputeCount := d + 1, ballots := s.docket.ballots[d := map[]]),
                    [Pay(m.terms.token, p, s.self, bond)]))
  }

  /** The newest logged entry at or before `ledger`, counting from 1; 0 when there is none. */
  function NewestAt(log: seq<Snap>, ledger: nat): (n: nat)
    ensures n <= |log|
    ensures n > 0 ==> log[n - 1].ledger <= ledger
    ensures forall i :: n <= i < |log| ==> log[i].ledger > ledger
  {
    if log == [] then 0
    else if log[|log| - 1].ledger <= ledger then |log|
    else NewestAt(log[..|log| - 1], ledger)
  }

  predicate Retained(log: seq<Snap>, n: nat) {
    0 < n <= |log| && n + MAX_SNAPSHOTS > |log|
  }

  /** A voter's weight: the balance logged at `ledger`, while the ring still holds that entry. */
  function WeightAt(log: seq<Snap>, ledger: nat): Option<int> {
    var n := NewestAt(log, ledger);
    if Retained(log, n) then Some(log[n - 1].balance) else None
  }

  function Cast(s: State, d: nat, voter: Address, vote: bool): Result<Effect, Error> {
    if d !in s.docket.disputes then Err(DisputeNotFound)
    else
      var dispute := s.docket.disputes[d];
      var ballots := Lookup(s.docket.ballots, d, map[]);
      if dispute.state != Ongoing then Err(DisputeAlreadyResolved)
      else if s.ledger >= dispute.votingDeadline then Err(VotingPeriodElapsed)
      else if voter in ballots then Err(AlreadyVoted)
      else if dispute.matchId !in s.core.matches then Err(MatchNotFound)
      else
        var weight := WeightAt(Lookup(s.core.log, voter, []), SatSub(dispute.snapshotLedger, s.config.holdDuration));
        if weight.None? then
          Err(if BalanceOf(s.balances, s.core.matches[dispute.matchId].terms.token, voter) <= 0
              then NotStaker else InsufficientHoldingDuration)
        else if weight.value <= 0 then Err(NotStaker)
        else
          var dispute' := if vote then dispute.(yes := dispute.yes + weight.value)
                          else dispute.(no := dispute.no + weight.value);
          Ok(Effect(s.core,
                    s.docket.(disputes := s.docket.disputes[d := dispute'],
                              ballots := s.docket.ballots[d := ballots[voter := Ballot(vote, weight.value)]]), []))
  }

  function Verdict(dispute: Dispute, pending: Winner): Winner {
    if dispute.yes > dispute.no then Draw else pending
  }

  function Resolved(dispute: Dispute): (r: Dispute)
    ensures r.state != Ongoing && r.matchId == dispute.matchId
  {
    dispute.(state := if dispute.yes > dispute.no then Overturned else Upheld)
  }

  /** The match is paid out, and the bond goes back or to the treasury. */
  function ResolutionPays(self: Address, treasury: Address, m: Match, dispute: Dispute, pending: Winner): seq<Pay> {
    Payout(self, m, Verdict(dispute, pending)) +
    [Pay(m.terms.token, self, if dispute.yes > dispute.no then dispute.disputer else treasury, dispute.bond)]
  }

  function ResolveDispute(s: State, d: nat): Result<Effect, Error> {
    if d !in s.docket.disputes then Err(DisputeNotFound)
    else
      var dispute := s.docket.disputes[d];
      var id := dispute.matchId;
      if dispute.state != Ongoing then Err(DisputeAlreadyResolved)
      else if s.ledger < dispute.votingDeadline then Err(VotingPeriodNotElapsed)
      else if id !in s.core.matches then Err(MatchNotFound)
      else if s.core.matches[id].state != PendingResult then Err(MatchNotInPendingResult)
      else if id !in s.docket.winner then Err(PendingResultNotFound)
      else if dispute.yes + dispute.no < dispute.quorum then Err(QuorumNotMet)
      else
        var m := s.core.matches[id];
        var winner := Verdict(dispute, s.docket.winner[id]);
        if winner == NoWinner then Err(InvalidState)
        else if PotOverflows(m, winner) then Err(Overflow)
        else
          var m1 := m.(state := Completed, timing := m.timing.(completedAt := Some(s.ledger)));
          Ok(Effect(CountBoth(Put(s.core, id, m1), m),
                    s.docket.(disputes := s.docket.disputes[d := Resolved(dispute)]),
                    ResolutionPays(s.self, s.config.fees.treasury, m, dispute, s.docket.winner[id])))
  }

  // ----- transactions

  datatype Op =
    | CreateMatch(terms: Terms, platform: Platform)
    | DepositStake(id: nat, who: Address)
    | SubmitResult(id: nat, winner: Winner, who: Address)
    | CancelMatch(id: nat, who: Address)
    | ExpireMatch(id: nat)
    | PauseMatch(id: nat, who: Address)
    | ResumeMatch(id: nat, who: Address)
    | Heartbeat(id: nat, who: Address)
    | VoteRollback(id: nat, who: Address, reasonLen: nat)
    | AdminResolve(id: nat, who: Address, winner: Winner)
    | ClaimPayout(id: nat, who: Address)
    | FinalizeMatch(id: nat)
    | RaiseDispute(id: nat, who: Address, hashOk: bool)
    | VoteDispute(dispute: nat, who: Address, vote: bool)
    | SettleDispute(dispute: nat)

  datatype Event =
    | Call(op: Op)
    | Configure(config: Config)
    | Advance(ledger: nat, time: nat)
    | Outside(token: Address, src: Address, dst: Address, amount: int)

  function Attempt(s: State, op: Op): Result<Effect, Error> {
    match op
    case CreateMatch(terms, platform) => Create(s, terms, platform)
    case DepositStake(id, who) => Deposit(s, id, who)
    case SubmitResult(id, winner, who) => Settle(s, id, winner, who)
    case CancelMatch(id, who) => Cancel(s, id, who)
    case ExpireMatch(id) => Expire(s, id)
    case PauseMatch(id, who) => Pause(s, id, who)
    case ResumeMatch(id, who) => Resume(s, id, who)
    case Heartbeat(id, who) => Beat(s, id, who)
    case VoteRollback(id, who, reasonLen) => Rollback(s, id, who, reasonLen)
    case AdminResolve(id, who, winner) => ResolveStalled(s, id, who, winner)
    case ClaimPayout(id, who) => Claim(s, id, who)
    case FinalizeMatch(id) => Finalize(s, id)
    case RaiseDispute(id, who, hashOk) => OpenDispute(s, id, who, hashOk)
    case VoteDispute(d, who, vote) => Cast(s, d, who, vote)
    case SettleDispute(d) => ResolveDispute(s, d)
  }

  function Perform(s: State, op: Op): Result<State, Error> {
    var r := Attempt(s, op);
    if r.Err? then Err(r.error)
    else
      var b := PayAll(s.balances, r.value.pays);
      if b.None? then Err(TransferFailed)
      else Ok(s.(core := r.value.core, docket := r.value.docket, balances := b.value))
  }

  /** Settings the admin setters accept. */
  predicate ConfigOk(c: Config, self: Address) {
    && c.fees.protocolBps <= 10_000 && c.fees.cancelBps <= 10_000 && c.fees.referralBps <= 10_000
    && c.fees.treasury != self && c.fees.recipient != self
    && c.stakes.minimum >= 1
  }

  /** Inputs the host guarantees: external addresses are not the contract's own and clocks do not
      run back. */
  predicate Legal(s: State, e: Event) {
    match e
    case Call(CreateMatch(terms, _)) => terms.player1 != s.self
    case Call(_) => true
    case Configure(c) => ConfigOk(c, s.self)
    case Advance(l, t) => l >= s.ledger && t >= s.time
    case Outside(_, src, dst, _) => src != s.self && dst != s.self
  }

  function Step(s: State, e: Event): State {
    match e
    case Call(op) => (var r := Perform(s, op); if r.Ok? then r.value else s)
    case Configure(c) => s.(config := c)
    case Advance(l, t) => s.(ledger := l, time := t)
    case Outside(token, src, dst, amount) =>
      var moved := Transfer(s.balances, token, src, dst, amount);
      if moved.None? then s else s.(balances := moved.value)
  }

  ghost predicate Run(trace: seq<State>, events: seq<Event>) {
    && |trace| == |events| + 1
    && forall i :: 0 <= i < |events| ==> Legal(trace[i], events[i]) && trace[i + 1] == Step(trace[i], events[i])
  }
}
