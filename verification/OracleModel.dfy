/** The oracle contract as a simple state machine: no eligibility cache, no registration list. The
    contract class in OracleContract keeps those and is proved to take exactly these steps. */
module OracleModel {
  import opened Prelude
  import opened RateLimiter
  import M = Metrics

  const DEFAULT_HOURLY_LIMIT: nat := 100
  const DEFAULT_DAILY_LIMIT: nat := 1_000
  const CACHE_TTL_SECS: nat := 3_600
  const MAX_BATCH_SIZE: nat := 100
  const EQUIVOCATION_BPS: int := 10_000
  const MINORITY_BPS: int := 1_000

  datatype Platform = Lichess | ChessDotCom
  datatype Winner = Player1 | Player2 | Draw

  /** What an oracle asserts about a match: the (game, platform, result) triple. */
  datatype Claim = Claim(game: string, platform: Platform, winner: Winner)

  datatype Candidate = Candidate(claim: Claim, submitters: seq<Address>)
  datatype Consensus = Consensus(candidates: seq<Candidate>, disputed: bool)
  datatype Registration = Registration(stake: int, token: Address)
  datatype ResultEntry = ResultEntry(claim: Claim, ledger: nat, submitter: Address, confidence: Option<nat>)
  datatype Submission = Submission(matchId: nat, claim: Claim, ledger: nat)
  datatype PendingSlash = PendingSlash(amount: int, token: Address, staged: nat, eligible: nat)
  datatype Entry = Entry(matchId: nat, claim: Claim, confidence: Option<nat>)

  /** The admin-controlled settings. */
  datatype Config = Config(
    admin: Option<Address>, paused: bool, threshold: U32, grace: nat,
    limits: map<Address, (nat, nat)>, slaThreshold: nat)

  type Registrations = map<Address, Registration>
  type Votes = map<(nat, Address), Claim>

  /** Stakes, staged slashes and token balances. */
  datatype Books = Books(registrations: Registrations, pending: map<(Address, nat), PendingSlash>, balances: Balances)

  /** Recorded votes and open tallies. */
  datatype Polls = Polls(votes: Votes, consensus: map<nat, Consensus>)

  /** Published results, the game cache and the per-oracle submission history. */
  datatype Board = Board(
    results: map<nat, ResultEntry>,
    cache: map<(string, Platform), (Winner, nat)>,
    history: map<Address, seq<Submission>>)

  /** Rate windows and response metrics. */
  datatype Quotas = Quotas(hourly: map<Address, Window>, daily: map<Address, Window>, metrics: map<Address, M.Metrics>)

  datatype State = State(
    self: Address, config: Config, books: Books, polls: Polls, board: Board, quotas: Quotas, ledger: nat, time: nat)

  datatype Error =
    | ContractPaused | Unauthorized | AlreadySubmitted | InvalidGameId | InvalidAmount | StakeTokenMismatch
    | NotRegisteredOracle | InsufficientStake | RateLimitExceeded | OracleDeactivated | OracleNotSlow
    | MatchDisputed | MatchNotDisputed | ResultNotFound | SlashAlreadyPending | SlashNotFound
    | SlashGracePeriodNotElapsed | BatchTooLarge | BatchDuplicateEntry | TransferFailed

  // ----- stake

  function RegisterOracle(b: Books, self: Address, who: Address, amount: int, token: Address): Result<Books, Error> {
    if amount <= 0 then Err(InvalidAmount)
    else if who in b.registrations && b.registrations[who].token != token then Err(StakeTokenMismatch)
    else
      var moved := Transfer(b.balances, token, who, self, amount);
      if moved.None? then Err(TransferFailed)
      else
        var before := if who in b.registrations then b.registrations[who].stake else 0;
        Ok(b.(registrations := b.registrations[who := Registration(before + amount, token)], balances := moved.value))
  }

  /** Take `amount` of a registered oracle's stake and pay it to the admin. */
  function Seize(b: Books, self: Address, admin: Address, who: Address, amount: int): Books
    requires who in b.registrations
  {
    var r := b.registrations[who];
    var moved := Transfer(b.balances, r.token, self, admin, amount);
    b.(registrations := b.registrations[who := r.(stake := r.stake - amount)],
       balances := if moved.Some? then moved.value else b.balances)
  }

  /** The amount a slash of `bps` basis points takes from a positive stake. */
  function SlashAmount(stake: int, bps: int): int {
    var amount := stake * bps / 10_000;
    if amount < 0 then 0 else if amount > stake then stake else amount
  }

  function Slash(b: Books, self: Address, admin: Address, who: Address, bps: int): Books {
    if who !in b.registrations || b.registrations[who].stake <= 0 then b
    else
      var amount := SlashAmount(b.registrations[who].stake, bps);
      if amount == 0 then b else Seize(b, self, admin, who, amount)
  }

  /** One minority slash for each listed oracle, in order. */
  function SlashEach(b: Books, self: Address, admin: Address, whos: seq<Address>): Books {
    if whos == [] then b
    else Slash(SlashEach(b, self, admin, whos[..|whos| - 1]), self, admin, whos[|whos| - 1], MINORITY_BPS)
  }

  function StageSlash(b: Books, ledger: nat, grace: nat, who: Address, matchId: nat, amount: int): Result<Books,
                      Error> {
    if who !in b.registrations then Err(NotRegisteredOracle)
    else if (who, matchId) in b.pending then Err(SlashAlreadyPending)
    else if amount <= 0 || amount > b.registrations[who].stake then Err(InsufficientStake)
    else
      var p := PendingSlash(amount, b.registrations[who].token, ledger, SatAdd32(ledger, grace));
      Ok(b.(pending := b.pending[(who, matchId) := p]))
  }

  function FinalizeSlash(b: Books, self: Address, admin: Address, ledger: nat, who: Address,
    matchId: nat): Result<Books, Error> {
    if (who, matchId) !in b.pending then Err(SlashNotFound)
    else if ledger < b.pending[(who, matchId)].eligible then Err(SlashGracePeriodNotElapsed)
    else if who !in b.registrations then Err(InsufficientStake)
    else
      var amount := Min(b.pending[(who, matchId)].amount, b.registrations[who].stake);
      var b1 := b.(pending := Without(b.pending, (who, matchId)));
      Ok(if amount > 0 then Seize(b1, self, admin, who, amount) else b1)
  }

  function CancelSlash(b: Books, who: Address, matchId: nat): Result<Books, Error> {
    if (who, matchId) !in b.pending then Err(SlashNotFound)
    else Ok(b.(pending := Without(b.pending, (who, matchId))))
  }

  // ----- quotas and metrics

  /** Charge `count` submissions to both rate windows of `who`. */
  function Charge(q: Quotas, config: Config, time: nat, who: Address, count: nat): Option<Quotas> {
    var limits := Lookup(config.limits, who, (DEFAULT_HOURLY_LIMIT, DEFAULT_DAILY_LIMIT));
    var h := Admit(Get(q.hourly, who), time, count, limits.0, HOURLY_SECS);
    var d := Admit(Get(q.daily, who), time, count, limits.1, DAILY_SECS);
    if h.None? || d.None? then None
    else Some(q.(hourly := q.hourly[who := h.value], daily := q.daily[who := d.value]))
  }

  function Measure(q: Quotas, who: Address, ms: nat): Option<Quotas> {
    var m := Lookup(q.metrics, who, M.INITIAL);
    if !m.active then None else Some(q.(metrics := q.metrics[who := M.Record(m, ms)]))
  }

  /** What every single submission pays: one unit of quota and one response time. */
  function Bill(q: Quotas, config: Config, time: nat, who: Address, ms: nat): Result<Quotas, Error> {
    var q1 := Charge(q, config, time, who, 1);
    if q1.None? then Err(RateLimitExceeded)
    else
      var q2 := Measure(q1.value, who, ms);
      if q2.None? then Err(OracleDeactivated) else Ok(q2.value)
  }

  function DeactivateSlow(q: Quotas, slaThreshold: nat, who: Address): Result<Quotas, Error> {
    if who !in q.metrics then Err(ResultNotFound)
    else if q.metrics[who].average <= slaThreshold then Err(OracleNotSlow)
    else Ok(q.(metrics := q.metrics[who := q.metrics[who].(active := false)]))
  }

  // ----- published results

  function Publish(b: Board, e: Entry, submitter: Address, ledger: nat, time: nat): Board {
    b.(results := b.results[e.matchId := ResultEntry(e.claim, ledger, submitter, e.confidence)],
       cache := b.cache[(e.claim.game, e.claim.platform) := (e.claim.winner, time + CACHE_TTL_SECS)])
  }

  function LogSubmission(b: Board, who: Address, e: Entry, ledger: nat): Board {
    b.(history := b.history[who := Lookup(b.history, who, []) + [Submission(e.matchId, e.claim, ledger)]])
  }

  function LogEach(b: Board, whos: seq<Address>, e: Entry, ledger: nat): Board {
    if whos == [] then b else LogSubmission(LogEach(b, whos[..|whos| - 1], e, ledger), whos[|whos| - 1], e, ledger)
  }

  function Commit(b: Board, admin: Address, e: Entry, ledger: nat, time: nat): Board {
    LogSubmission(Publish(b, e, admin, ledger, time), admin, e, ledger)
  }

  function CommitAll(b: Board, admin: Address, es: seq<Entry>, ledger: nat, time: nat): Board {
    if es == [] then b
    else Commit(CommitAll(b, admin, es[..|es| - 1], ledger, time), admin, es[|es| - 1], ledger, time)
  }

  predicate Stakeless(b: Books, who: Address) {
    who in b.registrations && b.registrations[who].stake <= 0
  }

  /** The gate in front of both admin submission paths. */
  function SubmissionGate(s: State): Result<Address, Error> {
    if s.config.paused then Err(ContractPaused)
    else if s.config.admin.None? then Err(Unauthorized)
    else if Stakeless(s.books, s.config.admin.value) then Err(InsufficientStake)
    else Ok(s.config.admin.value)
  }

  /** The single-admin path. */
  function SubmitResult(s: State, e: Entry, ms: nat): Result<State, Error> {
    var gate := SubmissionGate(s);
    if gate.Err? then Err(gate.error)
    else
      var billed := Bill(s.quotas, s.config, s.time, gate.value, ms);
      if billed.Err? then Err(billed.error)
      else if e.matchId in s.board.results then Err(AlreadySubmitted)
      else if e.claim.game == "" then Err(InvalidGameId)
      else Ok(s.(quotas := billed.value, board := Commit(s.board, gate.value, e, s.ledger, s.time)))
  }

  /** The first fault of entries i, i+1, .. in the order the batch validates them. */
  function BatchFault(results: map<nat, ResultEntry>, es: seq<Entry>, i: nat): Option<Error>
    decreases |es| - i
  {
    if i >= |es| then None
    else if es[i].claim.game == "" then Some(InvalidGameId)
    else if exists j :: i < j < |es| && es[j].matchId == es[i].matchId then Some(BatchDuplicateEntry)
    else if es[i].matchId in results then Some(AlreadySubmitted)
    else BatchFault(results, es, i + 1)
  }

  function SubmitBatch(s: State, es: seq<Entry>): Result<State, Error> {
    var gate := SubmissionGate(s);
    if gate.Err? then Err(gate.error)
    else if |es| > MAX_BATCH_SIZE then Err(BatchTooLarge)
    else
      var charged := Charge(s.quotas, s.config, s.time, gate.value, |es|);
      if charged.None? then Err(RateLimitExceeded)
      else
        var fault := BatchFault(s.board.results, es, 0);
        if fault.Some? then Err(fault.value)
        else Ok(s.(quotas := charged.value, board := CommitAll(s.board, gate.value, es, s.ledger, s.time)))
  }

  function DeleteResult(s: State, matchId: nat): Result<State, Error> {
    if s.config.paused then Err(ContractPaused)
    else if s.config.admin.None? then Err(Unauthorized)
    else if matchId !in s.board.results then Err(ResultNotFound)
    else
      var claim := s.board.results[matchId].claim;
      Ok(s.(board := s.board.(
        results := Without(s.board.results, matchId),
        cache := Without(s.board.cache, (claim.game, claim.platform)))))
  }

  // ----- m-of-n voting

  /** Registered oracles with stake that have not voted on the match. */
  function Eligible(registrations: Registrations, votes: Votes, matchId: nat): set<Address> {
    set o | o in registrations && registrations[o].stake > 0 && (matchId, o) !in votes
  }

  function Position(cs: seq<Candidate>, claim: Claim): (p: nat)
    ensures p <= |cs|
    ensures p < |cs| ==> cs[p].claim == claim
    ensures forall i :: 0 <= i < p ==> cs[i].claim != claim
  {
    if cs == [] then 0 else if cs[0].claim == claim then 0 else 1 + Position(cs[1..], claim)
  }

  /** The oracles behind `claim`. */
  function Backing(cs: seq<Candidate>, claim: Claim): seq<Address> {
    var p := Position(cs, claim);
    if p < |cs| then cs[p].submitters else []
  }

  function CountVote(cs: seq<Candidate>, who: Address, claim: Claim): seq<Candidate> {
    var p := Position(cs, claim);
    if p < |cs| then cs[p := cs[p].(submitters := cs[p].submitters + [who])]
    else cs + [Candidate(claim, [who])]
  }

  /** The oracles behind any other claim, in tally order. */
  function Losers(cs: seq<Candidate>, claim: Claim): seq<Address> {
    if cs == [] then []
    else
      var c := cs[|cs| - 1];
      Losers(cs[..|cs| - 1], claim) + if c.claim == claim then [] else c.submitters
  }

  /** No candidate can reach the threshold even if every remaining oracle backs it. */
  predicate Deadlocked(cs: seq<Candidate>, remaining: nat, threshold: nat) {
    forall k :: 0 <= k < |cs| ==> |cs[k].submitters| + remaining < threshold
  }

  function Open(p: Polls, matchId: nat): Consensus {
    Lookup(p.consensus, matchId, Consensus([], false))
  }

  function CastVote(s: State, who: Address, matchId: nat, claim: Claim, ms: nat): Result<State, Error> {
    if s.config.paused then Err(ContractPaused)
    else if s.config.admin.None? then Err(Unauthorized)
    else if claim.game == "" then Err(InvalidGameId)
    else if who !in s.books.registrations then Err(NotRegisteredOracle)
    else if s.books.registrations[who].stake <= 0 then Err(InsufficientStake)
    else if matchId in s.board.results then
      if s.board.results[matchId].claim == claim then Err(AlreadySubmitted)
      else Ok(s.(books := Slash(s.books, s.self, s.config.admin.value, who, MINORITY_BPS)))
    else
      var billed := Bill(s.quotas, s.config, s.time, who, ms);
      if billed.Err? then Err(billed.error)
      else
        var s1 := s.(quotas := billed.value);
        if (matchId, who) in s.polls.votes then
          if s.polls.votes[(matchId, who)] == claim then Err(AlreadySubmitted)
          else Ok(s1.(books := Slash(s.books, s.self, s.config.admin.value, who, EQUIVOCATION_BPS)))
        else if Open(s.polls, matchId).disputed then Err(MatchDisputed)
        else Ok(Tally(s1, who, matchId, claim))
  }

  /** Record an accepted vote, then finalise the match or re-evaluate the deadlock. */
  function Tally(s: State, who: Address, matchId: nat, claim: Claim): State
    requires s.config.admin.Some?
  {
    var votes := s.polls.votes[(matchId, who) := claim];
    var cs := CountVote(Open(s.polls, matchId).candidates, who, claim);
    if |Backing(cs, claim)| >= s.config.threshold then
      Finalise(s.(polls := s.polls.(votes := votes)), who, Entry(matchId, claim, None), cs)
    else
      var disputed := Deadlocked(cs, |Eligible(s.books.registrations, votes, matchId)|, s.config.threshold);
      s.(polls := Polls(votes, s.polls.consensus[matchId := Consensus(cs, disputed)]),
         board := if disputed then s.board.(cache := Without(s.board.cache, (claim.game, claim.platform))) else s.board)
  }

  function Finalise(s: State, who: Address, e: Entry, cs: seq<Candidate>): State
    requires s.config.admin.Some?
  {
    s.(board := LogEach(Publish(s.board, e, who, s.ledger, s.time), Backing(cs, e.claim), e, s.ledger),
       books := SlashEach(s.books, s.self, s.config.admin.value, Losers(cs, e.claim)),
       polls := s.polls.(consensus := Without(s.polls.consensus, e.matchId)))
  }

  /** The admin breaks a deadlock. */
  function ResolveDisputed(s: State, matchId: nat, claim: Claim): Result<State, Error> {
    if s.config.admin.None? then Err(Unauthorized)
    else if matchId in s.board.results then Err(AlreadySubmitted)
    else if !Open(s.polls, matchId).disputed then Err(MatchNotDisputed)
    else
      var admin := s.config.admin.value;
      Ok(s.(
        books := SlashEach(s.books, s.self, admin, Losers(Open(s.polls, matchId).candidates, claim)),
        board := Publish(s.board, Entry(matchId, claim, None), admin, s.ledger, s.time),
        polls := s.polls.(consensus := Without(s.polls.consensus, matchId))))
  }

  // ----- runs

  datatype Op =
    | Register(who: Address, amount: int, token: Address)
    | Stage(who: Address, matchId: nat, amount: int)
    | Execute(who: Address, matchId: nat)
    | Withdraw(who: Address, matchId: nat)
    | Vote(who: Address, matchId: nat, claim: Claim, ms: nat)
    | Resolve(matchId: nat, claim: Claim)
    | Submit(entry: Entry, ms: nat)
    | Batch(entries: seq<Entry>)
    | Delete(matchId: nat)
    | Deactivate(who: Address)
    | Configure(config: Config)
    | Advance(ledger: nat, time: nat)
    | Outside(token: Address, src: Address, dst: Address, amount: int)

  /** Inputs the host guarantees: external addresses are not the contract's own, clocks do not run
      back and the threshold setter refuses zero. */
  predicate Legal(s: State, op: Op) {
    match op
    case Register(who, _, _) => who != s.self
    case Configure(c) => c.threshold >= 1 && c.admin != Some(s.self)
    case Advance(l, t) => l >= s.ledger && t >= s.time
    case Outside(_, src, dst, _) => src != s.self && dst != s.self
    case _ => true
  }

  function WithBooks(s: State, r: Result<Books, Error>): Result<State, Error> {
    if r.Ok? then Ok(s.(books := r.value)) else Err(r.error)
  }

  function Perform(s: State, op: Op): Result<State, Error> {
    match op
    case Register(who, amount, token) => WithBooks(s, RegisterOracle(s.books, s.self, who, amount, token))
    case Stage(who, m, amount) =>
      if s.config.admin.None? then Err(Unauthorized)
      else WithBooks(s, StageSlash(s.books, s.ledger, s.config.grace, who, m, amount))
    case Execute(who, m) =>
      if s.config.admin.None? then Err(Unauthorized)
      else WithBooks(s, FinalizeSlash(s.books, s.self, s.config.admin.value, s.ledger, who, m))
    case Withdraw(who, m) =>
      if s.config.admin.None? then Err(Unauthorized) else WithBooks(s, CancelSlash(s.books, who, m))
    case Vote(who, m, claim, ms) => CastVote(s, who, m, claim, ms)
    case Resolve(m, claim) => ResolveDisputed(s, m, claim)
    case Submit(e, ms) => SubmitResult(s, e, ms)
    case Batch(es) => SubmitBatch(s, es)
    case Delete(m) => DeleteResult(s, m)
    case Deactivate(who) =>
      if s.config.admin.None? then Err(Unauthorized)
      else
        var r := DeactivateSlow(s.quotas, s.config.slaThreshold, who);
        if r.Ok? then Ok(s.(quotas := r.value)) else Err(r.error)
    case Configure(c) => Ok(s.(config := c))
    case Advance(l, t) => Ok(s.(ledger := l, time := t))
    case Outside(token, src, dst, amount) =>
      var moved := Transfer(s.books.balances, token, src, dst, amount);
      if moved.None? then Err(TransferFailed) else Ok(s.(books := s.books.(balances := moved.value)))
  }

  /** A transaction: an error leaves the state as it was. */
  function Step(s: State, op: Op): State {
    var r := Perform(s, op);
    if r.Ok? then r.value else s
  }

  /** A finite run of legal transactions. */
  ghost predicate Run(trace: seq<State>, ops: seq<Op>) {
    && |trace| == |ops| + 1
    && forall i :: 0 <= i < |ops| ==> Legal(trace[i], ops[i]) && trace[i + 1] == Step(trace[i], ops[i])
  }
}
