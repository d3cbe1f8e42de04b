/** Runs of the escrow contract, from a newly initialised state, in which a property fails. */
module EscrowExamples {
  import opened Prelude
  import opened EscrowModel
  import opened EscrowInvariants
  import opened EscrowRuns
  import opened EscrowMoney
  import opened EscrowDisputes
  import opened PlayerCounter

  const SELF: Address := Address(0)
  const TOKEN: Address := Address(1)
  const FIRST: Address := Address(2)
  const SECOND: Address := Address(3)
  const ADMIN: Address := Address(4)

  /** A configuration without vesting, with a one percent protocol fee. */
  function Setup(cap: Option<int>, period: nat, hold: nat): Config {
    Config(ADMIN, ADMIN, false, {}, {}, None, None, Fees(100, 0, 2_000, cap, ADMIN, ADMIN), Stakes(1, None, [], 100),
           0, 86_400, period, hold, 2_000)
  }

  ghost predicate Plain(c: Config) {
    exists cap: Option<int>, period: nat, hold: nat :: c == Setup(cap, period, hold)
  }

  function Holding(self: int, first: int, second: int): Balances {
    map[(TOKEN, SELF) := self, (TOKEN, FIRST) := first, (TOKEN, SECOND) := second]
  }

  const NO_DISPUTES := Docket(map[], map[], map[], map[], 0, map[])

  /** A newly initialised contract that was given 100 units. */
  function Start(c: Config): State {
    State(SELF, c, Core(map[], 0, {}, map[], map[], map[]), NO_DISPUTES, Holding(100, 100, 100), 1, 1)
  }

  const GAME: string := "abcd1234"
  const TERMS := Terms(FIRST, SECOND, 10, TOKEN, GAME, None, 1)
  const OPENING: seq<Event> :=
    [Call(CreateMatch(TERMS, Lichess)), Call(DepositStake(0, FIRST)), Call(DepositStake(0, SECOND))]

  function Half(): Match {
    NewMatch(TERMS, 1).(deposited1 := true)
  }

  function Full(): Match {
    NewMatch(TERMS, 1).(deposited1 := true, deposited2 := true, state := Active,
                        timing := Timing(None, 0, 1, Some(1), None, None))
  }

  function Created(c: Config): State {
    Start(c).(core := Core(map[0 := NewMatch(TERMS, 1)], 1, {GAME}, map[], map[], map[]))
  }

  function HalfPaid(c: Config): State {
    Created(c).(core := Core(map[0 := Half()], 1, {GAME}, map[], map[FIRST := 10], map[FIRST := [Snap(1, 10)]]),
                balances := Holding(110, 90, 100))
  }

  /** Both stakes are in. */
  function Opened(c: Config): State {
    Created(c).(core := Core(map[0 := Full()], 1, {GAME}, map[], map[FIRST := 10, SECOND := 10],
                             map[FIRST := [Snap(1, 10)], SECOND := [Snap(1, 10)]]),
                balances := Holding(120, 90, 90))
  }

  lemma CreateStep(c: Config)
    requires Plain(c)
    ensures Step(Start(c), OPENING[0]) == Created(c)
  {
    var e := Create(Start(c), TERMS, Lichess);
    assert e.Ok?;
  }

  /** Transfers between the three accounts. */
  lemma Moves(self: int, first: int, second: int, n: int)
    requires n >= 0
    ensures n <= first ==>
      Transfer(Holding(self, first, second), TOKEN, FIRST, SELF, n) == Some(Holding(self + n, first - n, second))
    ensures n <= second ==>
      Transfer(Holding(self, first, second), TOKEN, SECOND, SELF, n) == Some(Holding(self + n, first, second - n))
    ensures n <= self ==>
      Transfer(Holding(self, first, second), TOKEN, SELF, FIRST, n) == Some(Holding(self - n, first + n, second))
    ensures n <= self ==>
      Transfer(Holding(self, first, second), TOKEN, SELF, SECOND, n) == Some(Holding(self - n, first, second + n))
  {
    var b := Holding(self, first, second);
    assert b[(TOKEN, FIRST) := first - n][(TOKEN, SELF) := self + n] == Holding(self + n, first - n, second);
    assert b[(TOKEN, SECOND) := second - n][(TOKEN, SELF) := self + n] == Holding(self + n, first, second - n);
    assert b[(TOKEN, SELF) := self - n][(TOKEN, FIRST) := first + n] == Holding(self - n, first + n, second);
    assert b[(TOKEN, SELF) := self - n][(TOKEN, SECOND) := second + n] == Holding(self - n, first, second + n);
  }

  lemma PayOne(b: Balances, p: Pay)
    ensures PayAll(b, [p]) == Transfer(b, p.token, p.src, p.dst, p.amount)
  {
    assert [p][1..] == [];
  }

  lemma PayTwo(b: Balances, p: Pay, q: Pay)
    requires Transfer(b, p.token, p.src, p.dst, p.amount).Some?
    ensures PayAll(b, [p, q]) ==
      Transfer(Transfer(b, p.token, p.src, p.dst, p.amount).value, q.token, q.src, q.dst, q.amount)
  {
    assert [p, q][1..] == [q];
    PayOne(Transfer(b, p.token, p.src, p.dst, p.amount).value, q);
  }

  /** A call whose effect is known. */
  lemma StepIs(s: State, op: Op, e: Effect, b: Balances)
    requires Attempt(s, op) == Ok(e) && PayAll(s.balances, e.pays) == Some(b)
    ensures Perform(s, op).Ok? && Step(s, Call(op)) == s.(core := e.core, docket := e.docket, balances := b)
  {
    hide Attempt, PayAll;
  }

  lemma FirstDepositAllowed(c: Config)
    requires Plain(c)
    ensures DepositFault(Created(c), 0, FIRST).None?
  {
    var s := Created(c);
    assert forall p: Address :: ActiveOf(s.core.matches, p) == {};
  }

  lemma FirstDeposit(c: Config)
    requires Plain(c)
    ensures Step(Created(c), OPENING[1]) == HalfPaid(c)
  {
    hide Transfer, PayAll, Attempt, Perform, DepositFault;
    var s := Created(c);
    FirstDepositAllowed(c);
    var e := Deposit(s, 0, FIRST).value;
    Moves(100, 100, 100, 10);
    PayOne(s.balances, Pay(TOKEN, FIRST, SELF, 10));
    assert [] + [Snap(1, 10)] == [Snap(1, 10)];
    assert e.core.matches == map[0 := Half()] && e.core.counter == map[FIRST := 10];
    assert e.core.log == map[FIRST := [Snap(1, 10)]];
    DepositAttempt(s, 0, FIRST);
    StepIs(s, DepositStake(0, FIRST), e, Holding(110, 90, 100));
  }

  lemma SecondDepositAllowed(c: Config)
    requires Plain(c)
    ensures DepositFault(HalfPaid(c), 0, SECOND).None?
  {
    var s := HalfPaid(c);
    assert forall p: Address :: ActiveOf(s.core.matches, p) == {};
  }

  lemma SecondDeposit(c: Config)
    requires Plain(c)
    ensures Step(HalfPaid(c), OPENING[2]) == Opened(c)
  {
    hide Transfer, PayAll, Attempt, Perform, DepositFault;
    var s := HalfPaid(c);
    SecondDepositAllowed(c);
    var e := Deposit(s, 0, SECOND).value;
    Moves(110, 90, 100, 10);
    PayOne(s.balances, Pay(TOKEN, SECOND, SELF, 10));
    assert [] + [Snap(1, 10)] == [Snap(1, 10)];
    assert e.core.matches == Opened(c).core.matches && e.core.counter == Opened(c).core.counter;
    assert e.core.log == Opened(c).core.log;
    DepositAttempt(s, 0, SECOND);
    StepIs(s, DepositStake(0, SECOND), e, Holding(120, 90, 90));
  }

  // ----- building runs

  /** A newly initialised contract. */
  ghost predicate StartState(s: State) {
    ConfigOk(s.config, s.self) && s.core == Core(map[], 0, {}, map[], map[], map[]) && s.docket == NO_DISPUTES
  }

  /** A run from a newly initialised contract. */
  ghost predicate Story(trace: seq<State>, events: seq<Event>) {
    Run(trace, events) && StartState(trace[0])
  }

  ghost function Last(trace: seq<State>): State
    requires trace != []
  {
    trace[|trace| - 1]
  }

  /** A story goes on with any legal event. */
  lemma GoOn(trace: seq<State>, events: seq<Event>, e: Event)
    requires trace != [] && Story(trace, events) && Legal(Last(trace), e)
    ensures Story(trace + [Step(Last(trace), e)], events + [e])
  {
    hide Step, Legal;
    var trace', events' := trace + [Step(Last(trace), e)], events + [e];
    forall i | 0 <= i < |events'|
      ensures Legal(trace'[i], events'[i]) && trace'[i + 1] == Step(trace'[i], events'[i])
    {
      if i < |events| {
        assert Legal(trace[i], events[i]) && trace[i + 1] == Step(trace[i], events[i]);
      }
    }
  }

  lemma OpeningStory(c: Config) returns (trace: seq<State>, events: seq<Event>)
    requires Plain(c)
    ensures Story(trace, events) && Last(trace) == Opened(c)
  {
    hide Step, Created, HalfPaid, Opened;
    CreateStep(c);
    FirstDeposit(c);
    SecondDeposit(c);
    assert StartState(Start(c));
    trace, events := [Start(c)], [];
    GoOn(trace, events, OPENING[0]);
    trace, events := trace + [Created(c)], events + [OPENING[0]];
    GoOn(trace, events, OPENING[1]);
    trace, events := trace + [HalfPaid(c)], events + [OPENING[1]];
    GoOn(trace, events, OPENING[2]);
    trace, events := trace + [Opened(c)], events + [OPENING[2]];
  }

  lemma StorySound(trace: seq<State>, events: seq<Event>)
    requires Story(trace, events)
    ensures Inv(Last(trace))
  {
    FreshInv(trace[0]);
    RunKeeps(trace, events, |trace| - 1);
  }

  // ----- a negative fee cap

  function WonNow(): Match {
    Full().(state := Completed, winner := Player1, timing := Timing(None, 0, 1, Some(1), Some(1), Some(1)))
  }

  function SettledNowState(c: Config): State {
    Opened(c).(core := Core(map[0 := WonNow()], 1, {GAME}, map[FIRST := 1, SECOND := 1], map[FIRST := 0, SECOND := 0],
                            map[FIRST := [Snap(1, 10), Snap(1, 0)], SECOND := [Snap(1, 10), Snap(1, 0)]]))
  }

  lemma SettleStep(c: Config)
    requires Plain(c) && c.disputePeriod == 0
    ensures Step(Opened(c), Call(SubmitResult(0, Player1, ADMIN))) == SettledNowState(c)
  {
    var s := Opened(c);
    var core := SettledNow(s, 0, Player1).core;
    assert [Snap(1, 10)] + [Snap(1, 0)] == [Snap(1, 10), Snap(1, 0)];
    assert core.matches == map[0 := WonNow()] && core.completed == map[FIRST := 1, SECOND := 1];
    assert core.counter == map[FIRST := 0, SECOND := 0];
    assert core.log == SettledNowState(c).core.log;
  }

  lemma ShareOf(c: Config, m: Match, fee: int)
    requires (c == Setup(Some(-5), 0, 100) && fee == -5) || (c == Setup(None, 10, 100) && fee == 0)
    requires m.terms == TERMS && m.winner == Player1
    ensures Share(c, SELF, m, FIRST) == Some([Pay(TOKEN, SELF, FIRST, 20 - fee)])
    ensures ProtocolFee(c, 20) == Some(fee)
  {
    var pay := Pay(TOKEN, SELF, FIRST, 20 - fee);
    assert [pay] + [] + [] == [pay];
  }

  /** A claim by the first player on a won match. */
  lemma ClaimGoesThrough(s: State, m: Match, self: int, first: int, second: int, fee: int)
    requires s.core.matches == map[0 := m] && m.terms == TERMS && m.winner == Player1 && m.state == Completed
    requires !m.claimed1
    requires m.timing.vestedAt == Some(1) && s.time >= 1 && s.self == SELF && s.balances == Holding(self, first, second)
    requires (s.config == Setup(Some(-5), 0, 100) && fee == -5) || (s.config == Setup(None, 10, 100) && fee == 0)
    requires self >= 20 - fee
    ensures Perform(s, ClaimPayout(0, FIRST)).Ok?
    ensures Gap(s, ClaimPayout(0, FIRST), TOKEN) == if 0 in s.docket.winner then fee - 20 else fee
  {
    hide PayAll, Transfer, Share, ProtocolFee, Attempt, Perform, Put, Snapshot;
    ShareOf(s.config, m, fee);
    PayOne(s.balances, Pay(TOKEN, SELF, FIRST, 20 - fee));
    Moves(self, first, second, 20 - fee);
    ClaimAttempt(s, 0, FIRST);
    StepIs(s, ClaimPayout(0, FIRST), Claim(s, 0, FIRST).value, Holding(self - 20 + fee, first + 20 - fee, second));
  }

  /** A story that ends in a claim with a known gap. */
  lemma EndWithClaim(trace: seq<State>, events: seq<Event>, loss: int) returns (trace': seq<State>, events': seq<Event>)
    requires Story(trace, events)
    requires Perform(Last(trace), ClaimPayout(0, FIRST)).Ok? && Gap(Last(trace), ClaimPayout(0, FIRST), TOKEN) == -loss
    ensures Story(trace', events') && trace' == trace + [Last(trace')]
    ensures events' == events + [Call(ClaimPayout(0, FIRST))]
    ensures Surplus(Last(trace'), TOKEN) == Surplus(Last(trace), TOKEN) - loss
  {
    var claim := Call(ClaimPayout(0, FIRST));
    hide Perform, Gap, Surplus, Story;
    assert Legal(Last(trace), claim);
    StorySound(trace, events);
    StepSurplus(Last(trace), claim, TOKEN);
    GoOn(trace, events, claim);
    trace', events' := trace + [Step(Last(trace), claim)], events + [claim];
  }

  /** With a fee cap of -5 a run ends in a claim that pays five units more than the pot. */
  lemma NegativeCapOverpays() returns (trace: seq<State>, events: seq<Event>)
    ensures Story(trace, events) && |trace| >= 2 && events[|events| - 1] == Call(ClaimPayout(0, FIRST))
    ensures Surplus(Last(trace), TOKEN) == Surplus(trace[|trace| - 2], TOKEN) - 5
  {
    var c := Setup(Some(-5), 0, 100);
    SettleStep(c);
    ClaimGoesThrough(SettledNowState(c), WonNow(), 120, 90, 90, -5);
    hide Step, Opened, SettledNowState, Perform, Gap, Surplus;
    trace, events := OpeningStory(c);
    GoOn(trace, events, Call(SubmitResult(0, Player1, ADMIN)));
    trace, events := trace + [SettledNowState(c)], events + [Call(SubmitResult(0, Player1, ADMIN))];
    trace, events := EndWithClaim(trace, events, 5);
  }

  // ----- a claim after a docketed settlement

  function Awaiting(): Match {
    Full().(state := PendingResult, winner := Player1, timing := Timing(None, 0, 1, Some(1), Some(1), None))
  }

  const RESULT_DUE := Docket(map[0 := Player1], map[0 := 11], map[], map[], 0, map[])

  function Docketed(c: Config): State {
    Opened(c).(core := Opened(c).core.(matches := map[0 := Awaiting()], completed := map[FIRST := 1, SECOND := 1]),
               docket := RESULT_DUE)
  }

  lemma DocketStep(c: Config)
    requires Plain(c) && c.disputePeriod == 10
    ensures Step(Opened(c), Call(SubmitResult(0, Player1, ADMIN))) == Docketed(c)
  {
    var e := SettledLater(Opened(c), 0, Player1);
    assert e.core.matches == map[0 := Awaiting()] && e.core.completed == map[FIRST := 1, SECOND := 1];
    assert e.docket == RESULT_DUE;
  }

  function Later(c: Config): State {
    Docketed(c).(ledger := 11, time := 11)
  }

  function PaidOut(): Match {
    Awaiting().(state := Completed, timing := Timing(None, 0, 1, Some(1), Some(1), Some(11)))
  }

  function Finalised(c: Config): State {
    Later(c).(core := Core(map[0 := PaidOut()], 1, {GAME}, map[FIRST := 2, SECOND := 2], map[FIRST := 0, SECOND := 0],
                           map[FIRST := [Snap(1, 10), Snap(11, 0)], SECOND := [Snap(1, 10), Snap(11, 0)]]),
              balances := Holding(100, 110, 90))
  }

  lemma FinaliseEffect(c: Config)
    requires Plain(c)
    ensures var core, pays := Finalised(c).core, [Pay(TOKEN, SELF, FIRST, 20)];
      Finalize(Later(c), 0) == Ok(Effect(core, Later(c).docket, pays))
  {
    var e := Finalize(Later(c), 0).value;
    assert [Snap(1, 10)] + [Snap(11, 0)] == [Snap(1, 10), Snap(11, 0)];
    assert e.core.matches == map[0 := PaidOut()] && e.core.completed == map[FIRST := 2, SECOND := 2];
    assert e.core.counter == map[FIRST := 0, SECOND := 0];
    assert e.core.log == Finalised(c).core.log;
  }

  lemma FinaliseStep(c: Config)
    requires Plain(c)
    ensures Step(Later(c), Call(FinalizeMatch(0))) == Finalised(c)
  {
    hide PayAll, Transfer, Attempt, Perform, Finalize;
    var s := Later(c);
    FinaliseEffect(c);
    Moves(120, 90, 90, 20);
    PayOne(s.balances, Pay(TOKEN, SELF, FIRST, 20));
    FinalizeAttempt(s, 0);
    StepIs(s, FinalizeMatch(0), Finalize(s, 0).value, Holding(100, 110, 90));
  }

  lemma DocketedStory(c: Config) returns (trace: seq<State>, events: seq<Event>)
    requires Plain(c) && c.disputePeriod == 10
    ensures |trace| == |events| + 1 && Story(trace, events) && Last(trace) == Docketed(c)
  {
    DocketStep(c);
    hide Step, Opened, Docketed;
    trace, events := OpeningStory(c);
    GoOn(trace, events, Call(SubmitResult(0, Player1, ADMIN)));
    trace, events := trace + [Docketed(c)], events + [Call(SubmitResult(0, Player1, ADMIN))];
  }

  lemma FinalisedStory(c: Config) returns (trace: seq<State>, events: seq<Event>)
    requires Plain(c) && c.disputePeriod == 10
    ensures Story(trace, events) && Last(trace) == Finalised(c) && Call(FinalizeMatch(0)) in events
  {
    FinaliseStep(c);
    assert Legal(Docketed(c), Advance(11, 11)) && Step(Docketed(c), Advance(11, 11)) == Later(c);
    hide Step, Docketed, Later, Finalised;
    trace, events := DocketedStory(c);
    GoOn(trace, events, Advance(11, 11));
    trace, events := trace + [Later(c)], events + [Advance(11, 11)];
    GoOn(trace, events, Call(FinalizeMatch(0)));
    trace, events := trace + [Finalised(c)], events + [Call(FinalizeMatch(0))];
  }

  /** A match settled with a dispute period is paid out when it is finalised, and the claim that ends
      this run pays the pot once more. */
  lemma DocketedClaimPaysAgain() returns (trace: seq<State>, events: seq<Event>)
    ensures Story(trace, events) && |trace| >= 2 && events[|events| - 1] == Call(ClaimPayout(0, FIRST))
    ensures Call(FinalizeMatch(0)) in events
    ensures Surplus(Last(trace), TOKEN) == Surplus(trace[|trace| - 2], TOKEN) - 20
  {
    var c := Setup(None, 10, 100);
    ClaimGoesThrough(Finalised(c), PaidOut(), 100, 110, 90, 0);
    hide Finalised, Perform, Gap, Surplus;
    trace, events := FinalisedStory(c);
    trace, events := EndWithClaim(trace, events, 20);
  }

  // ----- a rollback

  function OneConsent(c: Config): State {
    Opened(c).(core := Opened(c).core.(matches := map[0 := Full().(rollback1 := true)]))
  }

  function CalledBack(): Match {
    Full().(rollback1 := true, rollback2 := true, state := Cancelled,
            timing := Timing(None, 0, 1, Some(1), None, Some(1)))
  }

  function RolledBack(c: Config): State {
    Opened(c).(core := Opened(c).core.(matches := map[0 := CalledBack()],
                 log := map[FIRST := [Snap(1, 10), Snap(1, 10)], SECOND := [Snap(1, 10), Snap(1, 10)]]),
               balances := Holding(100, 100, 100))
  }

  lemma ConsentStep(c: Config)
    requires Plain(c)
    ensures Step(Opened(c), Call(VoteRollback(0, FIRST, 5))) == OneConsent(c)
  {
    var s := Opened(c);
    assert Rollback(s, 0, FIRST, 5).value.core.matches == map[0 := Full().(rollback1 := true)];
  }

  lemma RollbackStep(c: Config)
    requires Plain(c)
    ensures Step(OneConsent(c), Call(VoteRollback(0, SECOND, 5))) == RolledBack(c)
  {
    hide PayAll, Transfer, Attempt, Perform;
    var s := OneConsent(c);
    var x, y := Pay(TOKEN, SELF, FIRST, 10), Pay(TOKEN, SELF, SECOND, 10);
    var e := Rollback(s, 0, SECOND, 5).value;
    assert e.pays == [x, y];
    Moves(120, 90, 90, 10);
    Moves(110, 100, 90, 10);
    PayTwo(s.balances, x, y);
    assert [Snap(1, 10)] + [Snap(1, 10)] == [Snap(1, 10), Snap(1, 10)];
    assert e.core.matches == map[0 := CalledBack()] && e.core.log == RolledBack(c).core.log;
    RollbackAttempt(s, 0, SECOND, 5);
    StepIs(s, VoteRollback(0, SECOND, 5), e, Holding(100, 100, 100));
  }

  lemma NothingOpen(c: Config)
    ensures OpenTotal(RolledBack(c).core, FIRST) == 0
  {
    var core := RolledBack(c).core;
    var none: map<nat, int> := map[];
    var open := map id | id in core.matches :: OpenStake(core, id, FIRST);
    assert open == none[0 := 0];
    MapSumUpdate(none, 0, 0);
    assert OpenTotal(core, FIRST) == MapSum(open);
  }

  /** After the rollback that ends this run a counter still shows the stake although no match is open. */
  lemma RollbackStrands() returns (trace: seq<State>, events: seq<Event>)
    ensures Story(trace, events) && events != [] && events[|events| - 1] == Call(VoteRollback(0, SECOND, 5))
    ensures Lookup(Last(trace).core.counter, FIRST, 0) == 10 && OpenTotal(Last(trace).core, FIRST) == 0
  {
    var c := Setup(None, 0, 100);
    ConsentStep(c);
    RollbackStep(c);
    NothingOpen(c);
    assert Lookup(RolledBack(c).core.counter, FIRST, 0) == 10;
    hide Step, Opened, OneConsent, RolledBack, OpenTotal;
    trace, events := OpeningStory(c);
    GoOn(trace, events, Call(VoteRollback(0, FIRST, 5)));
    trace, events := trace + [OneConsent(c)], events + [Call(VoteRollback(0, FIRST, 5))];
    GoOn(trace, events, Call(VoteRollback(0, SECOND, 5)));
    trace, events := trace + [RolledBack(c)], events + [Call(VoteRollback(0, SECOND, 5))];
  }

  // ----- a dispute without a hold duration

  function Raised(c: Config): State {
    Docketed(c).(docket := RESULT_DUE.(byMatch := map[0 := 0], disputeCount := 1, ballots := map[0 := map[]],
                   disputes := map[0 := Dispute(0, FIRST, 1, 0, 0, Ongoing, 1, 17_281, 24)]),
                 balances := Holding(121, 89, 90))
  }

  lemma RaiseStep(c: Config)
    requires Plain(c)
    ensures Step(Docketed(c), Call(RaiseDispute(0, FIRST, true))) == Raised(c)
  {
    hide PayAll, Transfer, Attempt, Perform;
    var s := Docketed(c);
    Moves(120, 90, 90, 1);
    PayOne(s.balances, Pay(TOKEN, FIRST, SELF, 1));
    assert BondFor(c.stakes, 10) == 1;
    var e := OpenDispute(s, 0, FIRST, true).value;
    assert e.docket == Raised(c).docket;
    DisputeAttempt(s, 0, FIRST, true);
    StepIs(s, RaiseDispute(0, FIRST, true), e, Holding(121, 89, 90));
  }

  const REMATCH := TERMS.(game := "efgh5678")

  function RematchCreated(c: Config): State {
    Raised(c).(core := Raised(c).core.(matches := map[0 := Awaiting(), 1 := NewMatch(REMATCH, 1)], count := 2,
                                       games := {GAME, "efgh5678"}))
  }

  lemma RematchStep(c: Config)
    requires Plain(c)
    ensures Step(Raised(c), Call(CreateMatch(REMATCH, Lichess))) == RematchCreated(c)
  {
    hide PayAll;
    PayNone(Raised(c).balances);
    assert Create(Raised(c), REMATCH, Lichess).value.core == RematchCreated(c).core;
  }

  lemma PayNone(b: Balances)
    ensures PayAll(b, []) == Some(b)
  {
  }

  function RematchPaid(c: Config): State {
    RematchCreated(c).(core := RematchCreated(c).core.(
                         matches := map[0 := Awaiting(), 1 := NewMatch(REMATCH, 1).(deposited1 := true)],
                         counter := map[FIRST := 20, SECOND := 10],
                         log := map[FIRST := [Snap(1, 10), Snap(1, 20)], SECOND := [Snap(1, 10)]]),
                       balances := Holding(131, 79, 90))
  }

  lemma RematchDepositAllowed(c: Config)
    requires Plain(c)
    ensures DepositFault(RematchCreated(c), 1, FIRST).None?
  {
    var s := RematchCreated(c);
    assert forall p: Address :: ActiveOf(s.core.matches, p) == {};
  }

  lemma RematchDepositEffect(c: Config)
    requires Plain(c)
    ensures var core, pays := RematchPaid(c).core, [Pay(TOKEN, FIRST, SELF, 10)];
      Deposit(RematchCreated(c), 1, FIRST) == Ok(Effect(core, RematchCreated(c).docket, pays))
  {
    hide DepositFault;
    RematchDepositAllowed(c);
    var e := Deposit(RematchCreated(c), 1, FIRST).value;
    assert [Snap(1, 10)] + [Snap(1, 20)] == [Snap(1, 10), Snap(1, 20)];
    assert e.core.matches == RematchPaid(c).core.matches && e.core.counter == RematchPaid(c).core.counter;
    assert e.core.log == RematchPaid(c).core.log;
  }

  lemma RematchDeposit(c: Config)
    requires Plain(c)
    ensures Step(RematchCreated(c), Call(DepositStake(1, FIRST))) == RematchPaid(c)
  {
    hide PayAll, Transfer, Attempt, Perform, Deposit;
    var s := RematchCreated(c);
    RematchDepositEffect(c);
    Moves(121, 89, 90, 10);
    PayOne(s.balances, Pay(TOKEN, FIRST, SELF, 10));
    DepositAttempt(s, 1, FIRST);
    StepIs(s, DepositStake(1, FIRST), Deposit(s, 1, FIRST).value, Holding(131, 79, 90));
  }

  lemma WeightsMove(c: Config)
    requires c == Setup(None, 10, 0)
    ensures 0 in Raised(c).docket.disputes && VoterWeight(Raised(c), 0, FIRST) == Some(10)
    ensures 0 in RematchPaid(c).docket.disputes && VoterWeight(RematchPaid(c), 0, FIRST) == Some(20)
    ensures Raised(c).self == SELF
  {
  }

  /** Without a hold duration, a deposit in the ledger in which a dispute was raised changes the weight
      its player has in that dispute. */
  lemma NoHoldNoFreeze() returns (trace: seq<State>, events: seq<Event>, i: nat)
    ensures Story(trace, events) && i < |events| && i + 1 < |trace|
    ensures events[i] == Call(RaiseDispute(0, FIRST, true))
    ensures 0 in trace[i + 1].docket.disputes && VoterWeight(trace[i + 1], 0, FIRST) == Some(10)
    ensures 0 in Last(trace).docket.disputes && VoterWeight(Last(trace), 0, FIRST) == Some(20)
  {
    hide Step, Docketed, Raised, RematchCreated, RematchPaid, VoterWeight, Story;
    var c := Setup(None, 10, 0);
    RaiseStep(c);
    RematchStep(c);
    RematchDeposit(c);
    WeightsMove(c);
    trace, events := DocketedStory(c);
    i := |events|;
    GoOn(trace, events, Call(RaiseDispute(0, FIRST, true)));
    trace, events := trace + [Raised(c)], events + [Call(RaiseDispute(0, FIRST, true))];
    GoOn(trace, events, Call(CreateMatch(REMATCH, Lichess)));
    trace, events := trace + [RematchCreated(c)], events + [Call(CreateMatch(REMATCH, Lichess))];
    GoOn(trace, events, Call(DepositStake(1, FIRST)));
    trace, events := trace + [RematchPaid(c)], events + [Call(DepositStake(1, FIRST))];
  }
}
