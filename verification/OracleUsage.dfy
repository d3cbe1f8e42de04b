/** What an oracle submits over a run of the contract, against its two rate windows and its stored
    response metrics. */
module OracleUsage {
  import opened Prelude
  import opened RateLimiter
  import opened OracleModel
  import M = Metrics
  import A = Arithmetic

  function Limits(config: Config, who: Address): (nat, nat) {
    Lookup(config.limits, who, (DEFAULT_HOURLY_LIMIT, DEFAULT_DAILY_LIMIT))
  }

  // ----- admitted requests

  /** Submissions among `reqs` in the closed interval [lo, hi]. */
  function CountWithin(reqs: seq<Request>, lo: int, hi: int): nat {
    if reqs == [] then 0
    else
      var last := reqs[|reqs| - 1];
      CountWithin(reqs[..|reqs| - 1], lo, hi) + if lo <= last.time <= hi then last.count else 0
  }

  /** Every request of `reqs`, taken as a run of its own, is admitted by the window. */
  ghost predicate AllAdmitted(reqs: seq<Request>, limit: nat, span: nat)
    requires span > 0
  {
    forall lo: int, hi: int :: AdmittedWithin(reqs, lo, hi, limit, span) == CountWithin(reqs, lo, hi)
  }

  /** A stored window is the one the run `reqs` leaves, and that run was admitted in full. */
  ghost predicate Follows(stored: Option<Window>, reqs: seq<Request>, limit: nat, span: nat)
    requires span > 0
  {
    stored == After(reqs, limit, span) && AllAdmitted(reqs, limit, span)
  }

  lemma FollowsNext(stored: Option<Window>, reqs: seq<Request>, last: Request, limit: nat, span: nat)
    requires span > 0 && Follows(stored, reqs, limit, span)
    requires Admit(stored, last.time, last.count, limit, span).Some?
    ensures Follows(Admit(stored, last.time, last.count, limit, span), reqs + [last], limit, span)
  {
    hide Admit;
    var all := reqs + [last];
    assert all[..|all| - 1] == reqs;
    forall lo: int, hi: int
      ensures AdmittedWithin(all, lo, hi, limit, span) == CountWithin(all, lo, hi)
    {
      assert AdmittedWithin(reqs, lo, hi, limit, span) == CountWithin(reqs, lo, hi);
    }
  }

  /** A charge goes through exactly when both windows admit it, and then updates both. */
  lemma ChargeBoth(q: Quotas, config: Config, who: Address, r: Request)
    ensures var limits, after := Limits(config, who), Charge(q, config, r.time, who, r.count);
      var h := Admit(Get(q.hourly, who), r.time, r.count, limits.0, HOURLY_SECS);
      var d := Admit(Get(q.daily, who), r.time, r.count, limits.1, DAILY_SECS);
      && (after.Some? <==> h.Some? && d.Some?)
      && (after.Some? ==> Get(after.value.hourly, who) == h && Get(after.value.daily, who) == d)
  {
    hide Admit;
  }

  ghost predicate NoLaterThan(reqs: seq<Request>, time: nat) {
    forall i :: 0 <= i < |reqs| ==> reqs[i].time <= time
  }

  lemma OrderedNext(reqs: seq<Request>, last: Request)
    requires Ordered(reqs) && NoLaterThan(reqs, last.time)
    ensures Ordered(reqs + [last]) && NoLaterThan(reqs + [last], last.time)
  {
  }

  // ----- what a transaction bills

  /** One timed submission (a vote, an equivocation or a single result) or an untimed batch. */
  datatype Usage = NoUsage | Single(who: Address, ms: nat) | Bulk(who: Address, count: nat)

  function UsageOf(s: State, op: Op): Usage {
    if Perform(s, op).Err? then NoUsage
    else
      match op
      case Vote(who, matchId, _, ms) => if matchId in s.board.results then NoUsage else Single(who, ms)
      case Submit(_, ms) => if s.config.admin.Some? then Single(s.config.admin.value, ms) else NoUsage
      case Batch(es) => if s.config.admin.Some? then Bulk(s.config.admin.value, |es|) else NoUsage
      case _ => NoUsage
  }

  /** Same windows, and the same metrics but for the active flags. */
  ghost predicate SameUsage(q: Quotas, q': Quotas) {
    && q'.hourly == q.hourly && q'.daily == q.daily
    && forall o: Address :: SameFigures(Lookup(q'.metrics, o, M.INITIAL), Lookup(q.metrics, o, M.INITIAL))
  }

  predicate SameFigures(a: M.Metrics, b: M.Metrics) {
    a.(active := true) == b.(active := true)
  }

  /** A transaction charges and measures exactly what it bills; all others leave the figures alone. */
  lemma UsageEffect(s: State, op: Op)
    ensures var q, q', u := s.quotas, Step(s, op).quotas, UsageOf(s, op);
      match u
      case Single(who, ms) => Bill(q, s.config, s.time, who, ms) == Ok(q')
      case Bulk(who, count) => Charge(q, s.config, s.time, who, count) == Some(q')
      case NoUsage => SameUsage(q, q')
  {
    hide Bill, Charge, RegisterOracle, StageSlash, FinalizeSlash, CancelSlash, BatchFault, Commit, CommitAll, LogEach,
      CountVote,
      Backing, Slash, SlashEach, Publish, Transfer;
  }

  // ----- runs

  function ChargesOf(s: State, op: Op, who: Address): seq<Request> {
    match UsageOf(s, op)
    case Single(w, _) => if w == who then [Request(s.time, 1)] else []
    case Bulk(w, count) => if w == who then [Request(s.time, count)] else []
    case NoUsage => []
  }

  /** The submissions of `who` the first `n` transactions committed. */
  function Charged(trace: seq<State>, ops: seq<Op>, who: Address, n: nat): seq<Request>
    requires |trace| == |ops| + 1 && n <= |ops|
  {
    if n == 0 then [] else Charged(trace, ops, who, n - 1) + ChargesOf(trace[n - 1], ops[n - 1], who)
  }

  function TimesOf(s: State, op: Op, who: Address): seq<nat> {
    var u := UsageOf(s, op);
    if u.Single? && u.who == who then [u.ms] else []
  }

  /** The response times of `who` the first `n` transactions recorded. */
  function Billed(trace: seq<State>, ops: seq<Op>, who: Address, n: nat): seq<nat>
    requires |trace| == |ops| + 1 && n <= |ops|
  {
    if n == 0 then [] else Billed(trace, ops, who, n - 1) + TimesOf(trace[n - 1], ops[n - 1], who)
  }

  lemma StepTime(s: State, op: Op)
    requires Legal(s, op)
    ensures Step(s, op).time >= s.time
  {
    hide CastVote, ResolveDisputed, SubmitResult, SubmitBatch, DeleteResult, RegisterOracle, StageSlash, FinalizeSlash,
      CancelSlash, DeactivateSlow;
    StepClock(s, op);
  }

  lemma StepClock(s: State, op: Op)
    ensures Step(s, op).time == if op.Advance? then op.time else s.time
  {
    hide RegisterOracle, StageSlash, FinalizeSlash, CancelSlash, BatchFault, Commit, CommitAll, CountVote,
      Backing, Slash, SlashEach, Publish, Transfer, Bill, Charge, DeactivateSlow;
  }

  /** The windows of `who` after one transaction. */
  lemma WindowsStep(s: State, op: Op, who: Address, reqs: seq<Request>)
    requires Follows(Get(s.quotas.hourly, who), reqs, Limits(s.config, who).0, HOURLY_SECS)
    requires Follows(Get(s.quotas.daily, who), reqs, Limits(s.config, who).1, DAILY_SECS)
    ensures var q, all := Step(s, op).quotas, reqs + ChargesOf(s, op, who);
      && Follows(Get(q.hourly, who), all, Limits(s.config, who).0, HOURLY_SECS)
      && Follows(Get(q.daily, who), all, Limits(s.config, who).1, DAILY_SECS)
  {
    UsageEffect(s, op);
    hide Step, Perform, Follows, Limits, Admit, UsageOf;
    assert reqs + [] == reqs;
    var u := UsageOf(s, op);
    if !u.NoUsage? {
      var r := Request(s.time, if u.Single? then 1 else u.count);
      ChargeBoth(s.quotas, s.config, u.who, r);
      if u.who == who {
        FollowsNext(Get(s.quotas.hourly, who), reqs, r, Limits(s.config, who).0, HOURLY_SECS);
        FollowsNext(Get(s.quotas.daily, who), reqs, r, Limits(s.config, who).1, DAILY_SECS);
      }
    }
  }

  /** While the limits of `who` stay fixed, its windows are those of its committed submissions. */
  lemma {:induction false} WindowsFollowRun(trace: seq<State>, ops: seq<Op>, who: Address, limits: (nat, nat), n: nat)
    requires Run(trace, ops) && n < |trace| && who !in trace[0].quotas.hourly && who !in trace[0].quotas.daily
    requires forall i :: 0 <= i < n ==> Limits(trace[i].config, who) == limits
    ensures var reqs, q := Charged(trace, ops, who, n), trace[n].quotas;
      && Follows(Get(q.hourly, who), reqs, limits.0, HOURLY_SECS)
      && Follows(Get(q.daily, who), reqs, limits.1, DAILY_SECS)
      && Ordered(reqs) && NoLaterThan(reqs, trace[n].time)
  {
    if n > 0 {
      hide Step, Follows, Limits, Legal, UsageOf;
      WindowsFollowRun(trace, ops, who, limits, n - 1);
      var s, op, reqs := trace[n - 1], ops[n - 1], Charged(trace, ops, who, n - 1);
      WindowsStep(s, op, who, reqs);
      StepTime(s, op);
      if ChargesOf(s, op, who) != [] {
        OrderedNext(reqs, ChargesOf(s, op, who)[0]);
      } else {
        assert reqs + [] == reqs;
      }
    }
  }

  /** Over every run in which the limits of `who` stay fixed, at most twice the hourly limit of its
      submissions is committed within any hour and at most twice the daily limit within any day. */
  lemma QuotaBound(trace: seq<State>, ops: seq<Op>, who: Address, limits: (nat, nat), n: nat, lo: int, hi: int)
    requires Run(trace, ops) && n < |trace| && who !in trace[0].quotas.hourly && who !in trace[0].quotas.daily
    requires forall i :: 0 <= i < n ==> Limits(trace[i].config, who) == limits
    ensures hi <= lo + HOURLY_SECS ==> CountWithin(Charged(trace, ops, who, n), lo, hi) <= 2 * limits.0
    ensures hi <= lo + DAILY_SECS ==> CountWithin(Charged(trace, ops, who, n), lo, hi) <= 2 * limits.1
  {
    hide Step, Legal, After, Charged, Limits;
    WindowsFollowRun(trace, ops, who, limits, n);
    WindowBound(Charged(trace, ops, who, n), lo, hi, limits.0, HOURLY_SECS);
    WindowBound(Charged(trace, ops, who, n), lo, hi, limits.1, DAILY_SECS);
  }

  // ----- metrics

  lemma RecordIgnoresActive(a: M.Metrics, b: M.Metrics, ms: nat)
    requires SameFigures(a, b)
    ensures SameFigures(M.Record(a, ms), M.Record(b, ms))
  {
  }

  lemma MetricsStep(s: State, op: Op, who: Address, times: seq<nat>)
    requires SameFigures(Lookup(s.quotas.metrics, who, M.INITIAL), M.RecordAll(times))
    ensures SameFigures(Lookup(Step(s, op).quotas.metrics, who, M.INITIAL), M.RecordAll(times + TimesOf(s, op, who)))
  {
    UsageEffect(s, op);
    hide Step, Perform, Admit, UsageOf, M.Record;
    assert times + [] == times;
    var u := UsageOf(s, op);
    if u.Single? && u.who == who {
      assert (times + [u.ms])[..|times|] == times;
      RecordIgnoresActive(Lookup(s.quotas.metrics, who, M.INITIAL), M.RecordAll(times), u.ms);
    }
  }

  /** The stored metrics of an oracle are those of the response times recorded for it so far. */
  lemma {:induction false} MetricsFollowRun(trace: seq<State>, ops: seq<Op>, who: Address, n: nat)
    requires Run(trace, ops) && n < |trace| && who !in trace[0].quotas.metrics
    ensures SameFigures(Lookup(trace[n].quotas.metrics, who, M.INITIAL), M.RecordAll(Billed(trace, ops, who, n)))
  {
    if n > 0 {
      hide Step, Legal, UsageOf, SameFigures;
      MetricsFollowRun(trace, ops, who, n - 1);
      MetricsStep(trace[n - 1], ops[n - 1], who, Billed(trace, ops, who, n - 1));
    }
  }

  /** Whenever a run deactivates an oracle as slow, the exact mean of all response times recorded for
      it exceeds the threshold then in force. */
  lemma DeactivatedWasSlow(trace: seq<State>, ops: seq<Op>, who: Address, n: nat)
    requires Run(trace, ops) && n < |ops| && who !in trace[0].quotas.metrics
    requires ops[n] == Deactivate(who) && Perform(trace[n], ops[n]).Ok?
    requires M.Recordable(Billed(trace, ops, who, n))
    ensures var times := Billed(trace, ops, who, n);
      times != [] && M.Sum(times) > trace[n].config.slaThreshold * |times|
  {
    hide Step, Legal, Billed, M.RecordAll, M.Sum, M.Record, CastVote, SubmitBatch, SubmitResult;
    MetricsFollowRun(trace, ops, who, n);
    M.SlowIsReallySlow(Billed(trace, ops, who, n), trace[n].config.slaThreshold);
  }

  /** In every state of a run the stored mean is at most the exact one and within (n-1)/2 of it. */
  lemma StoredMeanError(trace: seq<State>, ops: seq<Op>, who: Address, n: nat)
    requires Run(trace, ops) && n < |trace| && who !in trace[0].quotas.metrics
    requires M.Recordable(Billed(trace, ops, who, n))
    ensures var times, m := Billed(trace, ops, who, n), Lookup(trace[n].quotas.metrics, who, M.INITIAL);
      && m.total == |times| && m.uptime <= 100
      && m.average * |times| <= M.Sum(times)
      && 2 * (M.Sum(times) - m.average * |times|) <= |times| * (|times| - 1)
  {
    hide Step, Legal, Billed, M.RecordAll, M.Sum, M.Record;
    MetricsFollowRun(trace, ops, who, n);
    M.MeanErrorBound(Billed(trace, ops, who, n));
    M.UptimeExact(Billed(trace, ops, who, n));
  }

  /** An oracle whose exact mean exceeds the threshold by more than the error of the stored mean can be
      deactivated. */
  lemma SlowEnoughIsDeactivated(trace: seq<State>, ops: seq<Op>, who: Address, n: nat)
    requires Run(trace, ops) && n < |trace| && who !in trace[0].quotas.metrics && trace[n].config.admin.Some?
    requires M.Recordable(Billed(trace, ops, who, n))
    requires var times := Billed(trace, ops, who, n);
      2 * (M.Sum(times) - trace[n].config.slaThreshold * |times|) > |times| * (|times| - 1) && times != []
    ensures Perform(trace[n], Deactivate(who)).Ok?
  {
    hide Step, Legal, Billed, M.RecordAll, M.Sum, M.Record;
    var times, m := Billed(trace, ops, who, n), Lookup(trace[n].quotas.metrics, who, M.INITIAL);
    if m.average <= trace[n].config.slaThreshold {
      A.MulMonotone(|times|, m.average, trace[n].config.slaThreshold);
    }
    StoredMeanError(trace, ops, who, n);
  }
}
