/** A batch of results is the fold of single submissions. */
module BatchResults {
  import opened Prelude
  import opened RateLimiter
  import opened OracleModel
  import M = Metrics

  /** Submit the entries one by one; an error stops the sequence. */
  function SubmitEach(s: State, es: seq<Entry>, ms: seq<nat>): Result<State, Error>
    requires |ms| == |es|
  {
    if es == [] then Ok(s)
    else
      var r := SubmitEach(s, es[..|es| - 1], ms[..|es| - 1]);
      if r.Err? then r else SubmitResult(r.value, es[|es| - 1], ms[|es| - 1])
  }

  // ----- quotas

  /** Charging a + b at once is charging a and then b at the same instant. */
  lemma AdmitSplit(stored: Option<Window>, now: nat, a: nat, b: nat, limit: nat, span: nat)
    requires span > 0
    ensures Admit(stored, now, a + b, limit, span) ==
      var r := Admit(stored, now, a, limit, span); if r.None? then None else Admit(r, now, b, limit, span)
  {
    hide Weighted;
    var w := Load(stored, now, span);
    assert SatSub(now, w.start) < span;
    assert forall c :: Load(Some(w.(current := c)), now, span) == w.(current := c);
  }

  lemma OverwriteTwice<K, V>(m: map<K, V>, k: K, v: V, w: V)
    ensures m[k := v][k := w] == m[k := w]
  {
  }

  lemma ChargeSplit(q: Quotas, config: Config, time: nat, who: Address, a: nat, b: nat)
    ensures var r := Charge(q, config, time, who, a);
      Charge(q, config, time, who, a + b) == if r.None? then None else Charge(r.value, config, time, who, b)
  {
    hide Admit;
    var limits := Lookup(config.limits, who, (DEFAULT_HOURLY_LIMIT, DEFAULT_DAILY_LIMIT));
    AdmitSplit(Get(q.hourly, who), time, a, b, limits.0, HOURLY_SECS);
    AdmitSplit(Get(q.daily, who), time, a, b, limits.1, DAILY_SECS);
    var r, whole := Charge(q, config, time, who, a), Charge(q, config, time, who, a + b);
    if r.Some? && whole.Some? {
      OverwriteTwice(q.hourly, who, r.value.hourly[who], whole.value.hourly[who]);
      OverwriteTwice(q.daily, who, r.value.daily[who], whole.value.daily[who]);
    }
  }

  /** The windows are charged alike whatever the metrics are. */
  lemma ChargeIgnoresMetrics(q: Quotas, metrics: map<Address, M.Metrics>, config: Config, time: nat, who: Address,
                             n: nat)
    ensures var r, r' := Charge(q, config, time, who, n), Charge(q.(metrics := metrics), config, time, who, n);
      && (r.None? <==> r'.None?)
      && (r.Some? ==> r'.value == r.value.(metrics := metrics) && r.value.metrics == q.metrics)
  {
    hide Admit;
  }

  // ----- validation

  /** Entries i, i+1, .. are non-empty, new and pairwise distinct. */
  ghost predicate Clean(results: map<nat, ResultEntry>, es: seq<Entry>, i: nat) {
    && (forall k :: i <= k < |es| ==> es[k].claim.game != "" && es[k].matchId !in results)
    && (forall k, l :: i <= k < l < |es| ==> es[k].matchId != es[l].matchId)
  }

  lemma {:induction false} FaultFree(results: map<nat, ResultEntry>, es: seq<Entry>, i: nat)
    ensures BatchFault(results, es, i).None? <==> Clean(results, es, i)
    decreases |es| - i
  {
    if i < |es| {
      FaultFree(results, es, i + 1);
    }
  }

  lemma {:induction false} CommitAllResults(b: Board, admin: Address, es: seq<Entry>, ledger: nat, time: nat, m: nat)
    ensures m in CommitAll(b, admin, es, ledger, time).results <==>
      m in b.results || exists k :: 0 <= k < |es| && es[k].matchId == m
    decreases |es|
  {
    if es != [] {
      var init := es[..|es| - 1];
      CommitAllResults(b, admin, init, ledger, time, m);
      assert forall k :: 0 <= k < |init| ==> init[k] == es[k];
      if exists k :: 0 <= k < |es| && es[k].matchId == m {
        var k :| 0 <= k < |es| && es[k].matchId == m;
        assert k < |init| ==> init[k].matchId == m;
      }
    }
  }

  // ----- the fold

  ghost predicate ActiveAdmin(s: State) {
    s.config.admin.Some? ==> Lookup(s.quotas.metrics, s.config.admin.value, M.INITIAL).active
  }

  /** The state after n successful single submissions, with the metrics they recorded. */
  ghost predicate AfterSingles(s: State, es: seq<Entry>, r: State)
    requires s.config.admin.Some?
  {
    var charged := Charge(s.quotas, s.config, s.time, s.config.admin.value, |es|);
    && charged.Some?
    && ActiveAdmin(r)
    && r == s.(quotas := charged.value.(metrics := r.quotas.metrics),
               board := CommitAll(s.board, s.config.admin.value, es, s.ledger, s.time))
  }

  lemma FirstSingle(s: State, e: Entry, ms: nat)
    requires SubmissionGate(s).Ok? && ActiveAdmin(s)
    ensures SubmitResult(s, e, ms).Ok? <==>
      Charge(s.quotas, s.config, s.time, s.config.admin.value, 1).Some? && Clean(s.board.results, [e], 0)
    ensures SubmitResult(s, e, ms).Ok? ==> AfterSingles(s, [e], SubmitResult(s, e, ms).value)
  {
    hide Charge, Commit;
    ChargeIgnoresMetrics(s.quotas, s.quotas.metrics, s.config, s.time, s.config.admin.value, 1);
    assert [e][..0] == [] && CommitAll(s.board, s.config.admin.value, [], s.ledger, s.time) == s.board;
    assert [e][0] == e;
  }

  /** One more single submission after n of them. */
  lemma SingleStep(s: State, es: seq<Entry>, r: State, e: Entry, ms: nat)
    requires SubmissionGate(s).Ok? && AfterSingles(s, es, r)
    requires Clean(s.board.results, es, 0)
    ensures SubmitResult(r, e, ms).Ok? <==>
      Charge(s.quotas, s.config, s.time, s.config.admin.value, |es| + 1).Some? && Clean(s.board.results, es + [e], 0)
    ensures SubmitResult(r, e, ms).Ok? ==> AfterSingles(s, es + [e], SubmitResult(r, e, ms).value)
  {
    hide Charge, Commit;
    var admin := s.config.admin.value;
    var charged := Charge(s.quotas, s.config, s.time, admin, |es|).value;
    ChargeSplit(s.quotas, s.config, s.time, admin, |es|, 1);
    ChargeIgnoresMetrics(charged, r.quotas.metrics, s.config, s.time, admin, 1);
    ChargeIgnoresMetrics(s.quotas, s.quotas.metrics, s.config, s.time, admin, |es|);
    CommitAllResults(s.board, admin, es, s.ledger, s.time, e.matchId);
    assert (es + [e])[..|es|] == es;
    CleanSnoc(s.board.results, es, e);
  }

  lemma CleanSnoc(results: map<nat, ResultEntry>, es: seq<Entry>, e: Entry)
    ensures Clean(results, es + [e], 0) <==>
      && Clean(results, es, 0) && e.claim.game != "" && e.matchId !in results
      && !exists k :: 0 <= k < |es| && es[k].matchId == e.matchId
  {
    var all := es + [e];
    assert all[|es|] == e;
    if Clean(results, all, 0) {
      forall k | 0 <= k < |es|
        ensures es[k].claim.game != "" && es[k].matchId !in results && es[k].matchId != e.matchId
      {
        assert all[k] == es[k] && all[|es|] == e;
      }
      forall k, l | 0 <= k < l < |es|
        ensures es[k].matchId != es[l].matchId
      {
        assert all[k] == es[k] && all[l] == es[l];
      }
    }
  }

  lemma {:induction false} SinglesCharacterised(s: State, es: seq<Entry>, ms: seq<nat>)
    requires |ms| == |es| && ActiveAdmin(s) && SubmissionGate(s).Ok? && es != []
    ensures SubmitEach(s, es, ms).Ok? <==>
      && Charge(s.quotas, s.config, s.time, s.config.admin.value, |es|).Some?
      && Clean(s.board.results, es, 0)
    ensures SubmitEach(s, es, ms).Ok? ==> AfterSingles(s, es, SubmitEach(s, es, ms).value)
    decreases |es|
  {
    hide Charge, Clean, SubmitResult, AfterSingles;
    var n := |es| - 1;
    var init, last := es[..n], es[n];
    assert es == init + [last];
    var admin := s.config.admin.value;
    if n == 0 {
      FirstSingle(s, last, ms[0]);
      assert es == [last] && init == [] && ms[..0] == [];
    } else {
      SinglesCharacterised(s, init, ms[..n]);
      var r := SubmitEach(s, init, ms[..n]);
      if r.Ok? {
        SingleStep(s, init, r.value, last, ms[n]);
      } else {
        ChargeSplit(s.quotas, s.config, s.time, admin, n, 1);
        CleanSnoc(s.board.results, init, last);
      }
    }
  }

  /** A batch of 1 to 100 entries commits exactly when submitting its entries one by one at the same
      ledger would all succeed, and then leaves the same state, metrics aside. A batch that does not
      commit changes nothing (it is an error). */
  lemma BatchIsFold(s: State, es: seq<Entry>, ms: seq<nat>)
    requires 1 <= |es| <= MAX_BATCH_SIZE && |ms| == |es| && ActiveAdmin(s)
    ensures var batch, singles := SubmitBatch(s, es), SubmitEach(s, es, ms);
      && (batch.Ok? <==> singles.Ok?)
      && (batch.Ok? ==> singles.value == batch.value.(
            quotas := batch.value.quotas.(metrics := singles.value.quotas.metrics)))
  {
    if SubmissionGate(s).Ok? {
      SinglesCharacterised(s, es, ms);
      FaultFree(s.board.results, es, 0);
      ChargeIgnoresMetrics(s.quotas, s.quotas.metrics, s.config, s.time, s.config.admin.value, |es|);
    } else {
      GateShut(s, es, ms);
    }
  }

  lemma {:induction false} GateShut(s: State, es: seq<Entry>, ms: seq<nat>)
    requires |ms| == |es| && es != [] && SubmissionGate(s).Err?
    ensures SubmitEach(s, es, ms).Err?
    decreases |es|
  {
    var n := |es| - 1;
    if n > 0 {
      GateShut(s, es[..n], ms[..n]);
    } else {
      assert es[..0] == [] && ms[..0] == [];
    }
  }
}
