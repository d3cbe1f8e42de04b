/** Published results, cached answers and submission histories, each traced over whole runs to the
    transactions that wrote them. */
module OracleResults {
  import opened Prelude
  import opened OracleModel
  import opened OracleInvariants
  import opened OracleRuns
  import BatchResults

  // ----- the board after a batch

  function EntryOf(e: Entry, ledger: nat, author: Address): ResultEntry {
    ResultEntry(e.claim, ledger, author, e.confidence)
  }

  ghost predicate Distinct(es: seq<Entry>) {
    forall i, j :: 0 <= i < j < |es| ==> es[i].matchId != es[j].matchId
  }

  lemma {:induction false} BatchResult(b: Board, admin: Address, es: seq<Entry>, ledger: nat, time: nat, i: nat)
    requires Distinct(es) && i < |es|
    ensures Get(CommitAll(b, admin, es, ledger, time).results, es[i].matchId) == Some(EntryOf(es[i], ledger, admin))
    decreases |es|
  {
    if i < |es| - 1 {
      BatchResult(b, admin, es[..|es| - 1], ledger, time, i);
    }
  }

  lemma {:induction false} BatchOthers(b: Board, admin: Address, es: seq<Entry>, ledger: nat, time: nat, m: nat)
    requires forall i :: 0 <= i < |es| ==> es[i].matchId != m
    ensures Get(CommitAll(b, admin, es, ledger, time).results, m) == Get(b.results, m)
    decreases |es|
  {
    if es != [] {
      BatchOthers(b, admin, es[..|es| - 1], ledger, time, m);
    }
  }

  /** The key under which a claim is cached, and what is cached for it. */
  function CacheKey(c: Claim): (string, Platform) {
    (c.game, c.platform)
  }

  lemma {:induction false} BatchCache(b: Board, admin: Address, es: seq<Entry>, ledger: nat, time: nat,
                                      k: (string, Platform))
    ensures var b' := CommitAll(b, admin, es, ledger, time);
      || Get(b'.cache, k) == Get(b.cache, k)
      || exists i :: 0 <= i < |es| && CacheKey(es[i].claim) == k
                     && Get(b'.cache, k) == Some((es[i].claim.winner, time + CACHE_TTL_SECS))
    decreases |es|
  {
    if es != [] {
      var init := es[..|es| - 1];
      BatchCache(b, admin, init, ledger, time, k);
      assert forall i :: 0 <= i < |init| ==> init[i] == es[i];
    }
  }

  function Logged(es: seq<Entry>, ledger: nat): seq<Submission> {
    seq(|es|, i requires 0 <= i < |es| => Submission(es[i].matchId, es[i].claim, ledger))
  }

  lemma {:induction false} BatchHistory(b: Board, admin: Address, es: seq<Entry>, ledger: nat, time: nat, o: Address)
    ensures Lookup(CommitAll(b, admin, es, ledger, time).history, o, [])
            == Lookup(b.history, o, []) + if o == admin then Logged(es, ledger) else []
    decreases |es|
  {
    if es != [] {
      var init, e := es[..|es| - 1], es[|es| - 1];
      BatchHistory(b, admin, init, ledger, time, o);
      assert Logged(es, ledger) == Logged(init, ledger) + [Submission(e.matchId, e.claim, ledger)];
    }
  }

  // ----- what a transaction publishes

  /** The accepted transaction publishes `e` in the name of `author`. */
  ghost predicate Publishes(s: State, op: Op, e: Entry, author: Address) {
    && Perform(s, op).Ok?
    && match op
       case Vote(who, m, claim, _) =>
         author == who && e == Entry(m, claim, None) && m !in s.board.results && m in Step(s, op).board.results
       case Resolve(m, claim) => Some(author) == s.config.admin && e == Entry(m, claim, None)
       case Submit(entry, _) => Some(author) == s.config.admin && e == entry
       case Batch(entries) => Some(author) == s.config.admin && e in entries
       case _ => false
  }

  /** A vote publishes its own claim or nothing; a vote that flags the tally as deadlocked drops the
      cached answer for its game, and no other vote does. */
  lemma VoteBoard(s: State, who: Address, matchId: nat, claim: Claim, ms: nat)
    requires Inv(s) && CastVote(s, who, matchId, claim, ms).Ok?
    ensures var s' := CastVote(s, who, matchId, claim, ms).value;
      var b, b' := s.board, s'.board;
      var flags := (matchId, who) !in s.polls.votes && Open(s'.polls, matchId).disputed;
      if matchId in b.results then b' == b
      else if matchId in b'.results then
        && b'.results == b.results[matchId := ResultEntry(claim, s.ledger, who, None)]
        && b'.cache == b.cache[CacheKey(claim) := (claim.winner, s.time + CACHE_TTL_SECS)]
      else b' == b.(cache := if flags then b.cache - {CacheKey(claim)} else b.cache)
  {
    hide Inv, Bill, Slash, CountVote, Backing, SlashEach, LogEach, Losers, Deadlocked, Eligible;
    var cs, e := CountVote(Open(s.polls, matchId).candidates, who, claim), Entry(matchId, claim, None);
    LogEachFrame(Publish(s.board, e, who, s.ledger, s.time), Backing(cs, claim), e, s.ledger);
  }

  lemma BatchAccepted(s: State, es: seq<Entry>)
    requires SubmitBatch(s, es).Ok?
    ensures s.config.admin.Some? && |es| <= MAX_BATCH_SIZE && Distinct(es)
    ensures forall i :: 0 <= i < |es| ==> es[i].claim.game != "" && es[i].matchId !in s.board.results
    ensures SubmitBatch(s, es).value.board == CommitAll(s.board, s.config.admin.value, es, s.ledger, s.time)
  {
    hide BatchFault, CommitAll, Charge;
    BatchResults.FaultFree(s.board.results, es, 0);
  }

  /** What a transaction publishes is new, and is on the board after it as published. */
  lemma PublishStep(s: State, op: Op, e: Entry, author: Address)
    requires Inv(s) && Publishes(s, op, e, author)
    ensures e.matchId !in s.board.results
    ensures Get(Step(s, op).board.results, e.matchId) == Some(EntryOf(e, s.ledger, author))
  {
    hide Inv, CastVote, SubmitBatch, Bill, SlashEach, Losers, CommitAll;
    match op
    case Vote(who, m, claim, ms) => VoteBoard(s, who, m, claim, ms);
    case Batch(es) =>
      BatchAccepted(s, es);
      var i :| 0 <= i < |es| && es[i] == e;
      BatchResult(s.board, author, es, s.ledger, s.time, i);
    case _ =>
  }

  /** The transaction changes the result of match `m` from nothing to `r`. */
  ghost predicate PublishedNow(s: State, op: Op, m: nat, r: ResultEntry) {
    exists e: Entry, author: Address ::
      Publishes(s, op, e, author) && e.matchId == m && r == EntryOf(e, s.ledger, author)
  }

  /** A result stays as it is until it is deleted, and appears only by being published. */
  lemma ResultStep(s: State, op: Op, m: nat)
    requires Inv(s)
    ensures var results, results' := s.board.results, Step(s, op).board.results;
      && (m in results ==> if op == Delete(m) && Perform(s, op).Ok? then m !in results'
                           else Get(results', m) == Get(results, m))
      && (m !in results && m in results' ==> PublishedNow(s, op, m, results'[m]))
  {
    hide Inv, CastVote, SubmitBatch, Bill, SlashEach, Losers, CommitAll, Slash;
    if Perform(s, op).Ok? {
      match op
      case Vote(who, k, claim, ms) =>
        VoteBoard(s, who, k, claim, ms);
        assert k == m && m !in s.board.results && m in Step(s, op).board.results ==>
          Publishes(s, op, Entry(k, claim, None), who);
      case Resolve(k, claim) =>
        assert Publishes(s, op, Entry(k, claim, None), s.config.admin.value);
      case Submit(e, _) =>
        assert Publishes(s, op, e, s.config.admin.value);
      case Batch(es) =>
        BatchAccepted(s, es);
        if i :| 0 <= i < |es| && es[i].matchId == m {
          BatchResult(s.board, s.config.admin.value, es, s.ledger, s.time, i);
          assert Publishes(s, op, es[i], s.config.admin.value);
        } else {
          BatchOthers(s.board, s.config.admin.value, es, s.ledger, s.time, m);
        }
      case _ =>
    }
  }

  /** Every result on the board was published in the run by a vote that completed a quorum, by the
      admin's resolution or by the admin's submission, with the claim and the submitter on record, and
      has not been touched since. */
  lemma {:induction false} ResultTraced(trace: seq<State>, ops: seq<Op>, m: nat, n: nat) returns (i: nat)
    requires Run(trace, ops) && Inv(trace[0]) && m !in trace[0].board.results
    requires n < |trace| && m in trace[n].board.results
    ensures i < n && PublishedNow(trace[i], ops[i], m, trace[n].board.results[m])
    ensures forall k :: i < k <= n ==> Get(trace[k].board.results, m) == Some(trace[n].board.results[m])
  {
    hide Perform, Inv, PublishedNow;
    RunKeeps(trace, ops, n - 1);
    ResultStep(trace[n - 1], ops[n - 1], m);
    if m in trace[n - 1].board.results {
      i := ResultTraced(trace, ops, m, n - 1);
    } else {
      i := n - 1;
    }
  }

  // ----- the game cache

  /** The transaction publishes a result that is cached as `v` under `k`. */
  ghost predicate CachedNow(s: State, op: Op, k: (string, Platform), v: (Winner, nat)) {
    && v.1 == s.time + CACHE_TTL_SECS
    && exists e: Entry, author: Address :: Publishes(s, op, e, author) && e.claim == Claim(k.0, k.1, v.0)
  }

  lemma CacheStep(s: State, op: Op, k: (string, Platform))
    requires Inv(s) && k in Step(s, op).board.cache
    ensures var v := Step(s, op).board.cache[k]; Get(s.board.cache, k) == Some(v) || CachedNow(s, op, k, v)
  {
    hide Inv, CastVote, SubmitBatch, Bill, SlashEach, Losers, CommitAll, Slash;
    if Perform(s, op).Ok? {
      match op
      case Vote(who, m, claim, ms) =>
        VoteBoard(s, who, m, claim, ms);
        assert m !in s.board.results && m in Step(s, op).board.results ==> Publishes(s, op, Entry(m, claim, None), who);
      case Resolve(m, claim) =>
        assert Publishes(s, op, Entry(m, claim, None), s.config.admin.value);
      case Submit(e, _) =>
        assert Publishes(s, op, e, s.config.admin.value);
      case Batch(es) =>
        BatchAccepted(s, es);
        BatchCache(s.board, s.config.admin.value, es, s.ledger, s.time, k);
        if Get(Step(s, op).board.cache, k) != Get(s.board.cache, k) {
          var i :| 0 <= i < |es| && CacheKey(es[i].claim) == k
                   && Get(Step(s, op).board.cache, k) == Some((es[i].claim.winner, s.time + CACHE_TTL_SECS));
          assert Publishes(s, op, es[i], s.config.admin.value);
        }
      case _ =>
    }
  }

  /** Every cached answer about a game was on the board as the result of a match on that game exactly
      one cache lifetime before it expires. */
  lemma {:induction false} CacheTraced(trace: seq<State>, ops: seq<Op>, k: (string, Platform), n: nat)
    returns (i: nat, m: nat)
    requires Run(trace, ops) && Inv(trace[0]) && k !in trace[0].board.cache
    requires n < |trace| && k in trace[n].board.cache
    ensures i < n && trace[n].board.cache[k].1 == trace[i].time + CACHE_TTL_SECS
    ensures m !in trace[i].board.results && m in trace[i + 1].board.results
    ensures trace[i + 1].board.results[m].claim == Claim(k.0, k.1, trace[n].board.cache[k].0)
  {
    hide Perform, Inv, Publishes;
    var s, op, v := trace[n - 1], ops[n - 1], trace[n].board.cache[k];
    RunKeeps(trace, ops, n - 1);
    CacheStep(s, op, k);
    if Get(s.board.cache, k) == Some(v) {
      i, m := CacheTraced(trace, ops, k, n - 1);
    } else {
      var e: Entry, author: Address :| Publishes(s, op, e, author) && e.claim == Claim(k.0, k.1, v.0);
      PublishStep(s, op, e, author);
      i, m := n - 1, e.matchId;
    }
  }

  /** A deletion takes away the result of its match and the cached answer for its game, and no more. */
  lemma DeletionExact(s: State, m: nat)
    ensures DeleteResult(s, m).Ok? <==> !s.config.paused && s.config.admin.Some? && m in s.board.results
    ensures DeleteResult(s, m).Ok? ==>
      var b, b' := s.board, DeleteResult(s, m).value.board;
      && (forall k :: Get(b'.results, k) == if k == m then None else Get(b.results, k))
      && (forall k :: Get(b'.cache, k) == if k == CacheKey(b.results[m].claim) then None else Get(b.cache, k))
      && DeleteResult(s, m).value == s.(board := b') && b'.history == b.history
  {
  }

  // ----- submission histories

  /** The submissions a transaction credits to `o`. */
  ghost function Credits(s: State, op: Op, o: Address): seq<Submission> {
    if Perform(s, op).Err? then []
    else
      match op
      case Vote(who, m, claim, _) =>
        if m !in s.board.results && m in Step(s, op).board.results
           && (o == who || o in Backing(Open(s.polls, m).candidates, claim))
        then [Submission(m, claim, s.ledger)] else []
      case Submit(e, _) => if Some(o) == s.config.admin then Logged([e], s.ledger) else []
      case Batch(es) => if Some(o) == s.config.admin then Logged(es, s.ledger) else []
      case _ => []
  }

  lemma PublishedHistory(s: State, who: Address, matchId: nat, claim: Claim, ms: nat, o: Address)
    requires Inv(s) && matchId !in s.board.results && CastVote(s, who, matchId, claim, ms).Ok?
    requires matchId in CastVote(s, who, matchId, claim, ms).value.board.results
    ensures Lookup(CastVote(s, who, matchId, claim, ms).value.board.history, o, [])
            == Lookup(s.board.history, o, []) +
               if o == who || o in Backing(Open(s.polls, matchId).candidates, claim)
               then [Submission(matchId, claim, s.ledger)] else []
  {
    hide CastVote, Inv, Backing, CountVote, Open, Lookup;
    FinalisationRecord(s, who, matchId, claim, ms, o);
    CountVoteBacking(Open(s.polls, matchId).candidates, who, claim);
  }

  lemma QuietHistory(s: State, who: Address, matchId: nat, claim: Claim, ms: nat)
    requires Inv(s) && CastVote(s, who, matchId, claim, ms).Ok?
    requires matchId in s.board.results || matchId !in CastVote(s, who, matchId, claim, ms).value.board.results
    ensures CastVote(s, who, matchId, claim, ms).value.board.history == s.board.history
  {
    VoteBoard(s, who, matchId, claim, ms);
    hide CastVote, Inv, Open, Lookup;
  }

  lemma VoteHistory(s: State, who: Address, matchId: nat, claim: Claim, ms: nat, o: Address)
    requires Inv(s) && CastVote(s, who, matchId, claim, ms).Ok?
    ensures Lookup(CastVote(s, who, matchId, claim, ms).value.board.history, o, [])
            == Lookup(s.board.history, o, []) + Credits(s, Vote(who, matchId, claim, ms), o)
  {
    hide CastVote, Inv, Backing, Open, Lookup;
    if matchId !in s.board.results && matchId in CastVote(s, who, matchId, claim, ms).value.board.results {
      PublishedHistory(s, who, matchId, claim, ms, o);
    } else {
      QuietHistory(s, who, matchId, claim, ms);
    }
  }

  lemma HistoryStep(s: State, op: Op, o: Address)
    requires Inv(s)
    ensures Lookup(Step(s, op).board.history, o, []) == Lookup(s.board.history, o, []) + Credits(s, op, o)
  {
    hide Inv, CastVote, SubmitBatch, Bill, SlashEach, Losers, CommitAll, Slash;
    if Perform(s, op).Ok? {
      match op
      case Vote(who, m, claim, ms) => VoteHistory(s, who, m, claim, ms, o);
      case Batch(es) =>
        BatchAccepted(s, es);
        BatchHistory(s.board, s.config.admin.value, es, s.ledger, s.time, o);
      case _ =>
    }
  }

  ghost function Credited(trace: seq<State>, ops: seq<Op>, o: Address, n: nat): seq<Submission>
    requires |trace| == |ops| + 1 && n < |trace|
  {
    if n == 0 then [] else Credited(trace, ops, o, n - 1) + Credits(trace[n - 1], ops[n - 1], o)
  }

  /** An oracle's history is, in order, the submissions credited to it in the run. */
  lemma {:induction false} HistoryLedger(trace: seq<State>, ops: seq<Op>, o: Address, n: nat)
    requires Run(trace, ops) && Inv(trace[0]) && n < |trace|
    ensures Lookup(trace[n].board.history, o, [])
            == Lookup(trace[0].board.history, o, []) + Credited(trace, ops, o, n)
  {
    hide Perform, Inv, Credits;
    if n > 0 {
      HistoryLedger(trace, ops, o, n - 1);
      RunKeeps(trace, ops, n - 1);
      HistoryStep(trace[n - 1], ops[n - 1], o);
    }
  }
}
