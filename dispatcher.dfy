/** The exported `handler` of keeper/src/filters/loopStrategy.js: it walks
    the events in order and, inside each event, its match reasons in order,
    and hands each reason to the evaluator its signature selects. */
module Dispatcher {
  import opened KeeperTypes
  import opened Seqs
  import opened State
  import opened Evaluators

  const DepositSig := "Deposit(address,address,uint256,uint256)"
  const WithdrawSig := "Withdraw(address,address,address,uint256,uint256)"
  const PriceUpdateSig := "AnswerUpdated(int256,uint256,uint256)"
  const PoolLiquidationSig := "LiquidationCall(address,address,address,uint256,uint256,address,bool)"
  const PoolBorrowSig := "Borrow(address,address,address,uint256,uint8,uint256,uint16)"
  const PoolRepaySig := "Repay(address,address,address,uint256,bool)"
  const PoolWithdrawSig := "Withdraw(address,address,address,uint256)"
  const PoolSupplySig := "Supply(address,address,address,uint256,uint16)"

  const WithdrawType := "withdraw"
  const DepositType := "deposit"

  /** The guard of the first `try` block. */
  predicate IsWithdrawOrDeposit(sig: string)
  {
    sig == WithdrawSig || sig == DepositSig
  }

  /** The guard of the second `try` block. */
  predicate IsPriceUpdate(sig: string)
  {
    sig == PriceUpdateSig
  }

  /** The guard of the third `try` block. */
  predicate IsPoolAction(sig: string)
  {
    sig == PoolBorrowSig || sig == PoolRepaySig || sig == PoolWithdrawSig || sig == PoolSupplySig ||
    sig == PoolLiquidationSig
  }

  predicate IsKnownSignature(sig: string)
  {
    sig == DepositSig || sig == WithdrawSig || sig == PriceUpdateSig || sig == PoolLiquidationSig ||
    sig == PoolBorrowSig || sig == PoolRepaySig || sig == PoolWithdrawSig || sig == PoolSupplySig
  }

  function ReasonType(sig: string): string
  {
    if sig == WithdrawSig then WithdrawType else DepositType
  }

  /** The match type each known signature leads to. */
  function ExpectedType(sig: string): string
  {
    if sig == WithdrawSig then WithdrawType
    else if sig == DepositSig then DepositType
    else if sig == PriceUpdateSig then PriceUpdateType
    else BorrowRateType
  }

  /** The eight signatures are pairwise distinct; in particular the strategy
      Withdraw (five arguments) and the pool Withdraw (four) differ. */
  lemma SignaturesDistinct()
    ensures |[DepositSig, WithdrawSig, PriceUpdateSig, PoolLiquidationSig,
              PoolBorrowSig, PoolRepaySig, PoolWithdrawSig, PoolSupplySig]| == 8
    ensures forall i, j :: 0 <= i < j < 8 ==>
      [DepositSig, WithdrawSig, PriceUpdateSig, PoolLiquidationSig,
       PoolBorrowSig, PoolRepaySig, PoolWithdrawSig, PoolSupplySig][i] !=
      [DepositSig, WithdrawSig, PriceUpdateSig, PoolLiquidationSig,
       PoolBorrowSig, PoolRepaySig, PoolWithdrawSig, PoolSupplySig][j]
  {
    assert |WithdrawSig| != |PoolWithdrawSig|;
  }

  /** Each reason reaches at most one of the three evaluators, and an
      unknown signature reaches none. */
  lemma AtMostOneEvaluator(sig: string)
    ensures Flag(IsWithdrawOrDeposit(sig)) + Flag(IsPriceUpdate(sig)) + Flag(IsPoolAction(sig)) <= 1
    ensures IsKnownSignature(sig) <==> IsWithdrawOrDeposit(sig) || IsPriceUpdate(sig) || IsPoolAction(sig)
  {
    SignaturesDistinct();
  }

  /** The body of the inner loop: the three `try` blocks in order, each
      guarded by its own test; the first failure is rethrown. */
  function EvalReason(cfg: Config, chain: Chain, eps: EpsTable, hash: Hash, reason: Reason): (r: Step)
    ensures !IsPriceUpdate(reason.signature) ==> r.eps == eps
    ensures forall k :: k in eps ==> k in r.eps
  {
    var sig := reason.signature;
    var first := if IsWithdrawOrDeposit(sig)
                 then EvalWithdrawOrDeposit(cfg, chain, eps, ReasonType(sig), reason, hash)
                 else Ok([]);
    if first.Err? then Step(first, eps)
    else
      var second := if IsPriceUpdate(sig) then EvalPriceUpdate(cfg, chain, eps, reason, hash)
                    else Step(Ok([]), eps);
      if second.out.Err? then second
      else
        var third := if IsPoolAction(sig) then EvalPoolAction(cfg, chain, reason, hash) else Ok([]);
        if third.Err? then Step(third, second.eps)
        else Step(Ok(first.value + second.out.value + third.value), second.eps)
  }

  /** Routing: a reason is handled by exactly the evaluator its signature
      names, and one with an unknown signature adds nothing and writes nothing. */
  lemma EvalReasonRoutes(cfg: Config, chain: Chain, eps: EpsTable, hash: Hash, reason: Reason)
    ensures var sig := reason.signature;
      var r := EvalReason(cfg, chain, eps, hash, reason);
      && (IsWithdrawOrDeposit(sig) ==>
            r == Step(EvalWithdrawOrDeposit(cfg, chain, eps, ReasonType(sig), reason, hash), eps))
      && (IsPriceUpdate(sig) ==> r == EvalPriceUpdate(cfg, chain, eps, reason, hash))
      && (IsPoolAction(sig) ==> r == Step(EvalPoolAction(cfg, chain, reason, hash), eps))
      && (!IsKnownSignature(sig) ==> r == Step(Ok([]), eps))
  {
    var sig := reason.signature;
    AtMostOneEvaluator(sig);
    var r := EvalReason(cfg, chain, eps, hash, reason);
    if IsWithdrawOrDeposit(sig) {
      var first := EvalWithdrawOrDeposit(cfg, chain, eps, ReasonType(sig), reason, hash);
      if first.Ok? {
        assert first.value + [] + [] == first.value;
      }
    } else if IsPriceUpdate(sig) {
      var second := EvalPriceUpdate(cfg, chain, eps, reason, hash);
      if second.out.Ok? {
        assert [] + second.out.value + [] == second.out.value;
      }
    } else if IsPoolAction(sig) {
      var third := EvalPoolAction(cfg, chain, reason, hash);
      if third.Ok? {
        assert [] + [] + third.value == third.value;
      }
    } else {
      var none: seq<Match> := [];
      assert none + none + none == none;
    }
  }

  /** Every match a reason contributes carries its event's hash and the type
      of the evaluator its signature selects: 'withdraw' exactly for the
      strategy Withdraw signature, 'deposit' for Deposit, 'priceUpdate' and
      'borrowRate' for the others. */
  lemma EvalReasonTagged(cfg: Config, chain: Chain, eps: EpsTable, hash: Hash, reason: Reason)
    ensures var r := EvalReason(cfg, chain, eps, hash, reason);
      r.out.Ok? ==> forall m :: m in r.out.value ==>
        m.hash == hash && m.metadata.matchType == ExpectedType(reason.signature)
  {
    EvalReasonRoutes(cfg, chain, eps, hash, reason);
  }

  /** One (event, reason) pair of the nested loops. */
  datatype Pair = Pair(hash: Hash, reason: Reason)

  function PairsOf(e: Event): (r: seq<Pair>)
    ensures |r| == |e.matchReasons|
    ensures forall k :: 0 <= k < |r| ==> r[k] == Pair(e.hash, e.matchReasons[k])
  {
    seq(|e.matchReasons|, k requires 0 <= k < |e.matchReasons| => Pair(e.hash, e.matchReasons[k]))
  }

  /** The pairs visited by the nested loops, in order. */
  function Pairs(events: seq<Event>): seq<Pair>
    decreases |events|
  {
    if |events| == 0 then []
    else Pairs(events[..|events| - 1]) + PairsOf(events[|events| - 1])
  }

  lemma {:induction false} PairsAppend(a: seq<Event>, b: seq<Event>)
    ensures Pairs(a + b) == Pairs(a) + Pairs(b)
    decreases |b|
  {
    if |b| == 0 {
      assert a + b == a;
    } else {
      var b', last := b[..|b| - 1], b[|b| - 1];
      assert (a + b)[..|a + b| - 1] == a + b';
      assert (a + b)[|a + b| - 1] == last;
      assert Pairs(a + b) == Pairs(a + b') + PairsOf(last);
      PairsAppend(a, b');
      assert Pairs(b) == Pairs(b') + PairsOf(last);
    }
  }

  /** Every visited pair comes from one of the events and one of its reasons. */
  lemma {:induction false} PairsFromEvents(events: seq<Event>, p: Pair)
    requires p in Pairs(events)
    ensures exists e :: e in events && p.hash == e.hash && p.reason in e.matchReasons
    decreases |events|
  {
    var init := events[..|events| - 1];
    var last := events[|events| - 1];
    if p in Pairs(init) {
      PairsFromEvents(init, p);
      var e :| e in init && p.hash == e.hash && p.reason in e.matchReasons;
      assert e in events;
    } else {
      var k :| 0 <= k < |PairsOf(last)| && PairsOf(last)[k] == p;
      assert last in events;
    }
  }

  /** The batch: the result of processing `pairs` in order, starting from
      store contents `eps`. `matches` is the concatenation of the
      contributions; the first failure stops the batch and is what the
      handler throws, with the store keeping the writes made until then. */
  function Run(cfg: Config, chain: Chain, pairs: seq<Pair>, eps: EpsTable): (r: Step)
    ensures forall k :: k in eps ==> k in r.eps
    ensures (forall p :: p in pairs ==> !IsPriceUpdate(p.reason.signature)) ==> r.eps == eps
    decreases |pairs|
  {
    if |pairs| == 0 then Step(Ok([]), eps)
    else
      var prev := Run(cfg, chain, pairs[..|pairs| - 1], eps);
      if prev.out.Err? then prev
      else
        var p := pairs[|pairs| - 1];
        var step := EvalReason(cfg, chain, prev.eps, p.hash, p.reason);
        if step.out.Err? then step
        else Step(Ok(prev.out.value + step.out.value), step.eps)
  }

  /** A failure is final: nothing processed after it changes the result. */
  lemma {:induction false} RunErrorIsFinal(cfg: Config, chain: Chain, xs: seq<Pair>, ys: seq<Pair>, eps: EpsTable)
    requires Run(cfg, chain, xs, eps).out.Err?
    ensures Run(cfg, chain, xs + ys, eps) == Run(cfg, chain, xs, eps)
    decreases |ys|
  {
    if |ys| == 0 {
      assert xs + ys == xs;
    } else {
      var ys' := ys[..|ys| - 1];
      assert (xs + ys)[..|xs + ys| - 1] == xs + ys';
      RunErrorIsFinal(cfg, chain, xs, ys', eps);
    }
  }

  /** A failing reason makes the whole batch fail with its error: no partial
      `matches` list is returned. */
  lemma FailingReasonFailsBatch(cfg: Config, chain: Chain, xs: seq<Pair>, p: Pair, ys: seq<Pair>, eps: EpsTable)
    requires Run(cfg, chain, xs, eps).out.Ok?
    requires EvalReason(cfg, chain, Run(cfg, chain, xs, eps).eps, p.hash, p.reason).out.Err?
    ensures Run(cfg, chain, xs + [p] + ys, eps).out ==
      EvalReason(cfg, chain, Run(cfg, chain, xs, eps).eps, p.hash, p.reason).out
  {
    assert (xs + [p])[..|xs + [p]| - 1] == xs;
    RunErrorIsFinal(cfg, chain, xs + [p], ys, eps);
  }

  /** `matches` is append-only: the matches of a prefix of the batch are a
      prefix of the matches of the whole batch. */
  lemma {:induction false} RunAppendOnly(cfg: Config, chain: Chain, xs: seq<Pair>, ys: seq<Pair>, eps: EpsTable)
    requires Run(cfg, chain, xs + ys, eps).out.Ok?
    ensures Run(cfg, chain, xs, eps).out.Ok?
    ensures Run(cfg, chain, xs, eps).out.value <= Run(cfg, chain, xs + ys, eps).out.value
    decreases |ys|
  {
    if |ys| == 0 {
      assert xs + ys == xs;
    } else {
      var ys' := ys[..|ys| - 1];
      assert (xs + ys)[..|xs + ys| - 1] == xs + ys';
      RunAppendOnly(cfg, chain, xs, ys', eps);
    }
  }

  /** A reason with none of the eight signatures leaves the batch as it was. */
  lemma UnknownReasonSkipped(cfg: Config, chain: Chain, xs: seq<Pair>, p: Pair, eps: EpsTable)
    requires !IsKnownSignature(p.reason.signature)
    ensures Run(cfg, chain, xs + [p], eps) == Run(cfg, chain, xs, eps)
  {
    assert (xs + [p])[..|xs + [p]| - 1] == xs;
    var prev := Run(cfg, chain, xs, eps);
    EvalReasonRoutes(cfg, chain, prev.eps, p.hash, p.reason);
    if prev.out.Ok? {
      assert prev.out.value + [] == prev.out.value;
    }
  }

  /** Every returned match carries the hash of a pair of the batch and the
      type that pair's signature selects. */
  lemma {:induction false} RunTagged(cfg: Config, chain: Chain, pairs: seq<Pair>, eps: EpsTable)
    ensures var r := Run(cfg, chain, pairs, eps);
      r.out.Ok? ==> forall m :: m in r.out.value ==>
        exists p :: p in pairs && m.hash == p.hash && m.metadata.matchType == ExpectedType(p.reason.signature)
    decreases |pairs|
  {
    if |pairs| > 0 {
      var init := pairs[..|pairs| - 1];
      var p := pairs[|pairs| - 1];
      RunTagged(cfg, chain, init, eps);
      var prev := Run(cfg, chain, init, eps);
      EvalReasonTagged(cfg, chain, prev.eps, p.hash, p.reason);
      assert forall q :: q in init ==> q in pairs;
    }
  }

  /** The handler's result on a batch of events. */
  function HandlerResult(cfg: Config, chain: Chain, events: seq<Event>, eps: EpsTable): (r: Step)
    ensures forall k :: k in eps ==> k in r.eps
    ensures (forall e, reason :: e in events && reason in e.matchReasons ==> !IsPriceUpdate(reason.signature))
      ==> r.eps == eps
  {
    NoPriceUpdatePairs(events);
    Run(cfg, chain, Pairs(events), eps)
  }

  /** A batch none of whose reasons is a price update visits no price-update pair. */
  lemma NoPriceUpdatePairs(events: seq<Event>)
    ensures (forall e, reason :: e in events && reason in e.matchReasons ==> !IsPriceUpdate(reason.signature))
      ==> forall p :: p in Pairs(events) ==> !IsPriceUpdate(p.reason.signature)
  {
    forall p | p in Pairs(events)
      ensures exists e :: e in events && p.hash == e.hash && p.reason in e.matchReasons
    {
      PairsFromEvents(events, p);
    }
  }

  /** Every match the handler returns carries the hash of one of the events
      and the type selected by the signature of one of that event's reasons. */
  lemma HandlerMatchesTagged(cfg: Config, chain: Chain, events: seq<Event>, eps: EpsTable)
    ensures var r := HandlerResult(cfg, chain, events, eps);
      r.out.Ok? ==> forall m :: m in r.out.value ==>
        exists e, reason :: e in events && reason in e.matchReasons && m.hash == e.hash &&
                            m.metadata.matchType == ExpectedType(reason.signature)
  {
    var r := HandlerResult(cfg, chain, events, eps);
    RunTagged(cfg, chain, Pairs(events), eps);
    if r.out.Ok? {
      forall m | m in r.out.value
        ensures exists e, reason :: e in events && reason in e.matchReasons && m.hash == e.hash &&
                                    m.metadata.matchType == ExpectedType(reason.signature)
      {
        var p :| p in Pairs(events) && m.hash == p.hash && m.metadata.matchType == ExpectedType(p.reason.signature);
        PairsFromEvents(events, p);
      }
    }
  }

  /** Processing events one after another is processing their concatenation:
      each event's matches follow those of the events before it. */
  lemma HandlerAppendOnly(cfg: Config, chain: Chain, a: seq<Event>, b: seq<Event>, eps: EpsTable)
    requires HandlerResult(cfg, chain, a + b, eps).out.Ok?
    ensures HandlerResult(cfg, chain, a, eps).out.Ok?
    ensures HandlerResult(cfg, chain, a, eps).out.value <= HandlerResult(cfg, chain, a + b, eps).out.value
  {
    PairsAppend(a, b);
    RunAppendOnly(cfg, chain, Pairs(a), Pairs(b), eps);
  }

  lemma PairsOfPrefix(events: seq<Event>, i: nat)
    requires i < |events|
    ensures Pairs(events[..i + 1]) == Pairs(events[..i]) + PairsOf(events[i])
  {
    assert events[..i + 1][..i] == events[..i];
  }

  /** Processing one more pair after an unfailed prefix. */
  lemma RunSnoc(cfg: Config, chain: Chain, xs: seq<Pair>, p: Pair, eps: EpsTable)
    requires Run(cfg, chain, xs, eps).out.Ok?
    ensures var prev := Run(cfg, chain, xs, eps);
      var step := EvalReason(cfg, chain, prev.eps, p.hash, p.reason);
      Run(cfg, chain, xs + [p], eps) ==
        if step.out.Err? then step else Step(Ok(prev.out.value + step.out.value), step.eps)
  {
    assert (xs + [p])[..|xs + [p]| - 1] == xs;
  }

  /** One more reason of an event, as the inner loop of the handler takes it:
      its success extends the run, its failure is the result of the whole
      event. */
  lemma ReasonExtendsRun(cfg: Config, chain: Chain, done: seq<Pair>, evt: Event, j: nat, eps0: EpsTable,
                         items: seq<Match>, eps: EpsTable)
    requires j < |evt.matchReasons|
    requires Run(cfg, chain, done + PairsOf(evt)[..j], eps0) == Step(Ok(items), eps)
    ensures var step := EvalReason(cfg, chain, eps, evt.hash, evt.matchReasons[j]);
      && (step.out.Ok? ==> Run(cfg, chain, done + PairsOf(evt)[..j + 1], eps0) == Step(Ok(items + step.out.value), step.eps))
      && (step.out.Err? ==> Run(cfg, chain, done + PairsOf(evt), eps0) == step)
  {
    var prefix := done + PairsOf(evt)[..j];
    TakeSnoc(done, PairsOf(evt), j);
    RunSnoc(cfg, chain, prefix, Pair(evt.hash, evt.matchReasons[j]), eps0);
    var step := EvalReason(cfg, chain, eps, evt.hash, evt.matchReasons[j]);
    if step.out.Err? {
      RunErrorIsFinal(cfg, chain, done + PairsOf(evt)[..j + 1], PairsOf(evt)[j + 1..], eps0);
      SplitAt(done, PairsOf(evt), j + 1);
    }
  }

  /** A failure while handling the i-th event is the handler's result. */
  lemma EventFailureEndsHandler(cfg: Config, chain: Chain, events: seq<Event>, i: nat, eps: EpsTable)
    requires i < |events|
    requires Run(cfg, chain, Pairs(events[..i + 1]), eps).out.Err?
    ensures HandlerResult(cfg, chain, events, eps) == Run(cfg, chain, Pairs(events[..i + 1]), eps)
  {
    assert events == events[..i + 1] + events[i + 1..];
    PairsAppend(events[..i + 1], events[i + 1..]);
    RunErrorIsFinal(cfg, chain, Pairs(events[..i + 1]), Pairs(events[i + 1..]), eps);
  }

  /** The body of the inner loop of handler: the three guarded `try` blocks. */
  method HandleReason(cfg: Config, chain: Chain, store: KeyValueStore, evtHash: Hash, reason: Reason,
                      matches: MatchBuffer)
    returns (outcome: Outcome)
    modifies store, matches
    ensures var r := EvalReason(cfg, chain, old(store.eps), evtHash, reason);
      && outcome == OutcomeOf(r.out)
      && store.eps == r.eps
      && matches.items == old(matches.items) + Contribution(r.out)
  {
    var reasonSig := reason.signature;
    EvalReasonRoutes(cfg, chain, store.eps, evtHash, reason);
    if IsWithdrawOrDeposit(reasonSig) {
      outcome := HandleWithdrawOrDeposit(cfg, chain, store, ReasonType(reasonSig), reason, evtHash, matches);
      if outcome.Fail? {
        return;
      }
    }
    ghost var afterFirst := matches.items;
    if IsPriceUpdate(reasonSig) {
      outcome := HandlePriceUpdate(cfg, chain, store, reason, evtHash, matches);
      if outcome.Fail? {
        return;
      }
    }
    ghost var afterSecond := matches.items;
    if IsPoolAction(reasonSig) {
      outcome := HandlePoolAction(cfg, chain, reason, evtHash, matches);
      if outcome.Fail? {
        return;
      }
    }
    assert matches.items == old(matches.items) + (afterFirst[|old(matches.items)|..]
      + afterSecond[|afterFirst|..] + matches.items[|afterSecond|..]);
    return Pass;
  }

  /** The inner loop of handler, over one event's match reasons, continuing
      the batch `done` processed so far from store contents `eps0`. */
  method HandleEvent(cfg: Config, chain: Chain, store: KeyValueStore, evt: Event, matches: MatchBuffer,
                     ghost done: seq<Pair>, ghost eps0: EpsTable)
    returns (outcome: Outcome)
    requires Run(cfg, chain, done, eps0) == Step(Ok(matches.items), store.eps)
    modifies store, matches
    ensures var r := Run(cfg, chain, done + PairsOf(evt), eps0);
      && outcome == OutcomeOf(r.out)
      && store.eps == r.eps
      && (r.out.Ok? ==> matches.items == r.out.value)
  {
    assert done + PairsOf(evt)[..0] == done;
    for j := 0 to |evt.matchReasons|
      invariant Run(cfg, chain, done + PairsOf(evt)[..j], eps0) == Step(Ok(matches.items), store.eps)
    {
      ghost var items := matches.items;
      ghost var eps := store.eps;
      outcome := HandleReason(cfg, chain, store, evt.hash, evt.matchReasons[j], matches);
      ReasonExtendsRun(cfg, chain, done, evt, j, eps0, items, eps);
      if outcome.Fail? {
        return;
      }
    }
    assert PairsOf(evt)[..|evt.matchReasons|] == PairsOf(evt);
    return Pass;
  }

  /** handler: the loop over events with a fresh `matches` buffer; a failure
      is rethrown at once. */
  method Handler(cfg: Config, chain: Chain, events: seq<Event>, store: KeyValueStore)
    returns (result: Result<seq<Match>>)
    modifies store
    ensures var r := HandlerResult(cfg, chain, events, old(store.eps));
      result == r.out && store.eps == r.eps
  {
    var matches := new MatchBuffer();
    ghost var eps0 := store.eps;
    for i := 0 to |events|
      invariant Run(cfg, chain, Pairs(events[..i]), eps0) == Step(Ok(matches.items), store.eps)
    {
      PairsOfPrefix(events, i);
      var outcome := HandleEvent(cfg, chain, store, events[i], matches, Pairs(events[..i]), eps0);
      if outcome.Fail? {
        EventFailureEndsHandler(cfg, chain, events, i, eps0);
        return Err(outcome.error);
      }
    }
    assert events[..|events|] == events;
    return Ok(matches.items);
  }
}
