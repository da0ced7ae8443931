/** Grouping pending withdrawals into batches the balance can pay for
    (minter/src/state/mod.rs, `WithdrawalBatches`). */
module Batches {
  import opened Prelude
  import opened Solana
  import opened ScanSchedule
  import opened Minter

  function AmountsOf(requests: seq<WithdrawalRequest>): seq<Lamport> {
    seq(|requests|, i requires 0 <= i < |requests| => requests[i].amountToTransfer)
  }

  /** What a batch costs: its transfers and one transaction fee. */
  function BatchCost(batch: seq<WithdrawalRequest>): Lamport {
    Sum(AmountsOf(batch)) + BATCH_WITHDRAWAL_TX_FEE
  }

  // ---------- the specification ----------

  /** The number of transactions that n requests take. */
  function TxCount(n: nat): nat {
    (n + MAX_WITHDRAWALS_PER_NONCE_TX - 1) / MAX_WITHDRAWALS_PER_NONCE_TX
  }

  /** What the first n requests cost. */
  function PrefixCost(requests: seq<WithdrawalRequest>, n: nat): Lamport
    requires n <= |requests|
  {
    Sum(AmountsOf(requests[..n])) + BATCH_WITHDRAWAL_TX_FEE * TxCount(n)
  }

  /** The n oldest requests are affordable, and no longer prefix is. */
  ghost predicate LongestAffordable(requests: seq<WithdrawalRequest>, available: Lamport, n: nat) {
    && n <= |requests| && PrefixCost(requests, n) <= available
    && forall m | 0 <= m <= |requests| && PrefixCost(requests, m) <= available :: m <= n
  }

  /** The cost of one more request: its amount, and a fee when it opens a transaction. */
  function NextCost(requests: seq<WithdrawalRequest>, n: nat): Lamport
    requires n < |requests|
  {
    requests[n].amountToTransfer + if n % MAX_WITHDRAWALS_PER_NONCE_TX == 0 then BATCH_WITHDRAWAL_TX_FEE else 0
  }

  lemma AmountsAppend(requests: seq<WithdrawalRequest>, n: nat)
    requires n < |requests|
    ensures Sum(AmountsOf(requests[..n + 1])) == Sum(AmountsOf(requests[..n])) + requests[n].amountToTransfer
  {
    assert AmountsOf(requests[..n + 1])[..n] == AmountsOf(requests[..n]);
  }

  lemma PrefixCostStep(requests: seq<WithdrawalRequest>, n: nat)
    requires n < |requests|
    ensures PrefixCost(requests, n + 1) == PrefixCost(requests, n) + NextCost(requests, n)
  {
    AmountsAppend(requests, n);
    assert TxCount(n + 1) == TxCount(n) + if n % MAX_WITHDRAWALS_PER_NONCE_TX == 0 then 1 else 0;
  }

  lemma {:induction false} PrefixCostGrows(requests: seq<WithdrawalRequest>, n: nat, m: nat)
    requires n <= m <= |requests|
    ensures PrefixCost(requests, n) <= PrefixCost(requests, m)
  {
    if n < m {
      hide PrefixCost;
      PrefixCostGrows(requests, n, m - 1);
      PrefixCostStep(requests, m - 1);
    }
  }

  /** Stopping at the first request that does not fit gives the longest affordable prefix. */
  lemma FirstMissIsLongest(requests: seq<WithdrawalRequest>, available: Lamport, n: nat)
    requires n <= |requests| && PrefixCost(requests, n) <= available
    requires n == |requests| || PrefixCost(requests, n) + NextCost(requests, n) > available
    ensures LongestAffordable(requests, available, n)
  {
    forall m | 0 <= m <= |requests| && PrefixCost(requests, m) <= available ensures m <= n {
      if m > n {
        PrefixCostStep(requests, n);
        PrefixCostGrows(requests, n + 1, m);
      }
    }
  }

  lemma LongestUnique(requests: seq<WithdrawalRequest>, available: Lamport, n: nat, m: nat)
    requires LongestAffordable(requests, available, n) && LongestAffordable(requests, available, m)
    ensures n == m
  {}

  // ---------- batch by batch ----------

  class WithdrawalBatches {
    const requests: seq<WithdrawalRequest>
    var next: nat
    var available: Lamport

    /** Lamports are 64-bit numbers. */
    ghost predicate Valid()
      reads this
    {
      next <= |requests| && available <= U64_MAX
    }

    /** Holds back the rent exemption threshold. */
    constructor (requests: seq<WithdrawalRequest>, balance: Lamport)
      requires balance <= U64_MAX
      ensures Valid() && this.requests == requests && next == 0
      ensures available == SaturatingSub(balance, RENT_EXEMPTION_THRESHOLD)
    {
      this.requests, next, available := requests, 0, SaturatingSub(balance, RENT_EXEMPTION_THRESHOLD);
    }

    /** The next batch: as many of the oldest requests left as fit into a transaction and the
        balance left can pay for. */
    method Next() returns (r: Option<seq<WithdrawalRequest>>)
      requires Valid()
      modifies this
      ensures Valid() && next >= old(next)
      ensures r.Some? ==> && r.value == requests[old(next)..next]
                          && 1 <= |r.value| <= MAX_WITHDRAWALS_PER_NONCE_TX
                          && old(available) == available + BatchCost(r.value)
      ensures r.Some? ==>
                |r.value| == MAX_WITHDRAWALS_PER_NONCE_TX || next == |requests| || requests[next].amountToTransfer > available
      ensures r.None? ==> && next == old(next) && available == old(available)
                          && (next == |requests| ||
                              requests[next].amountToTransfer + BATCH_WITHDRAWAL_TX_FEE > available)
    {
      var batch: seq<WithdrawalRequest> := [];
      while |batch| < MAX_WITHDRAWALS_PER_NONCE_TX
        invariant Valid() && next == old(next) + |batch| && |batch| <= MAX_WITHDRAWALS_PER_NONCE_TX
        invariant batch == requests[old(next)..next]
        invariant old(available) == available + if batch == [] then 0 else BatchCost(batch)
        decreases MAX_WITHDRAWALS_PER_NONCE_TX - |batch|
      {
        var reservedFee := if batch == [] then BATCH_WITHDRAWAL_TX_FEE else 0;
        if next == |requests| {
          break;
        }
        // A sum beyond 64 bits, or a cost beyond the balance left, ends the batch.
        var cost := requests[next].amountToTransfer + reservedFee;
        if cost > U64_MAX || cost > available {
          break;
        }
        BatchGrows(batch, requests[next]);
        available := available - cost;
        batch := batch + [requests[next]];
        next := next + 1;
      }
      r := if batch == [] then None else Some(batch);
    }
  }

  lemma BatchGrows(batch: seq<WithdrawalRequest>, r: WithdrawalRequest)
    ensures BatchCost(batch + [r]) ==
            (if batch == [] then BATCH_WITHDRAWAL_TX_FEE else BatchCost(batch)) + r.amountToTransfer
  {
    assert (batch + [r])[..|batch|] == batch;
    AmountsAppend(batch + [r], |batch|);
    assert (batch + [r])[..|batch| + 1] == batch + [r];
  }

  // ---------- all batches ----------

  function TotalCost(batches: seq<seq<WithdrawalRequest>>): Lamport {
    if batches == [] then 0 else TotalCost(batches[..|batches| - 1]) + BatchCost(batches[|batches| - 1])
  }

  /** Non-empty batches of at most ten requests, all but the last one full. */
  ghost predicate WellCut(batches: seq<seq<WithdrawalRequest>>) {
    && (forall i | 0 <= i < |batches| :: 1 <= |batches[i]| <= MAX_WITHDRAWALS_PER_NONCE_TX)
    && (forall i | 0 <= i < |batches| - 1 :: |batches[i]| == MAX_WITHDRAWALS_PER_NONCE_TX)
  }

  lemma BatchAppended(batches: seq<seq<WithdrawalRequest>>, batch: seq<WithdrawalRequest>)
    ensures Flatten(batches + [batch]) == Flatten(batches) + batch
    ensures TotalCost(batches + [batch]) == TotalCost(batches) + BatchCost(batch)
  {
    FlattenAppend(batches, batch);
    assert (batches + [batch])[..|batches|] == batches;
  }

  lemma SumOfConcat(a: seq<WithdrawalRequest>, b: seq<WithdrawalRequest>)
    ensures Sum(AmountsOf(a + b)) == Sum(AmountsOf(a)) + Sum(AmountsOf(b))
  {
    assert AmountsOf(a + b) == AmountsOf(a) + AmountsOf(b);
    SumConcat(AmountsOf(a), AmountsOf(b));
  }

  /** The cost of full batches is the cost of the prefix they cover. */
  lemma NextBatchCost(requests: seq<WithdrawalRequest>, n: nat, m: nat)
    requires n < m <= |requests| && m - n <= MAX_WITHDRAWALS_PER_NONCE_TX && n % MAX_WITHDRAWALS_PER_NONCE_TX == 0
    ensures PrefixCost(requests, m) == PrefixCost(requests, n) + BatchCost(requests[n..m])
  {
    assert requests[..m] == requests[..n] + requests[n..m];
    SumOfConcat(requests[..n], requests[n..m]);
    assert TxCount(m) == TxCount(n) + 1;
  }

  /** The next request does not fit, even into a transaction already open. */
  ghost predicate MustStop(requests: seq<WithdrawalRequest>, n: nat, available: Lamport) {
    n <= |requests| && (n == |requests| || requests[n].amountToTransfer > available)
  }

  /** The batches yielded so far cover the first n requests and cost what was given up. */
  ghost predicate Yielded(requests: seq<WithdrawalRequest>, batches: seq<seq<WithdrawalRequest>>, n: nat,
                          start: Lamport, available: Lamport) {
    && n <= |requests| && Flatten(batches) == requests[..n] && WellCut(batches)
    && TotalCost(batches) == PrefixCost(requests, n) && PrefixCost(requests, n) + available == start
  }

  ghost predicate AllFull(batches: seq<seq<WithdrawalRequest>>) {
    forall i | 0 <= i < |batches| :: |batches[i]| == MAX_WITHDRAWALS_PER_NONCE_TX
  }

  /** Either every batch is full, so that the next one starts a transaction, or nothing fits. */
  ghost predicate Ready(requests: seq<WithdrawalRequest>, batches: seq<seq<WithdrawalRequest>>, n: nat, available: Lamport) {
    (AllFull(batches) && n % MAX_WITHDRAWALS_PER_NONCE_TX == 0) || MustStop(requests, n, available)
  }

  lemma CostCoversFirst(batch: seq<WithdrawalRequest>)
    requires batch != []
    ensures BatchCost(batch) >= batch[0].amountToTransfer + BATCH_WITHDRAWAL_TX_FEE
  {
    assert batch == [batch[0]] + batch[1..];
    SumOfConcat([batch[0]], batch[1..]);
    AmountsAppend([batch[0]], 0);
    assert [batch[0]][..1] == [batch[0]];
  }

  lemma YieldNext(requests: seq<WithdrawalRequest>, batches: seq<seq<WithdrawalRequest>>, n: nat, m: nat, start: Lamport,
                  available: Lamport, left: Lamport)
    requires Yielded(requests, batches, n, start, available) && Ready(requests, batches, n, available)
    requires n < m <= |requests| && m - n <= MAX_WITHDRAWALS_PER_NONCE_TX
    requires available == left + BatchCost(requests[n..m])
    requires m - n == MAX_WITHDRAWALS_PER_NONCE_TX || MustStop(requests, m, left)
    ensures Yielded(requests, batches + [requests[n..m]], m, start, left)
    ensures Ready(requests, batches + [requests[n..m]], m, left)
  {
    CostCoversFirst(requests[n..m]);
    assert AllFull(batches) && n % MAX_WITHDRAWALS_PER_NONCE_TX == 0;
    hide BatchCost, PrefixCost, TotalCost;
    NextBatchCost(requests, n, m);
    BatchAppended(batches, requests[n..m]);
    assert requests[..n] + requests[n..m] == requests[..m];
  }

  lemma NoneFits(requests: seq<WithdrawalRequest>, batches: seq<seq<WithdrawalRequest>>, n: nat, start: Lamport, available: Lamport)
    requires Yielded(requests, batches, n, start, available) && Ready(requests, batches, n, available)
    requires n == |requests| || requests[n].amountToTransfer + BATCH_WITHDRAWAL_TX_FEE > available
    ensures LongestAffordable(requests, start, n)
  {
    hide PrefixCost, TotalCost, Flatten;
    FirstMissIsLongest(requests, start, n);
  }

  /** The yielded batches concatenate to the longest affordable prefix of the pending requests,
      every batch but the last one full, and cost what the balance gives up. */
  method CollectBatches(requests: seq<WithdrawalRequest>, balance: Lamport) returns (batches: seq<seq<WithdrawalRequest>>)
    requires balance <= U64_MAX
    ensures WellCut(batches) && Flatten(batches) <= requests
    ensures LongestAffordable(requests, SaturatingSub(balance, RENT_EXEMPTION_THRESHOLD), |Flatten(batches)|)
    ensures batches != [] ==> RENT_EXEMPTION_THRESHOLD + TotalCost(batches) <= balance
  {
    hide PrefixCost, TotalCost, BatchCost, Flatten, AllFull, Ready, Yielded, LongestAffordable, WellCut;
    var cursor := new WithdrawalBatches(requests, balance);
    ghost var start := cursor.available;
    batches := [];
    NothingYielded(requests, start);
    var done := false;
    while !done
      invariant cursor.Valid() && cursor.requests == requests && fresh(cursor)
      invariant Yielded(requests, batches, cursor.next, start, cursor.available)
      invariant Ready(requests, batches, cursor.next, cursor.available)
      invariant done ==> LongestAffordable(requests, start, cursor.next)
      decreases !done, |requests| - cursor.next
    {
      ghost var n, available := cursor.next, cursor.available;
      var r := cursor.Next();
      match r {
        case None =>
          NoneFits(requests, batches, n, start, available);
          done := true;
        case Some(batch) =>
          YieldNext(requests, batches, n, cursor.next, start, available, cursor.available);
          batches := batches + [batch];
      }
    }
    YieldedCosts(requests, batches, cursor.next, start, cursor.available);
  }

  lemma NothingYielded(requests: seq<WithdrawalRequest>, start: Lamport)
    ensures Yielded(requests, [], 0, start, start) && Ready(requests, [], 0, start)
  {}

  lemma YieldedCosts(requests: seq<WithdrawalRequest>, batches: seq<seq<WithdrawalRequest>>, n: nat, start: Lamport,
                     available: Lamport)
    requires Yielded(requests, batches, n, start, available)
    ensures WellCut(batches) && Flatten(batches) <= requests && |Flatten(batches)| == n && TotalCost(batches) <= start
    ensures batches != [] ==> TotalCost(batches) > 0
  {}
}
