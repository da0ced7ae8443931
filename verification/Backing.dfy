/** End to end: the ckSOL minted on the ledger and not burned is backed by the lamports the
    minter holds, in every run of minter and ledger. */
module Backing {
  import opened Prelude
  import opened Solana
  import opened Sweeps
  import opened DepositBook
  import opened DepositLifecycle
  import opened Minter
  import opened WithdrawalRecords
  import opened MinterRuns
  import opened Solvency
  import opened MintProtocol

  /** What each deposit was minted for, or may be minted for. */
  ghost function AllClaims(b: Book): map<DepositId, Lamport> {
    MintedAmounts(b.minted) + (PendingAmounts(b.pendingMints) + UnresolvedAmounts(b.quarantined))
  }

  /** A deposit has at most one claim. */
  ghost predicate ClaimsApart(b: Book) {
    b.minted.Keys !! b.pendingMints.Keys && b.minted.Keys !! b.quarantined.Keys && b.pendingMints.Keys !! b.quarantined.Keys
  }

  lemma StagesApart(b: Book, t: Trace)
    requires Located(b, t)
    ensures ClaimsApart(b)
  {
    hide HeldIds;
    forall id ensures !(id in b.minted.Keys && id in b.pendingMints.Keys)
                      && !(id in b.minted.Keys && id in b.quarantined.Keys)
                      && !(id in b.pendingMints.Keys && id in b.quarantined.Keys) {}
  }

  lemma ClaimsTotal(b: Book)
    requires ClaimsApart(b)
    ensures Total(AllClaims(b)) == Claims(b)
  {
    TotalUnion(PendingAmounts(b.pendingMints), UnresolvedAmounts(b.quarantined));
    TotalUnion(MintedAmounts(b.minted), PendingAmounts(b.pendingMints) + UnresolvedAmounts(b.quarantined));
  }

  function BlockAmounts(blocks: seq<MintArg>): seq<Lamport> {
    seq(|blocks|, j requires 0 <= j < |blocks| => blocks[j].amount)
  }

  /** What a deposit was sent for is its claim. */
  lemma SentIsClaimed(b: Book, blocks: seq<MintArg>, id: DepositId, arg: MintArg)
    requires SentAgrees(b, blocks, id, arg) && ClaimsApart(b)
    ensures id in AllClaims(b) && AllClaims(b)[id] == arg.amount
  {
    hide MintMemo;
  }

  lemma OwnersClaim(x: MintProtocol.World, j: nat)
    requires MintInv(x) && ClaimsApart(x.s.book) && j < |x.blocks|
    ensures x.owners[j] in AllClaims(x.s.book) && AllClaims(x.s.book)[x.owners[j]] == x.blocks[j].amount
  {
    hide Inv, SentAgrees, AllClaims, ClaimsApart;
    SentIsClaimed(x.s.book, x.blocks, x.owners[j], x.sent[x.owners[j]]);
  }

  /** The ledger never holds more mints than the minter has recorded claims for. */
  lemma LedgerWithinClaims(x: MintProtocol.World)
    requires MintInv(x)
    ensures Sum(BlockAmounts(x.blocks)) <= Claims(x.s.book)
  {
    hide Inv, Claims, AllClaims, ClaimsApart, AllSentAgree, RoundAgrees, CallAgrees, BlockAmounts, Sum;
    WorldStagesApart(x);
    ClaimsTotal(x.s.book);
    forall j | 0 <= j < |x.owners|
      ensures x.owners[j] in AllClaims(x.s.book) && AllClaims(x.s.book)[x.owners[j]] == x.blocks[j].amount
    {
      OwnersClaim(x, j);
    }
    ListedWithin(AllClaims(x.s.book), x.owners, x.blocks);
  }

  lemma WorldStagesApart(x: MintProtocol.World)
    requires MintInv(x)
    ensures ClaimsApart(x.s.book)
  {
    hide AllSentAgree, BlocksAgree, RoundAgrees, CallAgrees, Buckets, Listed, TxsAgree, NoncesAgree, Keyed, Numbered, Records,
         InFlightAgree, LatestAgree, AllPlans, Located, ClaimsApart;
    StagesApart(x.s.book, x.h.deposits);
  }

  /** Blocks of distinct deposits add up to no more than all claims. */
  lemma ListedWithin(claims: map<DepositId, Lamport>, owners: seq<DepositId>, blocks: seq<MintArg>)
    requires |owners| == |blocks| && Distinct(owners)
    requires forall j | 0 <= j < |owners| :: owners[j] in claims && claims[owners[j]] == blocks[j].amount
    ensures Sum(BlockAmounts(blocks)) <= Total(claims)
  {
    hide Sum, Total;
    var owned := map id | id in claims && id in Elems(owners) :: claims[id];
    forall id | id in Elems(owners) ensures id in owned.Keys {
      assert id in owners;
    }
    assert owned.Keys == Elems(owners);
    SumListing(owners, owned);
    assert BlockAmounts(blocks) == seq(|owners|, i requires 0 <= i < |owners| =>
      assert owners[i] in Elems(owners); owned[owners[i]]);
    TotalSplit(claims, Elems(owners));
  }

  // ---------- along a run ----------

  /** The event a step records. */
  ghost function TallyStep(t: Tally, step: MintProtocol.Step): Tally {
    if step.Other? then Tallied(t, step.event) else t
  }

  ghost function TallyAt(steps: seq<MintProtocol.Step>, n: nat): Tally
    requires n <= |steps|
  {
    if n == 0 then Tally(0, 0) else TallyStep(TallyAt(steps, n - 1), steps[n - 1])
  }

  lemma StepAccounts(x: MintProtocol.World, step: MintProtocol.Step, x': MintProtocol.World, t: Tally)
    requires MintInv(x) && Takes(x, step, x') && Accounted(x.s, x.h, t)
    ensures Accounted(x'.s, x'.h, TallyStep(t, step))
  {
    hide Inv, AllSentAgree, BlocksAgree, Accounted, Apply, CanApply, MinterRuns.After;
    match step
    case Other(e, now) => EventKeepsAccounts(x.s, x.h, t, e, now);
    case Quarantine(id, now) => EventKeepsAccounts(x.s, x.h, t, QuarantinedPendingMint(id), now);
    case Answer(reply, now) =>
      var e := RecordedFor(x.call.value, reply);
      if e.Some? {
        EventKeepsAccounts(x.s, x.h, t, e.value, now);
      }
    case _ =>
  }

  lemma {:induction false} RunAccounts(run: seq<MintProtocol.World>, steps: seq<MintProtocol.Step>, n: nat)
    requires MintRun(run, steps) && n < |run|
    ensures Accounted(run[n].s, run[n].h, TallyAt(steps, n))
  {
    hide MintInv, Takes, Accounted, MintProtocol.Starts;
    if n == 0 {
      var a :| MintProtocol.Starts(run[0], a);
      StartAccounts(run[0], a);
    } else {
      RunAccounts(run, steps, n - 1);
      RunKeeps(run, steps, n - 1);
      StepAccounts(run[n - 1], steps[n - 1], run[n], TallyAt(steps, n - 1));
    }
  }

  lemma StartAccounts(x: MintProtocol.World, a: InitArgs)
    requires MintProtocol.Starts(x, a)
    ensures Accounted(x.s, x.h, Tally(0, 0))
  {
    var log := [LoggedEvent(Init(a), 0)];
    InitialAccounts(log);
    assert TallyOf(log[..0]) == Tally(0, 0);
  }

  /** The lamports the minter holds cover every ckSOL on the ledger, the burns still waiting for a
      transaction and the collected fees: what was minted less what was burned is backed. */
  lemma LedgerIsBacked(run: seq<MintProtocol.World>, steps: seq<MintProtocol.Step>, n: nat)
    requires MintRun(run, steps) && n < |run| == |steps| + 1 && AllKeepFee(run[n].h.withdrawals)
    ensures var s, w := run[n].s, run[n].h.withdrawals;
            s.balance + Total(Burned(w)) >= Sum(BlockAmounts(run[n].blocks)) + Total(BurnedPending(w)) + s.collectedFees
  {
    hide MintRun, MintInv, AllKeepFee, Total, Transferred, Burned, BurnedServed, BurnedPending, Claims, Sum, BlockAmounts;
    RunKeeps(run, steps, n);
    RunAccounts(run, steps, n);
    LedgerWithinClaims(run[n]);
    BurnsCover(run[n].h.withdrawals, TallyAt(steps, n).created);
  }
}
