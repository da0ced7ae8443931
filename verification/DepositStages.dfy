/** The deposits of the minter as an object whose methods move entries between the stage maps
    in place (minter/src/state/deposits/mod.rs), proved to make the transitions of DepositBook. */
module DepositStages {
  import opened Prelude
  import opened Solana
  import opened Sweeps
  import opened Settlement
  import opened ScanSchedule
  import opened DepositBook

  // ---------- part of a batch ----------

  /** The accounts of the deposits already handled by a loop. */
  ghost function AccountsIn(m: Batch, done: set<DepositId>): set<Account> {
    set id | id in m && id in done :: m[id].account
  }

  lemma NoAccounts(m: Batch, ids: seq<DepositId>)
    ensures AccountsIn(m, Elems(ids[..0])) == {}
  {}

  lemma AllAccounts(m: Batch)
    ensures AccountsIn(m, m.Keys) == AccountsOf(m)
  {}

  lemma AccountsGrow(m: Batch, done: set<DepositId>, id: DepositId)
    requires id in m
    ensures AccountsIn(m, done + {id}) == AccountsIn(m, done) + {m[id].account}
  {
    forall a | a in AccountsIn(m, done) + {m[id].account} ensures a in AccountsIn(m, done + {id}) {
      if a in AccountsIn(m, done) {
        var x :| x in m && x in done && m[x].account == a;
        assert x in done + {id};
      } else {
        assert m[id].account == a;
      }
    }
  }

  /** The deposits handled so far are dropped, the others are as they were. */
  ghost predicate DroppedSoFar(before: map<DepositId, SweptDeposit>, after: map<DepositId, SweptDeposit>, m: Batch,
                               sig: Signature, done: set<DepositId>) {
    && after.Keys == before.Keys + done
    && (forall id | id in done :: id in m && after[id] == SweptDeposit(m[id], sig))
    && (forall id | id in before && id !in done :: after[id] == before[id])
  }

  lemma DropOne(before: map<DepositId, SweptDeposit>, after: map<DepositId, SweptDeposit>, m: Batch, sig: Signature,
                done: set<DepositId>, id: DepositId)
    requires DroppedSoFar(before, after, m, sig, done) && id in m
    ensures DroppedSoFar(before, after[id := SweptDeposit(m[id], sig)], m, sig, done + {id})
  {}

  lemma DropAll(before: map<DepositId, SweptDeposit>, after: map<DepositId, SweptDeposit>, m: Batch, sig: Signature)
    requires DroppedSoFar(before, after, m, sig, m.Keys)
    ensures after == before + DroppedOf(m, sig)
  {}

  lemma MinusBoth<K, V>(m: map<K, V>, s: set<K>, x: K)
    ensures m - s - {x} == m - (s + {x})
  {}

  /** A listing of a batch, as far as it was read. */
  lemma ListedSoFar(ids: seq<DepositId>, k: nat)
    requires k < |ids| && Distinct(ids)
    ensures Elems(ids[..k + 1]) == Elems(ids[..k]) + {ids[k]} && ids[k] !in Elems(ids[..k])
  {
    assert ids[..k + 1] == ids[..k] + [ids[k]];
    ElemsAppend(ids[..k], ids[k]);
  }

  lemma BatchOfAppend(list: seq<(DepositId, QueuedDeposit)>, id: DepositId, d: QueuedDeposit)
    ensures BatchOf(list + [(id, d)]) == BatchOf(list)[id := d]
  {
    assert (list + [(id, d)])[..|list|] == list;
  }

  lemma PickedAppend(queued: Batch, ids: seq<DepositId>, k: nat)
    requires k < |ids| && forall id | id in ids :: id in queued
    ensures Picked(queued, ids[..k + 1]) == Picked(queued, ids[..k])[ids[k] := queued[ids[k]]]
  {
    assert ids[..k + 1] == ids[..k] + [ids[k]];
  }

  lemma NoneTaken(queued: Batch, ids: seq<DepositId>)
    ensures queued - Elems(ids[..0]) == queued && BatchOf([]) == Picked(queued, ids[..0])
  {}

  lemma MintMapAppend(mints: seq<CreditedDeposit>, k: nat)
    requires k < |mints|
    ensures MintMap(mints[..k + 1]) == MintMap(mints[..k])[mints[k].depositId := mints[k].amountToMint]
  {
    assert mints[..k + 1][..k] == mints[..k];
  }

  lemma PendingGrows(m: Batch, sig: Signature, mints: seq<CreditedDeposit>, k: nat, now: Timestamp)
    requires k < |mints| && mints[k].depositId in m
    ensures var id := mints[k].depositId;
            PendingOf(m, sig, MintMap(mints[..k + 1]), now) ==
            PendingOf(m, sig, MintMap(mints[..k]), now)[id := PendingMint(SweptDeposit(m[id], sig), mints[k].amountToMint, now)]
  {
    MintMapAppend(mints, k);
    hide MintMap;
  }

  lemma NotYetCredited(mints: seq<CreditedDeposit>, k: nat)
    requires DistinctMints(mints) && k < |mints|
    ensures mints[k].depositId !in MintMap(mints[..k])
  {
    if mints[k].depositId in MintMap(mints[..k]) {
      var i := MintMapFrom(mints[..k], mints[k].depositId);
    }
  }

  /** Every deposit of the batch is the one its account has in flight. */
  ghost predicate AllHold(inFlight: map<Account, DepositId>, m: Batch) {
    forall id | id in m :: m[id].account in inFlight && inFlight[m[id].account] == id
  }

  /** No deposit released so far shares the account of one still to release. */
  lemma StillHeld(inFlight: map<Account, DepositId>, m: Batch, done: set<DepositId>, id: DepositId)
    requires AllHold(inFlight, m) && id in m && id !in done
    ensures m[id].account in inFlight && inFlight[m[id].account] == id && m[id].account !in AccountsIn(m, done)
  {
    forall x | x in m && x in done ensures m[x].account != m[id].account {
      assert inFlight[m[x].account] == x;
    }
  }

  // ---------- the object ----------

  class Deposits {
    var nextId: DepositId
    var queued: Batch
    var swept: map<Signature, Sweep>
    var finalized: map<Signature, Sweep>
    var pendingMints: map<DepositId, PendingMint>
    var minted: map<DepositId, MintedSweep>
    var dropped: map<DepositId, SweptDeposit>
    var quarantined: map<DepositId, QuarantinedDeposit>
    var inFlightIds: map<Account, DepositId>
    var latestIds: map<Account, DepositId>
    var queuedAtById: map<DepositId, Timestamp>
    var watchlist: map<Account, Registration>

    /** The book this object stands for. */
    function Value(): Book
      reads this
    {
      Book(nextId, queued, swept, finalized, pendingMints, minted, dropped, quarantined, inFlightIds, latestIds,
           queuedAtById, watchlist)
    }

    constructor ()
      ensures Value() == EMPTY_BOOK
    {
      nextId := 0;
      queued, swept, finalized, pendingMints := map[], map[], map[], map[];
      minted, dropped, quarantined := map[], map[], map[];
      inFlightIds, latestIds, queuedAtById, watchlist := map[], map[], map[], map[];
    }

    method Queue(id: DepositId, d: QueuedDeposit, now: Timestamp)
      requires CanQueue(Value(), id, d)
      modifies this
      ensures Value() == DepositBook.Queue(old(Value()), id, d, now)
    {
      ReserveAccount(d.account, id);
      queued := queued[id := d];
      queuedAtById := queuedAtById[id := now];
      nextId := nextId + 1;
    }

    /** The account has the deposit in flight and is no longer watched. */
    method ReserveAccount(account: Account, id: DepositId)
      modifies this`inFlightIds, this`latestIds, this`watchlist
      ensures inFlightIds == old(inFlightIds)[account := id] && latestIds == old(latestIds)[account := id]
      ensures watchlist == old(watchlist) - {account}
    {
      inFlightIds := inFlightIds[account := id];
      latestIds := latestIds[account := id];
      watchlist := watchlist - {account};
    }

    /** Takes the deposits out of the queue one by one. */
    method TakeQueued(ids: seq<DepositId>) returns (list: seq<(DepositId, QueuedDeposit)>)
      requires Distinct(ids) && forall id | id in ids :: id in queued
      modifies this`queued
      ensures queued == old(queued) - Elems(ids)
      ensures DistinctIds(list) && BatchOf(list) == Picked(old(queued), ids)
    {
      hide BatchOf, Picked;
      NoneTaken(queued, ids);
      list := [];
      var k := 0;
      while k < |ids|
        invariant 0 <= k == |list| <= |ids|
        invariant forall i | 0 <= i < k :: list[i].0 == ids[i]
        invariant queued == old(queued) - Elems(ids[..k])
        invariant BatchOf(list) == Picked(old(queued), ids[..k])
      {
        ListedSoFar(ids, k);
        PickedAppend(old(queued), ids, k);
        MinusBoth(old(queued), Elems(ids[..k]), ids[k]);
        var deposit := queued[ids[k]];
        BatchOfAppend(list, ids[k], deposit);
        list := list + [(ids[k], deposit)];
        queued := queued - {ids[k]};
        k := k + 1;
      }
      assert ids[..k] == ids;
    }

    method SweepDeposits(ids: seq<DepositId>, minter: Address, message: Message, sig: Signature)
      returns (expectedReceived: Lamport)
      requires CanSweep(Value(), ids, minter, message, sig)
      modifies this
      ensures Value() == SweepQueued(old(Value()), ids, minter, sig)
      ensures expectedReceived == swept[sig].expectedReceived
    {
      var list := TakeQueued(ids);
      var recovered := Recover(list, minter, message);
      expectedReceived := recovered.value.expectedReceived;
      swept := swept[sig := recovered.value];
    }

    method ReleaseInFlight(id: DepositId, account: Account)
      requires account in inFlightIds && inFlightIds[account] == id
      modifies this`inFlightIds
      ensures inFlightIds == old(inFlightIds) - {account}
    {
      inFlightIds := inFlightIds - {account};
    }

    /** Drops every deposit of a swept group and releases its account. */
    method DropSwept(sig: Signature)
      requires CanDropSwept(Value(), sig)
      modifies this
      ensures Value() == DepositBook.DropSwept(old(Value()), sig)
    {
      var plan := swept[sig];
      swept := swept - {sig};
      DropDeposits(plan.deposits, sig);
    }

    method DropDeposits(m: Batch, sig: Signature)
      requires AllHold(inFlightIds, m)
      modifies this`inFlightIds, this`queuedAtById, this`dropped
      ensures inFlightIds == old(inFlightIds) - AccountsOf(m)
      ensures queuedAtById == old(queuedAtById) - m.Keys
      ensures dropped == old(dropped) + DroppedOf(m, sig)
    {
      hide AccountsIn, DroppedOf, Ascending, AllHold;
      var ids := Ascending(m.Keys);
      IncreasingDistinct(ids);
      assert AccountsIn(m, Elems(ids[..0])) == {} by { NoAccounts(m, ids); }
      var k := 0;
      while k < |ids|
        invariant 0 <= k <= |ids|
        invariant inFlightIds == old(inFlightIds) - AccountsIn(m, Elems(ids[..k]))
        invariant queuedAtById == old(queuedAtById) - Elems(ids[..k])
        invariant DroppedSoFar(old(dropped), dropped, m, sig, Elems(ids[..k]))
      {
        var id := ids[k];
        assert id in Elems(ids);
        ListedSoFar(ids, k);
        AccountsGrow(m, Elems(ids[..k]), id);
        StillHeld(old(inFlightIds), m, Elems(ids[..k]), id);
        MinusBoth(old(inFlightIds), AccountsIn(m, Elems(ids[..k])), m[id].account);
        MinusBoth(old(queuedAtById), Elems(ids[..k]), id);
        DropOne(old(dropped), dropped, m, sig, Elems(ids[..k]), id);
        ReleaseInFlight(id, m[id].account);
        queuedAtById := queuedAtById - {id};
        dropped := dropped[id := SweptDeposit(m[id], sig)];
        k := k + 1;
      }
      assert ids[..k] == ids;
      DropAll(old(dropped), dropped, m, sig);
      AllAccounts(m);
    }

    method FinalizeSwept(sig: Signature)
      requires CanFinalize(Value(), sig)
      modifies this
      ensures Value() == Finalize(old(Value()), sig)
    {
      var plan := swept[sig];
      swept := swept - {sig};
      finalized := finalized[sig := plan];
    }

    method QuarantineSweep(sig: Signature)
      requires CanQuarantineSweep(Value(), sig)
      modifies this
      ensures Value() == DepositBook.QuarantineSweep(old(Value()), sig)
    {
      var plan := finalized[sig];
      finalized := finalized - {sig};
      quarantined := quarantined + UnreadableOf(plan.deposits, sig);
      ForgetQueued(Ascending(plan.deposits.Keys));
    }

    method ForgetQueued(ids: seq<DepositId>)
      modifies this`queuedAtById
      ensures queuedAtById == old(queuedAtById) - Elems(ids)
    {
      for k := 0 to |ids|
        invariant queuedAtById == old(queuedAtById) - Elems(ids[..k])
      {
        assert ids[..k + 1] == ids[..k] + [ids[k]];
        ElemsAppend(ids[..k], ids[k]);
        queuedAtById := queuedAtById - {ids[k]};
      }
      assert ids[..|ids|] == ids;
    }

    /** Moves every deposit of a finalized sweep to the pending mints. */
    method CreditSweep(sig: Signature, mints: seq<CreditedDeposit>, now: Timestamp) returns (credited: Sweep)
      requires CanCredit(Value(), sig, mints)
      modifies this
      ensures Value() == Credit(old(Value()), sig, mints, now)
      ensures credited == old(finalized)[sig]
    {
      credited := finalized[sig];
      finalized := finalized - {sig};
      AddPending(credited.deposits, sig, mints, now);
    }

    method AddPending(m: Batch, sig: Signature, mints: seq<CreditedDeposit>, now: Timestamp)
      requires DistinctMints(mints)
      requires forall i | 0 <= i < |mints| ::
                 && mints[i].depositId in m && mints[i].amountToMint <= m[mints[i].depositId].Sweepable()
                 && mints[i].depositId !in pendingMints
      modifies this`pendingMints
      ensures pendingMints == old(pendingMints) + PendingOf(m, sig, MintMap(mints), now)
    {
      var k := 0;
      while k < |mints|
        invariant 0 <= k <= |mints|
        invariant pendingMints == old(pendingMints) + PendingOf(m, sig, MintMap(mints[..k]), now)
      {
        var id := mints[k].depositId;
        PendingGrows(m, sig, mints, k, now);
        NotYetCredited(mints, k);
        pendingMints := pendingMints[id := PendingMint(SweptDeposit(m[id], sig), mints[k].amountToMint, now)];
        k := k + 1;
      }
      assert mints[..k] == mints;
    }

    method Mint(id: DepositId, index: MintIndex)
      requires CanMint(Value(), id)
      modifies this
      ensures Value() == DepositBook.Mint(old(Value()), id, index)
    {
      var p := pendingMints[id];
      pendingMints := pendingMints - {id};
      ReleaseInFlight(id, p.Account());
      queuedAtById := queuedAtById - {id};
      minted := minted[id := MintedSweep(p.deposit, p.amountToMint, index)];
    }

    method QuarantinePendingMint(id: DepositId)
      requires CanQuarantineMint(Value(), id)
      modifies this
      ensures Value() == QuarantineMint(old(Value()), id)
    {
      var p := pendingMints[id];
      pendingMints := pendingMints - {id};
      queuedAtById := queuedAtById - {id};
      quarantined := quarantined[id :=
        QuarantinedDeposit(p.deposit, MintUnresolved(p.amountToMint, p.createdAtTime))];
    }
  }
}
