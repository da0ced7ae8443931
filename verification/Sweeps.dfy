/** Planning a sweep of deposits to the main address, recovering the plan from the submitted
    message, and settling the reported outcome against it
    (minter/src/state/deposits/sweeps/mod.rs). */
module Sweeps {
  import opened Prelude
  import opened Solana

  type DepositId = nat

  /** A balance that stays rent-exempt once its sweepable amount is transferred. */
  type DepositBalance = b: nat | RENT_EXEMPTION_THRESHOLD <= b witness RENT_EXEMPTION_THRESHOLD

  datatype QueuedDeposit = QueuedDeposit(account: Account, address: Address, balance: DepositBalance,
                                         depositFee: Option<Lamport>)
  {
    function Sweepable(): Lamport {
      balance - RENT_EXEMPTION_THRESHOLD
    }

    function Fee(): Lamport {
      match depositFee case None => 0 case Some(fee) => fee
    }
  }

  type Batch = map<DepositId, QueuedDeposit>

  datatype Transfer = Transfer(depositId: DepositId, source: Address, amount: Lamport)

  datatype Sweep = Sweep(deposits: Batch, feePayer: DepositId, fee: Lamport, minterAddress: Address,
                         transfers: seq<Transfer>, expectedReceived: Lamport)

  datatype CreditedDeposit = CreditedDeposit(depositId: DepositId, amountToMint: Lamport)

  // ---------- the order of the transfers ----------

  /** Larger sweepable amounts first, smaller ids first among equals. */
  predicate Before(m: Batch, a: DepositId, b: DepositId)
    requires a in m && b in m
  {
    m[a].Sweepable() > m[b].Sweepable() || (m[a].Sweepable() == m[b].Sweepable() && a < b)
  }

  /** The deposit of a set that comes before the others. */
  function First(m: Batch, ids: set<DepositId>): (f: DepositId)
    requires ids != {} && ids <= m.Keys
    ensures f in ids && forall id | id in ids && id != f :: Before(m, f, id)
  {
    var x := Least(ids);
    var rest := ids - {x};
    if rest == {} then
      assert forall id | id in ids :: id == x || id in rest;
      x
    else
      var g := First(m, rest);
      assert forall id | id in ids :: id == x || id in rest;
      if Before(m, x, g) then x else g
  }

  /** A listing of the ids, each before the ones that follow it. */
  ghost predicate Ordered(m: Batch, ids: set<DepositId>, list: seq<DepositId>) {
    && ids <= m.Keys
    && (forall i | 0 <= i < |list| :: list[i] in ids)
    && (forall id | id in ids :: id in list)
    && forall i, j | 0 <= i < j < |list| :: Before(m, list[i], list[j])
  }

  function SweepOrder(m: Batch, ids: set<DepositId>): (list: seq<DepositId>)
    requires ids <= m.Keys
    ensures Ordered(m, ids, list)
  {
    if ids == {} then [] else
      var f := First(m, ids);
      OrderedCons(m, ids, f, SweepOrder(m, ids - {f}));
      [f] + SweepOrder(m, ids - {f})
  }

  lemma OrderedCons(m: Batch, ids: set<DepositId>, f: DepositId, rest: seq<DepositId>)
    requires ids <= m.Keys && f in ids && forall id | id in ids && id != f :: Before(m, f, id)
    requires Ordered(m, ids - {f}, rest)
    ensures Ordered(m, ids, [f] + rest)
  {
    var list := [f] + rest;
    forall id | id in ids ensures id in list {
      if id != f {
        assert id in ids - {f};
        var i :| 0 <= i < |rest| && rest[i] == id;
        assert list[i + 1] == id;
      } else {
        assert list[0] == f;
      }
    }
  }

  lemma OrderedDistinct(m: Batch, ids: set<DepositId>, list: seq<DepositId>)
    requires Ordered(m, ids, list)
    ensures Distinct(list) && |list| == |ids| && Elems(list) == ids
  {
    ElemsCard(list);
    assert Elems(list) == ids;
  }

  lemma OrderedTail(m: Batch, ids: set<DepositId>, list: seq<DepositId>)
    requires Ordered(m, ids, list) && list != []
    ensures Ordered(m, ids - {list[0]}, list[1..])
  {
    var tail := list[1..];
    forall i | 0 <= i < |tail| ensures tail[i] in ids - {list[0]} {
      assert tail[i] == list[i + 1] && Before(m, list[0], list[i + 1]);
    }
    forall id | id in ids - {list[0]} ensures id in tail {
      var i :| 0 <= i < |list| && list[i] == id;
      assert tail[i - 1] == id;
    }
  }

  /** There is only one such listing. */
  lemma {:induction false} OrderUnique(m: Batch, ids: set<DepositId>, a: seq<DepositId>, b: seq<DepositId>)
    requires Ordered(m, ids, a) && Ordered(m, ids, b)
    ensures a == b
    decreases |a|
  {
    if a == [] {
      assert ids == {};
    } else {
      assert a[0] in ids;
      assert b != [];
      HeadIsFirst(m, ids, a);
      HeadIsFirst(m, ids, b);
      OrderedTail(m, ids, a);
      OrderedTail(m, ids, b);
      OrderUnique(m, ids - {a[0]}, a[1..], b[1..]);
      assert a == [a[0]] + a[1..] && b == [b[0]] + b[1..];
    }
  }

  lemma HeadIsFirst(m: Batch, ids: set<DepositId>, list: seq<DepositId>)
    requires Ordered(m, ids, list) && list != []
    ensures ids != {} && list[0] == First(m, ids)
  {
    assert list[0] in ids;
    var f := First(m, ids);
    var k :| 0 <= k < |list| && list[k] == f;
    assert k > 0 ==> Before(m, list[0], list[k]);
  }

  // ---------- the plan ----------

  /** What the planner needs: some deposit, the largest of which covers one signature each. */
  predicate CanPlan(m: Batch) {
    m.Keys != {} && m[First(m, m.Keys)].Sweepable() >= PlannedFee(m)
  }

  /** One signature per deposit. */
  function PlannedFee(m: Batch): Lamport {
    FEE_PER_SIGNATURE * |m|
  }

  /** The transfers in the given order; the first one is reduced by the fee. */
  function TransfersIn(m: Batch, list: seq<DepositId>, fee: Lamport): seq<Transfer>
    requires forall i | 0 <= i < |list| :: list[i] in m
    requires list != [] ==> m[list[0]].Sweepable() >= fee
  {
    seq(|list|, i requires 0 <= i < |list| =>
      Transfer(list[i], m[list[i]].address, m[list[i]].Sweepable() - if i == 0 then fee else 0))
  }

  function TransfersOf(m: Batch): (transfers: seq<Transfer>)
    requires CanPlan(m)
    ensures |transfers| == |m|
  {
    var list := SweepOrder(m, m.Keys);
    PlanHead(m);
    TransfersIn(m, list, PlannedFee(m))
  }

  lemma PlanHead(m: Batch)
    requires CanPlan(m)
    ensures var list := SweepOrder(m, m.Keys);
            |list| == |m| && list != [] && list[0] == First(m, m.Keys) && Elems(list) == m.Keys && Distinct(list)
  {
    var list := SweepOrder(m, m.Keys);
    OrderedDistinct(m, m.Keys, list);
    HeadIsFirst(m, m.Keys, list);
  }

  function Amounts(transfers: seq<Transfer>): seq<Lamport> {
    seq(|transfers|, i requires 0 <= i < |transfers| => transfers[i].amount)
  }

  /** The plan of a batch, as a function of the set of its deposits and the destination. */
  function PlanOf(m: Batch, minterAddress: Address): Sweep
    requires CanPlan(m)
  {
    Sweep(m, First(m, m.Keys), PlannedFee(m), minterAddress, TransfersOf(m), Sum(Amounts(TransfersOf(m))))
  }

  /** The fee payer has the largest sweepable amount, and the smallest id among equals. */
  ghost predicate PaysFromLargest(m: Batch, payer: DepositId) {
    && payer in m
    && (forall id | id in m :: m[id].balance <= m[payer].balance)
    && (forall id | id in m && m[id].balance == m[payer].balance :: payer <= id)
  }

  /** By falling balance, and by rising id where balances are equal. */
  ghost predicate FallingBalances(m: Batch, list: seq<DepositId>) {
    && (forall i | 0 <= i < |list| :: list[i] in m)
    && forall i, j | 0 <= i < j < |list| ::
         && m[list[i]].balance >= m[list[j]].balance
         && (m[list[i]].balance == m[list[j]].balance ==> list[i] < list[j])
  }

  lemma FirstIsLargest(m: Batch, ids: set<DepositId>)
    requires ids != {} && ids <= m.Keys
    ensures var f := First(m, ids);
            && (forall id | id in ids :: m[id].balance <= m[f].balance)
            && (forall id | id in ids && m[id].balance == m[f].balance :: f <= id)
  {}

  lemma OrderedFalls(m: Batch, ids: set<DepositId>, list: seq<DepositId>)
    requires Ordered(m, ids, list)
    ensures FallingBalances(m, list)
  {
    forall i, j | 0 <= i < j < |list|
      ensures m[list[i]].balance >= m[list[j]].balance && (m[list[i]].balance == m[list[j]].balance ==> list[i] < list[j])
    {
      assert Before(m, list[i], list[j]);
    }
  }

  /** What a plan is, in terms of the deposits: the largest one pays the fee of 5_000 lamports per
      deposit; its transfer comes first, reduced by the fee; the others follow by falling amount and
      then by rising id; each one takes its deposit down to the rent threshold of 890_880 lamports,
      from the address of the deposit. */
  lemma PlanIs(m: Batch, minter: Address)
    requires CanPlan(m)
    ensures var s := PlanOf(m, minter);
            && s.deposits == m && s.minterAddress == minter && s.fee == 5_000 * |m| && PaysFromLargest(m, s.feePayer)
            && |s.transfers| == |m| && s.transfers[0].depositId == s.feePayer
            && (forall id | id in m :: exists i | 0 <= i < |s.transfers| :: s.transfers[i].depositId == id)
            && (forall i, j | 1 <= i < j < |s.transfers| ::
                  && s.transfers[i].amount >= s.transfers[j].amount
                  && (s.transfers[i].amount == s.transfers[j].amount ==> s.transfers[i].depositId < s.transfers[j].depositId))
            && (forall i | 0 <= i < |s.transfers| ::
                  && s.transfers[i].depositId in m && s.transfers[i].source == m[s.transfers[i].depositId].address
                  && s.transfers[i].amount + (if i == 0 then s.fee else 0) + 890_880 == m[s.transfers[i].depositId].balance)
  {
    hide First, SweepOrder, Sum, Amounts, Ordered, TransfersIn, FallingBalances, PaysFromLargest;
    PlanHead(m);
    var list := SweepOrder(m, m.Keys);
    OrderedFalls(m, m.Keys, list);
    assert PaysFromLargest(m, First(m, m.Keys)) by { LargestPays(m); }
    TransfersLaidOut(m, list, PlannedFee(m));
    forall id | id in m ensures id in list {
      assert id in Elems(list);
    }
  }

  lemma LargestPays(m: Batch)
    requires m.Keys != {}
    ensures PaysFromLargest(m, First(m, m.Keys))
  {
    FirstIsLargest(m, m.Keys);
  }

  lemma TransfersLaidOut(m: Batch, list: seq<DepositId>, fee: Lamport)
    requires FallingBalances(m, list) && list != [] && m[list[0]].Sweepable() >= fee
    ensures var ts := TransfersIn(m, list, fee);
            && |ts| == |list| && ts[0].depositId == list[0]
            && (forall id | id in list :: exists i | 0 <= i < |ts| :: ts[i].depositId == id)
            && (forall i, j | 1 <= i < j < |ts| ::
                  && ts[i].amount >= ts[j].amount && (ts[i].amount == ts[j].amount ==> ts[i].depositId < ts[j].depositId))
            && (forall i | 0 <= i < |ts| ::
                  && ts[i].depositId in m && ts[i].source == m[ts[i].depositId].address
                  && ts[i].amount + (if i == 0 then fee else 0) + 890_880 == m[ts[i].depositId].balance)
  {
    var ts := TransfersIn(m, list, fee);
    forall id | id in list ensures exists i | 0 <= i < |ts| :: ts[i].depositId == id {
      var i :| 0 <= i < |list| && list[i] == id;
      assert ts[i].depositId == id;
    }
  }

  /** Planning is possible exactly when the largest deposit covers the fee of the whole sweep. */
  lemma CanPlanIff(m: Batch)
    ensures CanPlan(m) <==> exists id :: id in m && m[id].balance >= 890_880 + 5_000 * |m|
  {
    if m.Keys != {} {
      FirstIsLargest(m, m.Keys);
    }
  }

  ghost predicate IsPlan(s: Sweep) {
    CanPlan(s.deposits) && s == PlanOf(s.deposits, s.minterAddress)
  }

  /** The deposits given to the planner, by id. */
  function BatchOf(list: seq<(DepositId, QueuedDeposit)>): Batch {
    if list == [] then map[] else
      var last := list[|list| - 1];
      BatchOf(list[..|list| - 1])[last.0 := last.1]
  }

  ghost predicate DistinctIds(list: seq<(DepositId, QueuedDeposit)>) {
    forall i, j | 0 <= i < j < |list| :: list[i].0 != list[j].0
  }

  lemma {:induction false} BatchOfElems(list: seq<(DepositId, QueuedDeposit)>)
    requires DistinctIds(list)
    ensures forall i | 0 <= i < |list| :: list[i].0 in BatchOf(list) && BatchOf(list)[list[i].0] == list[i].1
    ensures forall id | id in BatchOf(list) :: (id, BatchOf(list)[id]) in list
  {
    if list != [] {
      var n := |list| - 1;
      assert list == list[..n] + [list[n]];
      BatchOfElems(list[..n]);
      forall i | 0 <= i < n ensures list[..n][i] == list[i] {}
    }
  }

  /** The plan depends on the set of deposits only, not on the order they are given in. */
  lemma PlanIgnoresOrder(a: seq<(DepositId, QueuedDeposit)>, b: seq<(DepositId, QueuedDeposit)>)
    requires DistinctIds(a) && DistinctIds(b) && Elems(a) == Elems(b)
    ensures BatchOf(a) == BatchOf(b)
  {
    BatchOfElems(a);
    BatchOfElems(b);
    forall id | id in BatchOf(a) ensures id in BatchOf(b) && BatchOf(a)[id] == BatchOf(b)[id] {
      assert (id, BatchOf(a)[id]) in Elems(b);
    }
    forall id | id in BatchOf(b) ensures id in BatchOf(a) {
      assert (id, BatchOf(b)[id]) in Elems(a);
    }
  }

  /** Plans a sweep as the minter does: collect by id, choose the fee payer, sort the others,
      lay out the transfers and add them up. Repeated ids, an empty list and a fee payer that
      cannot pay are traps. */
  method Plan(list: seq<(DepositId, QueuedDeposit)>, minterAddress: Address) returns (s: Sweep)
    requires DistinctIds(list) && CanPlan(BatchOf(list))
    ensures s == PlanOf(BatchOf(list), minterAddress)
  {
    var unique := CollectById(list);
    var ids := Ascending(unique.Keys);
    IncreasingDistinct(ids);
    var feePayer := ChooseFeePayer(unique, ids);
    var others := SortOthers(unique, ids, feePayer);
    HeadThenTail(unique, feePayer, others);
    PlanHead(unique);
    var fee := FEE_PER_SIGNATURE * |unique|;
    var transfers := LayOut(unique, feePayer, others, fee);
    var expectedReceived := AddUp(transfers);
    s := Sweep(unique, feePayer, fee, minterAddress, transfers, expectedReceived);
  }

  method CollectById(list: seq<(DepositId, QueuedDeposit)>) returns (unique: Batch)
    requires DistinctIds(list)
    ensures unique == BatchOf(list)
  {
    unique := map[];
    var n := 0;
    while n < |list|
      invariant 0 <= n <= |list|
      invariant unique == BatchOf(list[..n])
    {
      BatchOfElems(list[..n]);
      assert list[n].0 !in unique;
      assert list[..n + 1][..n] == list[..n];
      unique := unique[list[n].0 := list[n].1];
      n := n + 1;
    }
    assert list[..n] == list;
  }

  /** The largest sweepable amount, the smallest id among equals. */
  method ChooseFeePayer(m: Batch, ids: seq<DepositId>) returns (best: DepositId)
    requires m.Keys != {} && Elems(ids) == m.Keys
    ensures best == First(m, m.Keys) && PaysFromLargest(m, best)
  {
    FirstIsLargest(m, m.Keys);
    assert forall id | id in m :: id in Elems(ids);
    best := ids[0];
    assert best in Elems(ids);
    var i := 1;
    while i < |ids|
      invariant 1 <= i <= |ids|
      invariant best in m
      invariant forall j | 0 <= j < i :: ids[j] in m && (ids[j] == best || Before(m, best, ids[j]))
    {
      assert ids[i] in Elems(ids);
      if Before(m, ids[i], best) {
        best := ids[i];
      }
      i := i + 1;
    }
    var f := First(m, m.Keys);
    assert f in Elems(ids);
    var j :| 0 <= j < |ids| && ids[j] == f;
  }

  /** Insertion sort of the deposits other than the fee payer. */
  method SortOthers(m: Batch, ids: seq<DepositId>, feePayer: DepositId) returns (others: seq<DepositId>)
    requires Elems(ids) == m.Keys && Distinct(ids) && feePayer in m
    ensures Ordered(m, m.Keys - {feePayer}, others) && FallingBalances(m, others)
  {
    others := [];
    var i := 0;
    while i < |ids|
      invariant 0 <= i <= |ids|
      invariant Ordered(m, Elems(ids[..i]) - {feePayer}, others)
    {
      assert ids[i] in Elems(ids);
      assert ids[..i + 1] == ids[..i] + [ids[i]];
      ElemsAppend(ids[..i], ids[i]);
      if ids[i] != feePayer {
        assert ids[i] !in Elems(ids[..i]);
        others := InsertSorted(m, Elems(ids[..i]) - {feePayer}, others, ids[i]);
        assert Elems(ids[..i]) - {feePayer} + {ids[i]} == Elems(ids[..i + 1]) - {feePayer};
      } else {
        assert Elems(ids[..i]) - {feePayer} == Elems(ids[..i + 1]) - {feePayer};
      }
      i := i + 1;
    }
    assert ids[..|ids|] == ids;
    OrderedFalls(m, m.Keys - {feePayer}, others);
  }

  method InsertSorted(m: Batch, ghost done: set<DepositId>, sorted: seq<DepositId>, id: DepositId)
    returns (r: seq<DepositId>)
    requires Ordered(m, done, sorted) && id !in done && id in m
    ensures Ordered(m, done + {id}, r)
  {
    var k := 0;
    while k < |sorted| && Before(m, sorted[k], id)
      invariant 0 <= k <= |sorted|
      invariant forall i | 0 <= i < k :: Before(m, sorted[i], id)
    {
      k := k + 1;
    }
    r := sorted[..k] + [id] + sorted[k..];
    OrderedInsert(m, done, sorted, id, k, r);
  }

  lemma OrderedInsert(m: Batch, done: set<DepositId>, sorted: seq<DepositId>, id: DepositId, k: nat, r: seq<DepositId>)
    requires Ordered(m, done, sorted) && id !in done && id in m && k <= |sorted|
    requires forall i | 0 <= i < k :: Before(m, sorted[i], id)
    requires k < |sorted| ==> !Before(m, sorted[k], id)
    requires r == sorted[..k] + [id] + sorted[k..]
    ensures Ordered(m, done + {id}, r)
  {
    forall i | 0 <= i < |r| ensures r[i] in done + {id} {
      assert r[i] == if i < k then sorted[i] else if i == k then id else sorted[i - 1];
    }
    forall x | x in done + {id} ensures x in r {
      if x == id {
        assert r[k] == id;
      } else {
        assert x in done;
        var i :| 0 <= i < |sorted| && sorted[i] == x;
        assert r[if i < k then i else i + 1] == x;
      }
    }
    forall i | k <= i < |sorted| ensures Before(m, id, sorted[i]) {
      assert i > k ==> Before(m, sorted[k], sorted[i]);
    }
    InsertKeepsOrder(m, sorted, id, k, r);
  }

  lemma InsertKeepsOrder(m: Batch, sorted: seq<DepositId>, id: DepositId, k: nat, r: seq<DepositId>)
    requires id in m && k <= |sorted| && r == sorted[..k] + [id] + sorted[k..]
    requires forall i | 0 <= i < |sorted| :: sorted[i] in m
    requires forall i, j | 0 <= i < j < |sorted| :: Before(m, sorted[i], sorted[j])
    requires forall i | 0 <= i < k :: Before(m, sorted[i], id)
    requires forall i | k <= i < |sorted| :: Before(m, id, sorted[i])
    ensures forall i | 0 <= i < |r| :: r[i] in m
    ensures forall i, j | 0 <= i < j < |r| :: Before(m, r[i], r[j])
  {
    hide Before;
    assert forall i | 0 <= i < |r| :: r[i] == if i < k then sorted[i] else if i == k then id else sorted[i - 1];
  }

  /** The fee payer followed by the sorted others is the order of the plan. */
  lemma HeadThenTail(m: Batch, f: DepositId, others: seq<DepositId>)
    requires m.Keys != {} && f == First(m, m.Keys) && Ordered(m, m.Keys - {f}, others)
    ensures SweepOrder(m, m.Keys) == [f] + others
  {
    OrderedCons(m, m.Keys, f, others);
    OrderUnique(m, m.Keys, SweepOrder(m, m.Keys), [f] + others);
  }

  method LayOut(m: Batch, feePayer: DepositId, others: seq<DepositId>, fee: Lamport) returns (transfers: seq<Transfer>)
    requires feePayer in m && m[feePayer].Sweepable() >= fee
    requires forall i | 0 <= i < |others| :: others[i] in m
    ensures transfers == TransfersIn(m, [feePayer] + others, fee)
  {
    transfers := [Transfer(feePayer, m[feePayer].address, m[feePayer].Sweepable() - fee)];
    var i := 0;
    while i < |others|
      invariant 0 <= i <= |others|
      invariant transfers == TransfersIn(m, [feePayer] + others, fee)[..i + 1]
    {
      transfers := transfers + [Transfer(others[i], m[others[i]].address, m[others[i]].Sweepable())];
      i := i + 1;
    }
  }

  method AddUp(transfers: seq<Transfer>) returns (total: Lamport)
    ensures total == Sum(Amounts(transfers))
  {
    total := 0;
    var i := 0;
    while i < |transfers|
      invariant 0 <= i <= |transfers|
      invariant total == Sum(Amounts(transfers[..i]))
    {
      assert Amounts(transfers[..i + 1]) == Amounts(transfers[..i]) + [transfers[i].amount];
      SumAppend(Amounts(transfers[..i]), transfers[i].amount);
      total := total + transfers[i].amount;
      i := i + 1;
    }
    assert transfers[..|transfers|] == transfers;
  }

  // ---------- the amounts of a plan ----------

  ghost function SweepableOf(m: Batch): map<DepositId, Lamport> {
    map id | id in m :: m[id].Sweepable()
  }

  ghost function FeesOf(m: Batch): map<DepositId, Lamport> {
    map id | id in m :: m[id].Fee()
  }

  /** The fees recorded with the deposits of a sweep. */
  ghost function DepositFees(s: Sweep): Lamport {
    Total(FeesOf(s.deposits))
  }

  /** What arrives plus the fee is exactly what the deposits held above the rent threshold. */
  lemma PlanConserves(m: Batch, minter: Address)
    requires CanPlan(m)
    ensures PlanOf(m, minter).expectedReceived + PlanOf(m, minter).fee == Total(SweepableOf(m))
  {
    PlanHead(m);
    TransfersConserve(m, SweepOrder(m, m.Keys), PlannedFee(m));
  }

  lemma TransfersConserve(m: Batch, list: seq<DepositId>, fee: Lamport)
    requires Elems(list) == m.Keys && Distinct(list) && list != []
    requires forall i | 0 <= i < |list| :: list[i] in m
    requires m[list[0]].Sweepable() >= fee
    ensures Sum(Amounts(TransfersIn(m, list, fee))) + fee == Total(SweepableOf(m))
  {
    var full := seq(|list|, i requires 0 <= i < |list| =>
      assert list[i] in Elems(list); SweepableOf(m)[list[i]]);
    SumListing(list, SweepableOf(m));
    var amounts := Amounts(TransfersIn(m, list, fee));
    assert full[1..] == amounts[1..];
    SumHead(full);
    SumHead(amounts);
  }

  lemma SumHead(s: seq<nat>)
    requires s != []
    ensures Sum(s) == s[0] + Sum(s[1..])
  {
    assert s == [s[0]] + s[1..];
    SumConcat([s[0]], s[1..]);
    assert Sum([s[0]]) == s[0] by {
      assert [s[0]] == [] + [s[0]];
      SumAppend([], s[0]);
    }
  }

  // ---------- the mints ----------

  function DivCeil(a: nat, b: nat): nat
    requires b > 0
  {
    (a + b - 1) / b
  }

  /** The share of the fee each deposit bears, rounded up. */
  function FeeShare(s: Sweep): Lamport
    requires s.deposits.Keys != {}
  {
    DivCeil(s.fee, |s.deposits.Keys|)
  }

  predicate FeesFit(s: Sweep, id: DepositId)
    requires id in s.deposits
  {
    FeeShare(s) + s.deposits[id].Fee() <= s.deposits[id].Sweepable()
  }

  function MintAmount(s: Sweep, id: DepositId): Lamport
    requires id in s.deposits && FeesFit(s, id)
  {
    s.deposits[id].Sweepable() - FeeShare(s) - s.deposits[id].Fee()
  }

  predicate AllFeesFit(s: Sweep) {
    forall id | id in s.deposits :: FeesFit(s, id)
  }

  /** One mint per deposit in the order of the ids, or none when the fees of some deposit
      exceed what was swept for it. */
  function Mints(s: Sweep): (r: Option<seq<CreditedDeposit>>)
    requires s.deposits.Keys != {}
  {
    if AllFeesFit(s) then
      var ids := Ascending(s.deposits.Keys);
      Some(seq(|ids|, i requires 0 <= i < |ids| =>
        assert ids[i] in Elems(ids);
        CreditedDeposit(ids[i], MintAmount(s, ids[i]))))
    else None
  }

  ghost function MintAmounts(s: Sweep): map<DepositId, Lamport>
    requires AllFeesFit(s)
  {
    map id | id in s.deposits :: MintAmount(s, id)
  }

  function AmountsToMint(mints: seq<CreditedDeposit>): seq<Lamport> {
    seq(|mints|, i requires 0 <= i < |mints| => mints[i].amountToMint)
  }

  /** The share is the fee of one signature, whatever the size of the batch. */
  lemma FeeShareIsOneSignature(s: Sweep)
    requires IsPlan(s)
    ensures FeeShare(s) == FEE_PER_SIGNATURE
  {
    var n := |s.deposits.Keys|;
    assert s.fee == FEE_PER_SIGNATURE * n;
    DivExact(FEE_PER_SIGNATURE, n);
  }

  lemma DivExact(q: nat, n: nat)
    requires n > 0
    ensures (q * n + n - 1) / n == q
  {
    DivUnique(q * n + n - 1, n, q, n - 1);
  }

  lemma DivUnique(a: nat, n: nat, q: nat, r: nat)
    requires n > 0 && r < n && a == q * n + r
    ensures a / n == q
  {
    var q' := a / n;
    assert a == q' * n + a % n;
    if q' < q {
      MulMono(q' + 1, q, n);
      MulSucc(q', n);
    } else if q' > q {
      MulMono(q + 1, q', n);
      MulSucc(q, n);
    }
  }

  lemma MulMono(a: nat, b: nat, n: nat)
    requires a <= b
    ensures a * n <= b * n
  {}

  /** The fee recorded with a deposit, none meaning zero. */
  ghost function RecordedFee(d: QueuedDeposit): Lamport {
    if d.depositFee.Some? then d.depositFee.value else 0
  }

  ghost function RecordedFees(m: Batch): map<DepositId, Lamport> {
    map id | id in m :: RecordedFee(m[id])
  }

  ghost predicate MintIs(m: Batch, mint: CreditedDeposit) {
    mint.depositId in m && mint.amountToMint + 890_880 + 5_000 + RecordedFee(m[mint.depositId]) == m[mint.depositId].balance
  }

  /** The mints of a plan name its deposits in the order of the ids; each is the balance of its deposit
      less the rent threshold, one signature fee and the fee recorded with it. There are none exactly
      when some deposit does not cover these. */
  lemma MintsAre(s: Sweep)
    requires IsPlan(s)
    ensures Mints(s).Some? <==> forall id | id in s.deposits :: s.deposits[id].balance >= 890_880 + 5_000 + RecordedFee(s.deposits[id])
    ensures Mints(s).Some? ==>
              && |Mints(s).value| == |s.deposits|
              && (forall i, j | 0 <= i < j < |Mints(s).value| :: Mints(s).value[i].depositId < Mints(s).value[j].depositId)
              && forall i | 0 <= i < |Mints(s).value| :: MintIs(s.deposits, Mints(s).value[i])
    ensures DepositFees(s) == Total(RecordedFees(s.deposits))
  {
    FeeShareIsOneSignature(s);
    hide IsPlan, FeeShare, Ascending, Total, Mints, FeesOf, RecordedFees, AllFeesFit, MintIs;
    FeesFitIff(s);
    MintsListed(s);
    FeesRecorded(s.deposits);
  }

  lemma FeesRecorded(m: Batch)
    ensures FeesOf(m) == RecordedFees(m)
  {}

  lemma FeesFitIff(s: Sweep)
    requires s.deposits.Keys != {} && FeeShare(s) == 5_000
    ensures Mints(s).Some? <==> AllFeesFit(s)
    ensures AllFeesFit(s) <==> forall id | id in s.deposits :: s.deposits[id].balance >= 890_880 + 5_000 + RecordedFee(s.deposits[id])
  {
    hide FeeShare, Ascending;
    forall id | id in s.deposits
      ensures FeesFit(s, id) <==> s.deposits[id].balance >= 890_880 + 5_000 + RecordedFee(s.deposits[id]) {}
  }

  lemma MintsListed(s: Sweep)
    requires s.deposits.Keys != {} && FeeShare(s) == 5_000
    ensures Mints(s).Some? ==>
              && |Mints(s).value| == |s.deposits|
              && (forall i, j | 0 <= i < j < |Mints(s).value| :: Mints(s).value[i].depositId < Mints(s).value[j].depositId)
              && forall i | 0 <= i < |Mints(s).value| :: MintIs(s.deposits, Mints(s).value[i])
  {
    hide FeeShare, Ascending;
    var ids := Ascending(s.deposits.Keys);
    IncreasingDistinct(ids);
    ElemsCard(ids);
    assert |s.deposits| == |s.deposits.Keys|;
    forall i | 0 <= i < |ids| ensures ids[i] in s.deposits {
      assert ids[i] in Elems(ids);
    }
  }

  /** Mints and deposit fees add up to exactly what the main address receives. */
  lemma MintsConserve(s: Sweep)
    requires IsPlan(s) && AllFeesFit(s)
    ensures Mints(s).Some?
    ensures Sum(AmountsToMint(Mints(s).value)) == Total(MintAmounts(s))
    ensures Total(MintAmounts(s)) + DepositFees(s) == s.expectedReceived
  {
    MintsSum(s);
    FeeShareIsOneSignature(s);
    PlanConserves(s.deposits, s.minterAddress);
    MintsTotal(s);
  }

  lemma MintsSum(s: Sweep)
    requires s.deposits.Keys != {} && AllFeesFit(s)
    ensures Mints(s).Some?
    ensures Sum(AmountsToMint(Mints(s).value)) == Total(MintAmounts(s))
  {
    hide FeesFit, MintAmount, FeeShare;
    var ids := Ascending(s.deposits.Keys);
    IncreasingDistinct(ids);
    SumListing(ids, MintAmounts(s));
    assert AmountsToMint(Mints(s).value) == seq(|ids|, i requires 0 <= i < |ids| =>
      assert ids[i] in Elems(ids); MintAmounts(s)[ids[i]]);
  }

  lemma MintsTotal(s: Sweep)
    requires s.deposits.Keys != {} && AllFeesFit(s) && FeeShare(s) == FEE_PER_SIGNATURE
    ensures Total(MintAmounts(s)) + DepositFees(s) + PlannedFee(s.deposits) == Total(SweepableOf(s.deposits))
  {
    var m := s.deposits;
    var net := map id | id in m :: m[id].Sweepable() - FEE_PER_SIGNATURE;
    var share := map id | id in m :: FEE_PER_SIGNATURE;
    TotalPointwise(MintAmounts(s), FeesOf(m), net);
    TotalPointwise(net, share, SweepableOf(m));
    TotalConstant(share, FEE_PER_SIGNATURE);
    assert share.Keys == m.Keys;
  }
}
