/** Durable nonce accounts of the pool against the chain that advances them
    (minter/src/state/nonce_pool/mod.rs). The chain is modelled by its finalized history: the
    values of an account never repeat, only a message signed by the minter that carries the
    current value advances it, and a read returns some value the account had since it joined
    the pool. */
module NonceChain {
  import opened Prelude
  import opened Solana
  import opened NoncePool

  /** A nonce value of an account: what a durable-nonce message is good for. */
  datatype Slot = Slot(account: Address, nonce: Hash)

  /** A message included in a block: the nonce advances whether or not the transfers succeed. */
  datatype Execution = Execution(message: Message, ok: bool)

  /** The history of every account since it joined the pool, what was executed in each slot that
      was used up, every message ever signed, the value each bound account is bound to, and the
      message each slot was bound to. */
  datatype Chain = Chain(
    history: map<Address, seq<Hash>>,
    landed: map<Slot, Execution>,
    signed: set<Message>,
    bound: map<Address, Hash>,
    bindings: map<Slot, Message>)

  function Last(s: seq<Hash>): Hash
    requires s != []
  {
    s[|s| - 1]
  }

  function Past(s: seq<Hash>): set<Hash>
    requires s != []
  {
    Elems(s[..|s| - 1])
  }

  /** The slot a message uses up. */
  ghost function SlotOf(m: Message): Slot
    requires AdvancedNonceAccount(m).Some?
  {
    Slot(AdvancedNonceAccount(m).value, m.blockhash)
  }

  // ---------- the invariant ----------

  /** A free account has bound all its past values; an account bound to a value has bound all
      values up to that one, and the value is the current one or the transaction has landed. */
  ghost predicate InStep(account: NonceAccount, history: seq<Hash>, bound: Option<Hash>) {
    && history != [] && Distinct(history)
    && (account.bound <==> bound.Some?)
    && match bound
       case None => account.seen == Past(history)
       case Some(v) =>
         || (v == Last(history) && account.seen == Elems(history))
         || (|history| >= 2 && v == history[|history| - 2] && account.seen == Past(history))
  }

  ghost function BoundTo(bound: map<Address, Hash>, a: Address): Option<Hash> {
    if a in bound then Some(bound[a]) else None
  }

  ghost predicate AllInStep(pool: Pool, history: map<Address, seq<Hash>>, bound: map<Address, Hash>) {
    && bound.Keys <= pool.Keys && history.Keys == pool.Keys
    && forall a | a in pool :: InStep(pool[a], history[a], BoundTo(bound, a))
  }

  lemma AccountInStep(pool: Pool, history: map<Address, seq<Hash>>, bound: map<Address, Hash>, a: Address)
    requires AllInStep(pool, history, bound) && a in pool
    ensures a in history && InStep(pool[a], history[a], BoundTo(bound, a))
  {
    hide InStep;
  }

  /** One account moves, the others stay in step. */
  lemma OneMoves(pool: Pool, history: map<Address, seq<Hash>>, bound: map<Address, Hash>,
                 pool': Pool, history': map<Address, seq<Hash>>, bound': map<Address, Hash>, a: Address)
    requires AllInStep(pool, history, bound) && a in pool && a in pool' && a in history'
    requires InStep(pool'[a], history'[a], BoundTo(bound', a))
    requires pool'.Keys == pool.Keys && history'.Keys == history.Keys && bound'.Keys <= bound.Keys + {a}
    requires forall x | x in pool && x != a ::
               pool'[x] == pool[x] && history'[x] == history[x] && BoundTo(bound', x) == BoundTo(bound, x)
    ensures AllInStep(pool', history', bound')
  {
    hide InStep;
    forall x | x in pool' ensures InStep(pool'[x], history'[x], BoundTo(bound', x)) {
      assert InStep(pool[x], history[x], BoundTo(bound, x));
    }
  }

  ghost predicate BindingsAgree(pool: Pool, bindings: map<Slot, Message>) {
    && (forall k :: k in bindings <==> HasSeen(pool, k.account, k.nonce))
    && (forall k | k in bindings :: AdvancedNonceAccount(bindings[k]).Some? && SlotOf(bindings[k]) == k)
  }

  /** Only bound messages are ever signed. */
  ghost predicate SignedAgree(signed: set<Message>, bindings: map<Slot, Message>) {
    forall m | m in signed ::
      AdvancedNonceAccount(m).Some? && SlotOf(m) in bindings && bindings[SlotOf(m)] == m
  }

  ghost predicate UsedUp(history: map<Address, seq<Hash>>, k: Slot) {
    k.account in history && history[k.account] != [] && k.nonce in Past(history[k.account])
  }

  /** The slots used up are exactly those in which a signed message was executed. */
  ghost predicate LandedAgree(c: Chain) {
    && (forall k :: k in c.landed <==> UsedUp(c.history, k))
    && (forall k | k in c.landed :: c.landed[k].message in c.signed && k in c.bindings && c.landed[k].message == c.bindings[k])
  }

  ghost predicate ChainOk(pool: Pool, c: Chain) {
    AllInStep(pool, c.history, c.bound) && BindingsAgree(pool, c.bindings) && SignedAgree(c.signed, c.bindings) && LandedAgree(c)
  }

  // ---------- reads ----------

  /** A read of a free account that was never bound before is the current value. */
  lemma UnseenReadIsCurrent(account: NonceAccount, history: seq<Hash>, read: Hash)
    requires InStep(account, history, None) && read in history && read !in account.seen
    ensures read == Last(history)
  {
    assert history == history[..|history| - 1] + [Last(history)];
  }

  /** A read of a bound account is `Advanced` exactly when the bound transaction has landed and
      the read is not stale. */
  lemma AdvancedIffLanded(pool: Pool, c: Chain, a: Address, v: Hash, read: Hash)
    requires ChainOk(pool, c) && a in c.bound && c.bound[a] == v && read in c.history[a]
    ensures ClassifyRead(pool, a, v, read) == Advanced <==> Slot(a, v) in c.landed && read == Last(c.history[a])
  {
    hide BindingsAgree, SignedAgree;
    var h := c.history[a];
    assert InStep(pool[a], h, Some(v));
    assert h == h[..|h| - 1] + [Last(h)];
    LastNotPast(h);
    if v != Last(h) {
      assert v == h[..|h| - 1][|h| - 2];
    }
    assert Slot(a, v) in c.landed <==> UsedUp(c.history, Slot(a, v));
  }

  /** The other readings: an unchanged value proves nothing, and a stale one is in the past. */
  lemma StaleMeansPast(pool: Pool, c: Chain, a: Address, v: Hash, read: Hash)
    requires ChainOk(pool, c) && a in c.bound && c.bound[a] == v && read in c.history[a]
    requires ClassifyRead(pool, a, v, read) == Stale
    ensures Slot(a, read) in c.landed
  {
    hide BindingsAgree, SignedAgree;
    var h := c.history[a];
    assert InStep(pool[a], h, Some(v));
    assert read in Past(h) by {
      assert h == h[..|h| - 1] + [Last(h)];
    }
    assert UsedUp(c.history, Slot(a, read));
  }

  /** An account that is free has no signed message that could still land. */
  lemma FreeMeansLanded(pool: Pool, c: Chain, a: Address, m: Message)
    requires ChainOk(pool, c) && a in pool && !pool[a].bound
    requires m in c.signed && SlotOf(m).account == a
    ensures SlotOf(m) in c.landed && c.landed[SlotOf(m)].message == m
  {
    assert InStep(pool[a], c.history[a], BoundTo(c.bound, a));
    assert HasSeen(pool, a, m.blockhash);
    assert UsedUp(c.history, SlotOf(m));
  }

  /** No two different messages are ever signed for one value of one account. */
  lemma OneMessagePerSlot(pool: Pool, c: Chain, m: Message, m': Message)
    requires ChainOk(pool, c) && m in c.signed && m' in c.signed && SlotOf(m) == SlotOf(m')
    ensures m == m'
  {}

  // ---------- steps ----------

  /** Accounts join the pool, each with its value at that time. */
  ghost predicate Joins(pool: Pool, c: Chain, more: seq<Address>, c': Chain) {
    && CanAdd(pool, more)
    && c' == c.(history := c'.history) && c'.history.Keys == c.history.Keys + Elems(more)
    && (forall a | a in c.history :: c'.history[a] == c.history[a])
    && (forall a | a in more :: a in c'.history && |c'.history[a]| == 1)
  }

  lemma JoinKeeps(pool: Pool, c: Chain, more: seq<Address>, c': Chain)
    requires ChainOk(pool, c) && Joins(pool, c, more, c')
    ensures ChainOk(Added(pool, more), c')
  {
    hide SignedAgree, InStep, Added;
    JoinInStep(pool, c, more, c');
    var pool' := Added(pool, more);
    forall k: Slot ensures HasSeen(pool', k.account, k.nonce) <==> HasSeen(pool, k.account, k.nonce) {
      AddedSeen(pool, more, k);
    }
    forall k: Slot ensures UsedUp(c'.history, k) <==> UsedUp(c.history, k) {
      assert c'.history.Keys == c.history.Keys + Elems(more);
    }
  }

  lemma AddedSeen(pool: Pool, more: seq<Address>, k: Slot)
    requires CanAdd(pool, more)
    ensures HasSeen(Added(pool, more), k.account, k.nonce) <==> HasSeen(pool, k.account, k.nonce)
  {}

  lemma JoinInStep(pool: Pool, c: Chain, more: seq<Address>, c': Chain)
    requires AllInStep(pool, c.history, c.bound) && Joins(pool, c, more, c')
    ensures AllInStep(Added(pool, more), c'.history, c'.bound)
  {
    var pool' := Added(pool, more);
    forall a | a in pool' ensures InStep(pool'[a], c'.history[a], BoundTo(c'.bound, a)) {
      if a in pool {
        assert InStep(pool[a], c.history[a], BoundTo(c.bound, a));
      } else {
        assert c'.history[a][..0] == [];
      }
    }
  }

  ghost function BoundAt(c: Chain, a: Address, v: Hash, m: Message): Chain {
    c.(bound := c.bound[a := v], bindings := c.bindings[Slot(a, v) := m])
  }

  /** Binding a free account to a value read from it and never seen before: the value is the
      current one. */
  lemma BindKeeps(pool: Pool, c: Chain, a: Address, v: Hash, m: Message)
    requires ChainOk(pool, c) && CanBind(pool, a, v) && v in c.history[a]
    requires AdvancedNonceAccount(m).Some? && SlotOf(m) == Slot(a, v)
    ensures ChainOk(Bound(pool, a, v), BoundAt(c, a, v, m)) && v == Last(c.history[a])
  {
    hide InStep, BindingsAgree, SignedAgree, LandedAgree;
    AccountInStep(pool, c.history, c.bound, a);
    BindInStep(pool[a], c.history[a], BoundTo(c.bound, a), v);
    OneMoves(pool, c.history, c.bound, Bound(pool, a, v), c.history, c.bound[a := v], a);
    UnboundYet(pool, c, a, v);
    BindingAdded(pool, c, a, v, m);
  }

  lemma UnboundYet(pool: Pool, c: Chain, a: Address, v: Hash)
    requires BindingsAgree(pool, c.bindings) && CanBind(pool, a, v)
    ensures Slot(a, v) !in c.bindings
  {}

  lemma BindInStep(account: NonceAccount, h: seq<Hash>, bound: Option<Hash>, v: Hash)
    requires InStep(account, h, bound) && !account.bound && v in h && v !in account.seen
    ensures v == Last(h) && InStep(NonceAccount(true, account.seen + {v}), h, Some(v))
  {
    UnseenReadIsCurrent(account, h, v);
    assert h == h[..|h| - 1] + [v];
    ElemsAppend(h[..|h| - 1], v);
  }

  lemma BindingAdded(pool: Pool, c: Chain, a: Address, v: Hash, m: Message)
    requires BindingsAgree(pool, c.bindings) && SignedAgree(c.signed, c.bindings) && LandedAgree(c)
    requires CanBind(pool, a, v) && Slot(a, v) !in c.bindings
    requires AdvancedNonceAccount(m).Some? && SlotOf(m) == Slot(a, v)
    ensures BindingsAgree(Bound(pool, a, v), BoundAt(c, a, v, m).bindings)
    ensures SignedAgree(c.signed, BoundAt(c, a, v, m).bindings)
    ensures LandedAgree(BoundAt(c, a, v, m))
  {
    var pool', bindings' := Bound(pool, a, v), c.bindings[Slot(a, v) := m];
    forall k ensures k in bindings' <==> HasSeen(pool', k.account, k.nonce) {
      assert k in c.bindings <==> HasSeen(pool, k.account, k.nonce);
    }
  }

  /** Signing the message an account is bound to. */
  lemma SignKeeps(pool: Pool, c: Chain, a: Address)
    requires ChainOk(pool, c) && a in c.bound && Slot(a, c.bound[a]) in c.bindings
    ensures ChainOk(pool, c.(signed := c.signed + {c.bindings[Slot(a, c.bound[a])]}))
  {
    hide AllInStep;
    var m := c.bindings[Slot(a, c.bound[a])];
    assert SignedAgree(c.signed + {m}, c.bindings);
    assert LandedAgree(c.(signed := c.signed + {m}));
  }

  ghost function LandedAt(c: Chain, m: Message, next: Hash, ok: bool): Chain
    requires AdvancedNonceAccount(m).Some? && SlotOf(m).account in c.history
  {
    var a := SlotOf(m).account;
    c.(history := c.history[a := c.history[a] + [next]], landed := c.landed[SlotOf(m) := Execution(m, ok)])
  }

  /** The chain includes a signed message that carries the current value, and the account moves
      to a value it never had. */
  ghost predicate CanLand(c: Chain, m: Message, next: Hash) {
    && m in c.signed && AdvancedNonceAccount(m).Some?
    && SlotOf(m).account in c.history && c.history[SlotOf(m).account] != []
    && m.blockhash == Last(c.history[SlotOf(m).account]) && next !in c.history[SlotOf(m).account]
  }

  /** Whatever lands is the transaction its account is bound to, and it lands once. */
  lemma LandKeeps(pool: Pool, c: Chain, m: Message, next: Hash, ok: bool)
    requires ChainOk(pool, c) && CanLand(c, m, next)
    ensures ChainOk(pool, LandedAt(c, m, next, ok))
    ensures SlotOf(m) !in c.landed && SlotOf(m).account in c.bound && c.bound[SlotOf(m).account] == m.blockhash
  {
    var a, v, c' := SlotOf(m).account, m.blockhash, LandedAt(c, m, next, ok);
    assert HasSeen(pool, a, v);
    LandingAdds(c, m, next, ok);
    hide InStep, BindingsAgree, SignedAgree, LandedAgree;
    AccountInStep(pool, c.history, c.bound, a);
    LandInStep(pool[a], c.history[a], BoundTo(c.bound, a), v, next);
    OneMoves(pool, c.history, c.bound, pool, c'.history, c.bound, a);
    NotLandedYet(c, m, next);
  }

  lemma NotLandedYet(c: Chain, m: Message, next: Hash)
    requires LandedAgree(c) && CanLand(c, m, next) && Distinct(c.history[SlotOf(m).account])
    ensures SlotOf(m) !in c.landed
  {
    LastNotPast(c.history[SlotOf(m).account]);
    assert !UsedUp(c.history, SlotOf(m));
  }

  lemma LandInStep(account: NonceAccount, h: seq<Hash>, bound: Option<Hash>, v: Hash, next: Hash)
    requires InStep(account, h, bound) && v in account.seen && v == Last(h) && next !in h
    ensures bound == Some(v) && InStep(account, h + [next], Some(v)) && Distinct(h)
  {
    LastNotPast(h);
    assert (h + [next])[..|h|] == h;
  }

  lemma LastNotPast(h: seq<Hash>)
    requires h != [] && Distinct(h)
    ensures Last(h) !in Past(h)
  {}

  lemma LandingAdds(c: Chain, m: Message, next: Hash, ok: bool)
    requires LandedAgree(c) && SignedAgree(c.signed, c.bindings) && CanLand(c, m, next)
    ensures LandedAgree(LandedAt(c, m, next, ok))
  {
    var a, c' := SlotOf(m).account, LandedAt(c, m, next, ok);
    var h, h' := c.history[a], c.history[a] + [next];
    assert h'[..|h'| - 1] == h == h[..|h| - 1] + [Last(h)];
    forall k ensures k in c'.landed <==> UsedUp(c'.history, k) {
      assert k in c.landed <==> UsedUp(c.history, k);
    }
  }

  ghost function FreedAt(c: Chain, a: Address): Chain {
    c.(bound := c.bound - {a})
  }

  /** Releasing an account once its transaction has landed. */
  lemma FreeKeeps(pool: Pool, c: Chain, a: Address)
    requires ChainOk(pool, c) && a in c.bound && Slot(a, c.bound[a]) in c.landed
    ensures CanFree(pool, a) && ChainOk(Freed(pool, a), FreedAt(c, a))
  {
    hide InStep, BindingsAgree, SignedAgree;
    AccountInStep(pool, c.history, c.bound, a);
    assert UsedUp(c.history, Slot(a, c.bound[a]));
    FreeBindings(pool, c.bindings, a);
    FreeInStep(pool[a], c.history[a], c.bound[a]);
    OneMoves(pool, c.history, c.bound, Freed(pool, a), c.history, c.bound - {a}, a);
  }

  lemma FreeBindings(pool: Pool, bindings: map<Slot, Message>, a: Address)
    requires BindingsAgree(pool, bindings) && a in pool
    ensures BindingsAgree(Freed(pool, a), bindings)
  {
    forall k: Slot ensures HasSeen(Freed(pool, a), k.account, k.nonce) <==> HasSeen(pool, k.account, k.nonce) {}
  }

  lemma FreeInStep(account: NonceAccount, h: seq<Hash>, v: Hash)
    requires InStep(account, h, Some(v)) && v in Past(h)
    ensures account.bound && InStep(account.(bound := false), h, None)
  {
    LastNotPast(h);
  }
}
