/** The pool of durable nonce accounts (minter/src/state/nonce_pool/mod.rs). */
module NoncePool {
  import opened Prelude
  import opened Solana

  /** Whether the account is bound to an in-flight transaction, and every nonce value ever bound. */
  datatype NonceAccount = NonceAccount(bound: bool, seen: set<Hash>)

  type Pool = map<Address, NonceAccount>

  datatype NonceRead = Unchanged | Stale | Advanced

  /** Neither repeated nor already in the pool. */
  ghost predicate CanAdd(p: Pool, addresses: seq<Address>) {
    Distinct(addresses) && forall a | a in addresses :: a !in p
  }

  function Added(p: Pool, addresses: seq<Address>): Pool {
    p + map a | a in addresses :: NonceAccount(false, {})
  }

  predicate CanBind(p: Pool, a: Address, nonce: Hash) {
    a in p && !p[a].bound && nonce !in p[a].seen
  }

  function Bound(p: Pool, a: Address, nonce: Hash): Pool
    requires a in p
  {
    p[a := NonceAccount(true, p[a].seen + {nonce})]
  }

  predicate CanFree(p: Pool, a: Address) {
    a in p && p[a].bound
  }

  function Freed(p: Pool, a: Address): Pool
    requires a in p
  {
    p[a := p[a].(bound := false)]
  }

  predicate HasSeen(p: Pool, a: Address, nonce: Hash) {
    a in p && nonce in p[a].seen
  }

  function ClassifyRead(p: Pool, a: Address, boundNonce: Hash, readNonce: Hash): NonceRead {
    if readNonce == boundNonce then Unchanged
    else if HasSeen(p, a, readNonce) then Stale
    else Advanced
  }

  class DurableNoncePool {
    var accounts: Pool

    constructor ()
      ensures accounts == map[]
    {
      accounts := map[];
    }

    /** Adds all the addresses, or none and reports a repeated one. */
    method AddAccounts(addresses: seq<Address>) returns (duplicate: Option<Address>)
      modifies this
      ensures duplicate.None? <==> CanAdd(old(accounts), addresses)
      ensures duplicate.None? ==> accounts == Added(old(accounts), addresses)
      ensures duplicate.Some? ==> accounts == old(accounts) && duplicate.value in addresses
    {
      var additions: Pool := map[];
      var i := 0;
      while i < |addresses|
        invariant 0 <= i <= |addresses|
        invariant CanAdd(accounts, addresses[..i])
        invariant additions == map a | a in addresses[..i] :: NonceAccount(false, {})
        invariant accounts == old(accounts)
      {
        if addresses[i] in accounts || addresses[i] in additions {
          return Some(addresses[i]);
        }
        additions := additions[addresses[i] := NonceAccount(false, {})];
        i := i + 1;
      }
      assert addresses[..i] == addresses;
      accounts := accounts + additions;
      return None;
    }

    /** Records the nonce value as seen and occupies the account. */
    method Bind(a: Address, nonce: Hash)
      requires CanBind(accounts, a, nonce)
      modifies this
      ensures accounts == Bound(old(accounts), a, nonce)
    {
      var account := accounts[a];
      account := account.(seen := account.seen + {nonce});
      account := account.(bound := true);
      accounts := accounts[a := account];
    }

    method Free(a: Address)
      requires CanFree(accounts, a)
      modifies this
      ensures accounts == Freed(old(accounts), a)
    {
      accounts := accounts[a := accounts[a].(bound := false)];
    }
  }
}
