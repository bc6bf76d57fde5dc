/** The state a chain starts from (crates/consensus/src/genesis.rs,
    crates/node/src/node.rs). */
module Genesis {
  import opened Numbers
  import opened Emission
  import opened Collections
  import opened Ledger
  import opened Refiner
  import opened RefinerInvariant
  import opened Chain
  import opened BlockApplication
  import opened Supply

  datatype GenesisAccount = GenesisAccount(id: ObjectId, amount: u64, publicKey: Bytes)

  datatype GenesisConfig = GenesisConfig(
    difficulty: u64,
    baseReward: u64,
    timestamp: u64,
    hash: Hash,
    stateRoot: Hash,
    accounts: seq<GenesisAccount>)

  function Opened(a: Accounts, g: GenesisAccount): Accounts {
    var account := if g.id in a then a[g.id] else FreshAccount(g.id);
    a[g.id := if g.publicKey != [] then account.(publicKey := Some(g.publicKey)) else account]
  }

  /** `apply_genesis_accounts`: the accounts it leaves and the total it has given out
      since `issued`; None when a balance or the total overflows on the way. */
  function Allocate(a: Accounts, issued: u64, list: seq<GenesisAccount>): (Accounts, Option<u64>)
    decreases |list|
  {
    if list == [] then (a, Some(issued))
    else
      var g, ready := list[0], Opened(a, list[0]);
      match Credit(ready, g.id, g.amount)
      case Err(_) => (ready, None)
      case Ok(b) =>
        match CheckedAdd64(issued, g.amount)
        case None => (b, None)
        case Some(total) => Allocate(b, total, list[1..])
  }

  /** `ensure_local_producer_account`: None where the node refuses to start. */
  function RegisterLocal(a: Accounts, id: ObjectId, key: Option<Bytes>): Option<Accounts> {
    if key.None? || id == 0 then Some(a)
    else
      var account := if id in a then a[id] else FreshAccount(id);
      if account.publicKey.Some? && account.publicKey != key then None
      else Some(a[id := account.(publicKey := key)])
  }

  function GenesisChain(g: GenesisConfig, issued: u64): ChainState {
    ChainState(0, g.difficulty, issued, 0, RecordGenesis(EMPTY_LEDGER, issued), [g.timestamp], g.hash, g.stateRoot, MIN_FEE,
               map[], g.baseReward, 0, map[])
  }

  const NO_REFINERS := RefinerState(map[], [], {}, [])

  /** A fresh node: genesis allocation, no refiners, an empty pool. */
  function FreshNode(g: GenesisConfig, localId: ObjectId, localKey: Option<Bytes>, store: Option<Storage>): Option<NodeState> {
    var (a, issued) := Allocate(map[], 0, g.accounts);
    match issued
    case None => None
    case Some(total) =>
      match RegisterLocal(a, localId, localKey)
      case None => None
      case Some(b) => Some(NodeState(GenesisChain(g, total), b, NO_REFINERS, map[], store))
  }

  ghost predicate IsGenesis(n: NodeState) {
    exists g, id, key, store :: IsFresh(n, g, id, key, store)
  }

  ghost predicate IsFresh(n: NodeState, g: GenesisConfig, id: ObjectId, key: Option<Bytes>, store: Option<Storage>) {
    && FreshNode(g, id, key, store) == Some(n)
    && (store.Some? ==> store.value == Storage(map[], map[], None))
  }

  lemma OpenedCredited(a: Accounts, g: GenesisAccount)
    requires AccountsOk(a) && Credit(Opened(a, g), g.id, g.amount).Ok?
    ensures var b := Credit(Opened(a, g), g.id, g.amount).value;
      AccountsOk(b) && TotalBalance(b) == TotalBalance(a) + g.amount && forall id :: NonceOf(b, id) == NonceOf(a, id)
  {
    var ready := Opened(a, g);
    var b := Credit(ready, g.id, g.amount).value;
    SetBalanceTotal(a, g.id, ready[g.id]);
    SetBalanceTotal(a, g.id, b[g.id]);
    assert b == a[g.id := b[g.id]];
    hide TotalBalance;
  }

  /** The allocation gives out exactly what it reports and uses no nonce. */
  lemma {:induction false} AllocateIssues(a: Accounts, issued: u64, list: seq<GenesisAccount>)
    requires AccountsOk(a)
    ensures var (b, total) := Allocate(a, issued, list);
      total.Some? ==>
        && AccountsOk(b)
        && TotalBalance(b) + issued == TotalBalance(a) + total.value
        && forall id :: NonceOf(b, id) == NonceOf(a, id)
    decreases |list|
  {
    hide Credit, Opened, TotalBalance, AccountsOk, NonceOf;
    if list != [] {
      var g := list[0];
      var credited := Credit(Opened(a, g), g.id, g.amount);
      if credited.Ok? {
        OpenedCredited(a, g);
        var total := CheckedAdd64(issued, g.amount);
        if total.Some? { AllocateIssues(credited.value, total.value, list[1..]); }
      }
    }
  }

  lemma RegisterLocalKeeps(a: Accounts, id: ObjectId, key: Option<Bytes>)
    requires RegisterLocal(a, id, key).Some? && AccountsOk(a)
    ensures TotalBalance(RegisterLocal(a, id, key).value) == TotalBalance(a) && AccountsOk(RegisterLocal(a, id, key).value)
  {
    var b := RegisterLocal(a, id, key).value;
    if b != a { SetBalanceTotal(a, id, b[id]); }
  }

  lemma NothingBonded()
    ensures RefInv(NO_REFINERS) && Custody(NO_REFINERS) == 0
  {
    assert PlainStakes(map[]) == map[];
    assert AsActive(map[]) == {} && AsSet([]) == {};
  }

  /** The genesis allocation is exactly what the chain says it issued. */
  lemma GenesisBalances(n: NodeState)
    requires IsGenesis(n)
    ensures MoneyInv(n) && n.chain.burned == 0 && n.refiners == NO_REFINERS && n.chain.height == 0
    ensures n.chain.ledger == RecordGenesis(EMPTY_LEDGER, n.chain.issued) && |n.chain.timestamps| == 1
    ensures n.chain.finality == map[] && n.chain.finalizedHeight == 0 && n.pool == map[]
    ensures n.store.Some? ==> n.store.value == Storage(map[], map[], None)
  {
    hide Allocate, RegisterLocal, RefInv, Custody, TotalBalance, AccountsOk;
    var g, id, key, store :| IsFresh(n, g, id, key, store);
    NoAccounts();
    AllocateIssues(map[], 0, g.accounts);
    RegisterLocalKeeps(Allocate(map[], 0, g.accounts).0, id, key);
    NothingBonded();
  }

  lemma NoAccounts()
    ensures AccountsOk(map[]) && TotalBalance(map[]) == 0
  {
    assert BalanceMap(map[]) == map[];
  }

  /** The allocation loop, crediting accounts in place from whatever they held. */
  method ApplyGenesisAccounts(list: seq<GenesisAccount>, accounts: AccountStore) returns (issued: Option<u64>)
    modifies accounts
    ensures (accounts.accounts, issued) == Allocate(old(accounts.accounts), 0, list)
  {
    var total: u64 := 0;
    ghost var start := accounts.accounts;
    assert list[0..] == list;
    for i := 0 to |list|
      invariant Allocate(accounts.accounts, total, list[i..]) == Allocate(start, 0, list)
    {
      assert list[i..][0] == list[i] && list[i..][1..] == list[i + 1..];
      var g := list[i];
      ghost var before := accounts.accounts;
      if g.id !in accounts.accounts {
        var created := accounts.Create(g.id);
      }
      if g.publicKey != [] {
        accounts.accounts := accounts.accounts[g.id := accounts.accounts[g.id].(publicKey := Some(g.publicKey))];
      }
      assert accounts.accounts == Opened(before, g);
      var credited := accounts.CreditAccount(g.id, g.amount);
      if credited.Err? { return None; }
      var sum := CheckedAdd64(total, g.amount);
      if sum.None? { return None; }
      total := sum.value;
    }
    issued := Some(total);
  }

  /** `ensure_local_producer_account` in place; false where the node refuses to start. */
  method RegisterLocalProducer(id: ObjectId, key: Option<Bytes>, accounts: AccountStore) returns (ok: bool)
    modifies accounts
    ensures match RegisterLocal(old(accounts.accounts), id, key)
            case None => !ok
            case Some(a) => ok && accounts.accounts == a
  {
    if key.None? || id == 0 { return true; }
    if id !in accounts.accounts {
      var created := accounts.Create(id);
    }
    var account := accounts.accounts[id];
    if account.publicKey.Some? { return account.publicKey == key; }
    accounts.accounts := accounts.accounts[id := account.(publicKey := key)];
    return true;
  }

  // ---- Two nodes from one genesis ----

  /** Starting up writes the local key into the accounts. */
  predicate Registers(a: Accounts, id: ObjectId, key: Option<Bytes>) {
    key.Some? && id != 0 && (id in a ==> a[id].publicKey.None?)
  }

  /** Two nodes of one configuration start with the same state exactly when both start
      without registering a local producer, or both register the same one. */
  lemma FreshNodesAgreeIff(g: GenesisConfig, id1: ObjectId, key1: Option<Bytes>, id2: ObjectId, key2: Option<Bytes>, n: NodeState, m: NodeState, store: Option<Storage>)
    requires FreshNode(g, id1, key1, store) == Some(n) && FreshNode(g, id2, key2, store) == Some(m)
    ensures var a := Allocate(map[], 0, g.accounts).0;
      n == m <==>
        if Registers(a, id1, key1) then Registers(a, id2, key2) && id1 == id2 && key1 == key2
        else !Registers(a, id2, key2)
  {
    hide Allocate;
    var a := Allocate(map[], 0, g.accounts).0;
    RegisterWrites(a, id1, key1);
    RegisterWrites(a, id2, key2);
  }

  lemma RegisterWrites(a: Accounts, id: ObjectId, key: Option<Bytes>)
    requires RegisterLocal(a, id, key).Some?
    ensures var b := RegisterLocal(a, id, key).value;
      && (Registers(a, id, key) ==> id in b && b[id].publicKey == key && (id in a ==> a[id] != b[id]) && b - {id} == a - {id})
      && (!Registers(a, id, key) ==> b == a)
  {
  }
}
