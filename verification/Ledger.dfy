/** The account ledger (crates/consensus/src/account.rs). */
module Ledger {
  import opened Numbers
  import opened Collections

  type u8 = x: int | 0 <= x < 256
  type Bytes = seq<u8>

  datatype Account = Account(objectId: ObjectId, balance: u64, nonce: u64, publicKey: Option<Bytes>)

  type Accounts = map<ObjectId, Account>

  datatype AccountError =
    | AccountExists
    | AccountNotFound
    | BalanceOverflow
    | InsufficientBalance
    | CostOverflow
    | NonceOverflow

  function FreshAccount(id: ObjectId): Account { Account(id, 0, 0, None) }

  function CreateAccount(a: Accounts, id: ObjectId): Result<Accounts, AccountError> {
    if id in a then Err(AccountExists) else Ok(a[id := FreshAccount(id)])
  }

  function Credit(a: Accounts, id: ObjectId, amount: u64): Result<Accounts, AccountError> {
    if id !in a then Err(AccountNotFound)
    else
      match CheckedAdd64(a[id].balance, amount)
      case None => Err(BalanceOverflow)
      case Some(balance) => Ok(a[id := a[id].(balance := balance)])
  }

  function CanCredit(a: Accounts, id: ObjectId, amount: u64): bool {
    id in a ==> CheckedAdd64(a[id].balance, amount).Some?
  }

  function Debit(a: Accounts, id: ObjectId, amount: u64): Result<Accounts, AccountError> {
    if id !in a then Err(AccountNotFound)
    else if a[id].balance < amount then Err(InsufficientBalance)
    else Ok(a[id := a[id].(balance := a[id].balance - amount)])
  }

  /** `credit_or_create_account`: rewards and withdrawals open missing accounts. */
  function CreditOrCreate(a: Accounts, id: ObjectId, amount: u64): Result<Accounts, AccountError> {
    if amount == 0 then Ok(a)
    else Credit(if id in a then a else a[id := FreshAccount(id)], id, amount)
  }

  function Transfer(a: Accounts, from: ObjectId, to: ObjectId, amount: u64, fee: u64): Result<Accounts, AccountError> {
    match CheckedAdd64(amount, fee)
    case None => Err(CostOverflow)
    case Some(total) =>
      if from !in a then Err(AccountNotFound)
      else if a[from].balance < total then Err(InsufficientBalance)
      else if a[from].nonce == U64_MAX then Err(NonceOverflow)
      else
        var ready := if to in a then a else a[to := FreshAccount(to)];
        if from != to && ready[to].balance + amount > U64_MAX then Err(BalanceOverflow)
        else
          var debited := ready[from := ready[from].(balance := ready[from].balance - total, nonce := ready[from].nonce + 1)];
          Ok(debited[to := debited[to].(balance := debited[to].balance + amount)])
  }

  // ---- Laws ----

  ghost predicate AccountsOk(a: Accounts) {
    forall id :: id in a ==> a[id].objectId == id
  }

  function BalanceMap(a: Accounts): map<ObjectId, nat> {
    map id | id in a :: a[id].balance
  }

  ghost function TotalBalance(a: Accounts): nat { Total(BalanceMap(a)) }

  function BalanceOf(a: Accounts, id: ObjectId): nat { if id in a then a[id].balance else 0 }

  function NonceOf(a: Accounts, id: ObjectId): nat { if id in a then a[id].nonce else 0 }

  lemma SetBalanceTotal(a: Accounts, id: ObjectId, account: Account)
    ensures TotalBalance(a[id := account]) == TotalBalance(a) - BalanceOf(a, id) + account.balance
    ensures BalanceOf(a, id) <= TotalBalance(a)
  {
    assert BalanceMap(a[id := account]) == BalanceMap(a)[id := account.balance];
    TotalUpdate(BalanceMap(a), id, account.balance);
  }

  lemma CreditOrCreateTotal(a: Accounts, id: ObjectId, amount: u64)
    requires CreditOrCreate(a, id, amount).Ok?
    ensures TotalBalance(CreditOrCreate(a, id, amount).value) == TotalBalance(a) + amount
  {
    if amount > 0 {
      var ready := if id in a then a else a[id := FreshAccount(id)];
      var credited := ready[id].(balance := BalanceOf(a, id) + amount);
      SetBalanceTotal(a, id, credited);
      assert CreditOrCreate(a, id, amount).value == a[id := credited];
    }
    hide TotalBalance;
  }

  lemma CreditOrCreateAdds(a: Accounts, id: ObjectId, amount: u64)
    requires TotalBalance(a) + amount <= U64_MAX
    ensures CreditOrCreate(a, id, amount).Ok?
    ensures var b := CreditOrCreate(a, id, amount).value;
      && TotalBalance(b) == TotalBalance(a) + amount
      && BalanceOf(b, id) == BalanceOf(a, id) + amount
      && b - {id} == a - {id}
      && (forall j :: NonceOf(b, j) == NonceOf(a, j))
      && (AccountsOk(a) ==> AccountsOk(b))
      && CanCredit(a, id, amount)
  {
    BalanceWithin(a, id);
    CreditOrCreateTotal(a, id, amount);
    hide TotalBalance;
  }

  lemma BalanceWithin(a: Accounts, id: ObjectId)
    ensures BalanceOf(a, id) <= TotalBalance(a)
  {
    SetBalanceTotal(a, id, FreshAccount(id));
  }

  lemma TransferTotal(a: Accounts, from: ObjectId, to: ObjectId, amount: u64, fee: u64)
    requires Transfer(a, from, to, amount, fee).Ok?
    ensures TotalBalance(Transfer(a, from, to, amount, fee).value) + fee == TotalBalance(a)
  {
    var b := Transfer(a, from, to, amount, fee).value;
    var ready := if to in a then a else a[to := FreshAccount(to)];
    var payer := ready[from].(balance := ready[from].balance - (amount + fee), nonce := ready[from].nonce + 1);
    var payee := ready[from := payer][to].(balance := ready[from := payer][to].balance + amount);
    assert b == ready[from := payer][to := payee];
    hide Transfer, TotalBalance;
    if to !in a { SetBalanceTotal(a, to, FreshAccount(to)); }
    SetBalanceTotal(ready, from, payer);
    SetBalanceTotal(ready[from := payer], to, payee);
  }

  lemma TransferEffects(a: Accounts, from: ObjectId, to: ObjectId, amount: u64, fee: u64)
    requires Transfer(a, from, to, amount, fee).Ok?
    ensures var b := Transfer(a, from, to, amount, fee).value;
      && (from != to ==> BalanceOf(b, from) + amount + fee == BalanceOf(a, from) && BalanceOf(b, to) == BalanceOf(a, to) + amount)
      && (from == to ==> BalanceOf(b, from) + fee == BalanceOf(a, from))
      && (forall j :: NonceOf(b, j) == NonceOf(a, j) + if j == from then 1 else 0)
      && b - {from, to} == a - {from, to}
      && from in b
      && (AccountsOk(a) ==> AccountsOk(b))
  {
  }

  /** A transfer loses exactly its fee, moves exactly `amount` and bumps only the
      sender's nonce. */
  lemma TransferMoves(a: Accounts, from: ObjectId, to: ObjectId, amount: u64, fee: u64)
    requires Transfer(a, from, to, amount, fee).Ok?
    ensures var b := Transfer(a, from, to, amount, fee).value;
      && TotalBalance(b) + fee == TotalBalance(a)
      && (from != to ==> BalanceOf(b, from) + amount + fee == BalanceOf(a, from) && BalanceOf(b, to) == BalanceOf(a, to) + amount)
      && (from == to ==> BalanceOf(b, from) + fee == BalanceOf(a, from))
      && (forall j :: NonceOf(b, j) == NonceOf(a, j) + if j == from then 1 else 0)
      && b - {from, to} == a - {from, to}
      && from in b
      && (AccountsOk(a) ==> AccountsOk(b))
  {
    TransferTotal(a, from, to, amount, fee);
    TransferEffects(a, from, to, amount, fee);
  }

  /** A transfer is refused exactly when the sender is missing, cannot pay amount
      plus fee, or has used up its nonces, as long as all balances fit in u64. */
  lemma TransferFailsOnly(a: Accounts, from: ObjectId, to: ObjectId, amount: u64, fee: u64)
    requires TotalBalance(a) <= U64_MAX
    ensures Transfer(a, from, to, amount, fee).Err?
       <==> from !in a || a[from].balance < (amount as int) + fee || a[from].nonce == U64_MAX
  {
    if from in a && from != to {
      SetBalanceTotal(a, from, a[from].(balance := 0));
      SetBalanceTotal(a[from := a[from].(balance := 0)], to, FreshAccount(to));
    }
  }

  // ---- The store ----

  class AccountStore {
    var accounts: Accounts

    constructor ()
      ensures accounts == map[]
    {
      accounts := map[];
    }

    /** `load_from_accounts`. */
    constructor FromAccounts(list: seq<Account>)
      ensures accounts == Loaded(list)
    {
      accounts := map[];
      new;
      for i := 0 to |list|
        invariant accounts == Loaded(list[..i])
      {
        assert list[..i + 1][..i] == list[..i];
        accounts := accounts[list[i].objectId := list[i]];
      }
      assert list[..|list|] == list;
    }

    method Create(id: ObjectId) returns (r: Result<(), AccountError>)
      modifies this
      ensures match CreateAccount(old(accounts), id)
              case Ok(a) => r == Ok(()) && accounts == a
              case Err(e) => r == Err(e) && accounts == old(accounts)
    {
      if id in accounts { return Err(AccountExists); }
      accounts := accounts[id := FreshAccount(id)];
      return Ok(());
    }

    method CreditAccount(id: ObjectId, amount: u64) returns (r: Result<(), AccountError>)
      modifies this
      ensures match Credit(old(accounts), id, amount)
              case Ok(a) => r == Ok(()) && accounts == a
              case Err(e) => r == Err(e) && accounts == old(accounts)
    {
      if id !in accounts { return Err(AccountNotFound); }
      var account := accounts[id];
      match CheckedAdd64(account.balance, amount) {
        case None => return Err(BalanceOverflow);
        case Some(balance) =>
          accounts := accounts[id := account.(balance := balance)];
          return Ok(());
      }
    }

    method DebitAccount(id: ObjectId, amount: u64) returns (r: Result<(), AccountError>)
      modifies this
      ensures match Debit(old(accounts), id, amount)
              case Ok(a) => r == Ok(()) && accounts == a
              case Err(e) => r == Err(e) && accounts == old(accounts)
    {
      if id !in accounts { return Err(AccountNotFound); }
      var account := accounts[id];
      if account.balance < amount { return Err(InsufficientBalance); }
      accounts := accounts[id := account.(balance := account.balance - amount)];
      return Ok(());
    }

    method CreditOrCreateAccount(id: ObjectId, amount: u64) returns (r: Result<(), AccountError>)
      modifies this
      ensures CreditOrCreate(old(accounts), id, amount).Ok? ==>
                r == Ok(()) && accounts == CreditOrCreate(old(accounts), id, amount).value
      ensures CreditOrCreate(old(accounts), id, amount).Err? ==>
                r == Err(CreditOrCreate(old(accounts), id, amount).error) && accounts == old(accounts)
    {
      if amount == 0 { return Ok(()); }
      if id !in accounts {
        var created := Create(id);
      }
      r := CreditAccount(id, amount);
    }

    /** The in-place transfer: it opens the recipient before its last check, yet a
        refused transfer leaves every account as it was. */
    method TransferBetween(from: ObjectId, to: ObjectId, amount: u64, fee: u64) returns (r: Result<(), AccountError>)
      modifies this
      ensures match Transfer(old(accounts), from, to, amount, fee)
              case Ok(a) => r == Ok(()) && accounts == a
              case Err(e) => r == Err(e) && accounts == old(accounts)
    {
      var cost := CheckedAdd64(amount, fee);
      if cost.None? { return Err(CostOverflow); }
      if from !in accounts { return Err(AccountNotFound); }
      if accounts[from].balance < cost.value { return Err(InsufficientBalance); }
      var nonce := accounts[from].nonce;
      if CheckedAdd64(nonce, 1).None? { return Err(NonceOverflow); }
      if to !in accounts {
        accounts := accounts[to := FreshAccount(to)];
      }
      if from != to {
        if CheckedAdd64(accounts[to].balance, amount).None? { return Err(BalanceOverflow); }
      }
      var balanceBefore := accounts[from].balance;
      accounts := accounts[from := accounts[from].(balance := balanceBefore - cost.value)];
      accounts := accounts[from := accounts[from].(nonce := nonce + 1)];
      var recipientBalance := accounts[to].balance;
      accounts := accounts[to := accounts[to].(balance := recipientBalance + amount)];
      return Ok(());
    }
  }

  // ---- Persistence ----

  function Loaded(list: seq<Account>): Accounts {
    if list == [] then map[]
    else Loaded(list[..|list| - 1])[list[|list| - 1].objectId := list[|list| - 1]]
  }

  /** Any order in which `all_accounts` may list the map. */
  ghost predicate ListsAccounts(list: seq<Account>, a: Accounts) {
    && (forall i :: 0 <= i < |list| ==> list[i] in a.Values)
    && (forall id :: id in a ==> a[id] in list)
  }

  lemma {:induction false} LoadedEntries(list: seq<Account>)
    ensures forall id :: id in Loaded(list) ==> Loaded(list)[id] in list && Loaded(list)[id].objectId == id
    ensures forall x :: x in list ==> x.objectId in Loaded(list)
  {
    if list != [] {
      LoadedEntries(list[..|list| - 1]);
      assert list == list[..|list| - 1] + [list[|list| - 1]];
    }
  }

  /** Saving and loading the accounts gives the same accounts in whatever order
      the hash map was written out. */
  lemma AccountsRoundTrip(list: seq<Account>, a: Accounts)
    requires AccountsOk(a) && ListsAccounts(list, a)
    ensures Loaded(list) == a
  {
    LoadedEntries(list);
    forall id | id in a ensures id in Loaded(list) && Loaded(list)[id] == a[id] {
      assert a[id] in list;
      assert Loaded(list)[id] in a.Values;
    }
    forall id | id in Loaded(list) ensures id in a {
      assert Loaded(list)[id] in list && Loaded(list)[id] in a.Values;
    }
  }
}
