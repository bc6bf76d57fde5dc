/** Transaction execution (crates/execution/src/dispatcher.rs). */
module Dispatcher {
  import opened Numbers
  import opened IntegerSqrt
  import opened Emission
  import opened Collections
  import opened Ledger
  import opened Types
  import opened Refiner
  import opened RefinerInvariant
  import opened RefinerStore

  const MAINNET_CHAIN_ID: u64 := 1
  const DECIMAL_PLACES: u128 := 6

  datatype TxError =
    | NotVerified
    | FeeBelowMinimum
    | WrongNonce
    | NonceExhausted
    | SenderNotFound
    | AmountOverflow
    | CannotPay
    | AccountFailure(accountError: AccountError)
    | RefinerFailure(refinerError: RefinerError)
    | RefundFailed

  datatype TxResult = TxOk(fee: u64, assay: u64) | TxErr(error: TxError)

  datatype TxOutcome = TxOutcome(accounts: Accounts, refiners: RefinerState, result: TxResult)

  /** Height, timestamp and issuance a block executes its transactions under. */
  datatype Context = Context(height: u64, timestamp: u64, issued: u64)

  // ---- Assays ----

  lemma RootFits(n: u128)
    ensures SqrtFloor(n) < TWO_64
  {
    RoundFromFloor(n);
  }

  /** The dividing step of `dynamic_assay`, from the two scaled roots. */
  function AssayFrom(amount: u64, pressureRoot: u128, limitRoot: u128): u64 {
    var denominator := SatMul128(DECIMAL_PLACES, limitRoot);
    if denominator == 0 then 0 else ClampU64(Quotient(SatMul128(amount, pressureRoot), denominator))
  }

  function ScaledRatio(numerator: u128, denominator: u128): u128
    requires denominator > 0
  {
    var scaled := SatMul128(SatMul128(numerator, FLAKES_PER_OPL), FLAKES_PER_OPL);
    BaseShareFits(scaled, denominator);
    scaled / denominator
  }

  ghost function Root(n: u128): u128 {
    RootFits(n);
    SqrtFloor(n)
  }

  ghost function DynamicAssay(amount: u64, numerator: u128, denominator: u128, limit: u128): u64 {
    if amount == 0 || numerator == 0 || denominator == 0 then 0
    else AssayFrom(amount, Root(ScaledRatio(numerator, denominator)), Root(ScaledRatio(limit, 1)))
  }

  lemma LimitFits(issued: u64)
    ensures ActiveLimit(issued) <= 960 + TWO_64
  {
    RootFits(issued / FLAKES_PER_OPL);
  }

  ghost function Limit(issued: u64): u128 {
    LimitFits(issued);
    ActiveLimit(issued)
  }

  /** The bonded stake at which every seat holds exactly the minimum bond. */
  ghost function Baseline(issued: u64): u128 {
    SatMul128(MinimumBond(issued), Limit(issued))
  }

  ghost function BondAssay(amount: u64, r: RefinerState, issued: u64): u64 {
    DynamicAssay(amount, SatAdd64(TotalBonded(r), amount), Baseline(issued), Limit(issued))
  }

  ghost function UnbondAssay(amount: u64, r: RefinerState, issued: u64): u64 {
    if TotalBonded(r) == 0 then 0 else DynamicAssay(amount, Baseline(issued), TotalBonded(r), Limit(issued))
  }

  lemma AssayFromMonotone(amount: u64, p: u128, amount': u64, p': u128, l: u128)
    requires amount <= amount' && p <= p'
    ensures AssayFrom(amount, p, l) <= AssayFrom(amount', p', l)
  {
    ProductMonotone(amount, p, amount', p');
    if SatMul128(DECIMAL_PLACES, l) > 0 {
      DivMonotone(SatMul128(amount, p), SatMul128(amount', p'), SatMul128(DECIMAL_PLACES, l));
    }
  }

  lemma ScaledRatioMonotone(n: u128, d: u128, n': u128, d': u128)
    requires 0 < d' <= d && n <= n'
    ensures ScaledRatio(n, d) <= ScaledRatio(n', d')
  {
    var s, s' := SatMul128(SatMul128(n, FLAKES_PER_OPL), FLAKES_PER_OPL), SatMul128(SatMul128(n', FLAKES_PER_OPL), FLAKES_PER_OPL);
    ProductMonotone(s, d', s', d);
    DivCross(s, d, s', d');
  }

  /** An assay never falls when the amount grows or the pressure rises. */
  lemma AssayMonotone(amount: u64, n: u128, d: u128, amount': u64, n': u128, d': u128, limit: u128)
    requires amount <= amount' && n <= n' && 0 < d' <= d
    ensures DynamicAssay(amount, n, d, limit) <= DynamicAssay(amount', n', d', limit)
  {
    ScaledRatioMonotone(n, d, n', d');
    SqrtFloorMonotone(ScaledRatio(n, d), ScaledRatio(n', d'));
    hide ScaledRatio;
    AssayFromMonotone(amount, Root(ScaledRatio(n, d)), amount', Root(ScaledRatio(n', d')), Root(ScaledRatio(limit, 1)));
  }

  // ---- Execution ----

  predicate Verified(c: Crypto, tx: Transaction) {
    && tx.chainId == MAINNET_CHAIN_ID
    && tx.txId == c.txIdOf(tx)
    && tx.signatureType == 0
    && |tx.publicKey| == 32
    && tx.sender == c.idOfKey(tx.publicKey)
    && c.txSigned(tx)
  }

  function BumpNonce(a: Accounts, id: ObjectId): Accounts
    requires id in a && a[id].nonce < U64_MAX
  {
    a[id := a[id].(nonce := a[id].nonce + 1)]
  }

  function TotalCost(amount: u64, fee: u64, assay: u64): Option<u64> {
    match CheckedAdd64(amount, fee)
    case None => None
    case Some(sum) => CheckedAdd64(sum, assay)
  }

  function ApplyTransfer(tx: Transaction, a: Accounts, r: RefinerState, recipient: ObjectId, amount: u64): TxOutcome {
    match Ledger.Transfer(a, tx.sender, recipient, amount, tx.fee)
    case Ok(b) => TxOutcome(b, r, TxOk(tx.fee, 0))
    case Err(e) => TxOutcome(a, r, TxErr(AccountFailure(e)))
  }

  ghost function ApplyBond(tx: Transaction, a: Accounts, r: RefinerState, stake: u64, ctx: Context): TxOutcome
    requires tx.sender in a && a[tx.sender].nonce < U64_MAX
  {
    if stake < MinimumBond(ctx.issued) then TxOutcome(a, r, TxErr(RefinerFailure(InsufficientStake)))
    else
      var assay := BondAssay(stake, r, ctx.issued);
      match TotalCost(stake, tx.fee, assay)
      case None => TxOutcome(a, r, TxErr(AmountOverflow))
      case Some(total) =>
        if a[tx.sender].balance < total then TxOutcome(a, r, TxErr(CannotPay))
        else
          var debited := a[tx.sender := a[tx.sender].(balance := a[tx.sender].balance - total)];
          match Bond(r, tx.sender, stake, ctx.height, ctx.timestamp, ctx.issued)
          case Ok(s) => TxOutcome(BumpNonce(debited, tx.sender), s, TxOk(tx.fee, assay))
          case Err(e) =>
            match Credit(debited, tx.sender, total)
            case Ok(refunded) => TxOutcome(refunded, r, TxErr(RefinerFailure(e)))
            case Err(_) => TxOutcome(debited, r, TxErr(RefundFailed))
  }

  ghost function ApplyUnbond(tx: Transaction, a: Accounts, r: RefinerState, amount: u64, ctx: Context): TxOutcome
    requires tx.sender in a && a[tx.sender].nonce < U64_MAX
  {
    if tx.sender !in r.infos then TxOutcome(a, r, TxErr(RefinerFailure(NotBonded)))
    else if amount == 0 then TxOutcome(a, r, TxErr(RefinerFailure(ZeroUnbond)))
    else
      var assay := UnbondAssay(amount, r, ctx.issued);
      match CheckedAdd64(tx.fee, assay)
      case None => TxOutcome(a, r, TxErr(AmountOverflow))
      case Some(total) =>
        if a[tx.sender].balance < total then TxOutcome(a, r, TxErr(CannotPay))
        else
          match Unbond(r, tx.sender, amount, ctx.height)
          case Err(e) => TxOutcome(a, r, TxErr(RefinerFailure(e)))
          case Ok(s) =>
            var debited := a[tx.sender := a[tx.sender].(balance := a[tx.sender].balance - total)];
            TxOutcome(BumpNonce(debited, tx.sender), s, TxOk(tx.fee, assay))
  }

  function PreCheck(c: Crypto, tx: Transaction, a: Accounts): Option<TxError> {
    if !Verified(c, tx) then Some(NotVerified)
    else if tx.fee < MIN_FEE then Some(FeeBelowMinimum)
    else if tx.sender !in a then Some(SenderNotFound)
    else if a[tx.sender].nonce != tx.nonce then Some(WrongNonce)
    else if a[tx.sender].nonce == U64_MAX then Some(NonceExhausted)
    else None
  }

  ghost function Dispatch(tx: Transaction, a: Accounts, r: RefinerState, ctx: Context): TxOutcome
    requires tx.sender in a && a[tx.sender].nonce < U64_MAX
  {
    match tx.action
    case Transfer(recipient, amount) => ApplyTransfer(tx, a, r, recipient, amount)
    case RefinerBond(amount) => ApplyBond(tx, a, r, amount, ctx)
    case RefinerUnbond(amount) => ApplyUnbond(tx, a, r, amount, ctx)
  }

  /** Registering the sender's key after a success. */
  function StoreKey(a: Accounts, tx: Transaction): Accounts {
    if tx.publicKey != [] && tx.sender in a then a[tx.sender := a[tx.sender].(publicKey := Some(tx.publicKey))] else a
  }

  ghost function ApplyTransaction(c: Crypto, tx: Transaction, a: Accounts, r: RefinerState, ctx: Context): TxOutcome {
    match PreCheck(c, tx, a)
    case Some(e) => TxOutcome(a, r, TxErr(e))
    case None =>
      var out := Dispatch(tx, a, r, ctx);
      if out.result.TxOk? then out.(accounts := StoreKey(out.accounts, tx)) else out
  }

  // ---- What a transaction does ----

  ghost function Holdings(a: Accounts, r: RefinerState): nat { TotalBalance(a) + Custody(r) }

  /** A refused transaction leaves accounts and refiners exactly as they were and
      charges nothing, the refunded bond included. */
  lemma FailureIsNoOp(c: Crypto, tx: Transaction, a: Accounts, r: RefinerState, ctx: Context)
    requires ApplyTransaction(c, tx, a, r, ctx).result.TxErr?
    ensures ApplyTransaction(c, tx, a, r, ctx).accounts == a
    ensures ApplyTransaction(c, tx, a, r, ctx).refiners == r
    ensures !ApplyTransaction(c, tx, a, r, ctx).result.error.RefundFailed?
  {
    hide Bond, Unbond, BondAssay, UnbondAssay, Ledger.Transfer, MinimumBond;
  }

  lemma PayAndBump(a: Accounts, id: ObjectId, total: u64)
    requires id in a && a[id].nonce < U64_MAX && total <= a[id].balance
    ensures var b := Charged(a, id, total);
      && TotalBalance(b) + total == TotalBalance(a)
      && id in b && b - {id} == a - {id}
      && BalanceOf(b, id) + total == BalanceOf(a, id)
      && (forall j :: NonceOf(b, j) == NonceOf(a, j) + if j == id then 1 else 0)
      && (AccountsOk(a) ==> AccountsOk(b))
  {
    var account := a[id].(balance := a[id].balance - total, nonce := a[id].nonce + 1);
    assert Charged(a, id, total) == a[id := account];
    SetBalanceTotal(a, id, account);
  }

  lemma StoreKeyKeeps(a: Accounts, tx: Transaction)
    ensures var b := StoreKey(a, tx);
      && TotalBalance(b) == TotalBalance(a) && b - {tx.sender} == a - {tx.sender}
      && (forall j :: NonceOf(b, j) == NonceOf(a, j) && BalanceOf(b, j) == BalanceOf(a, j))
      && (AccountsOk(a) ==> AccountsOk(b))
  {
    var b := StoreKey(a, tx);
    if b != a { SetBalanceTotal(a, tx.sender, b[tx.sender]); }
  }

  /** What every handler guarantees when it succeeds. */
  ghost predicate Settled(tx: Transaction, a: Accounts, r: RefinerState, out: TxOutcome) {
    && out.result.TxOk?
    && out.result.fee == tx.fee
    && Holdings(out.accounts, out.refiners) + out.result.fee + out.result.assay == Holdings(a, r)
    && RefInv(out.refiners)
    && (forall j :: NonceOf(out.accounts, j) == NonceOf(a, j) + if j == tx.sender then 1 else 0)
    && (forall j :: IsSlashed(r, j) ==> IsSlashed(out.refiners, j))
    && (AccountsOk(a) ==> AccountsOk(out.accounts))
  }

  lemma TransferSettles(tx: Transaction, a: Accounts, r: RefinerState, recipient: ObjectId, amount: u64)
    requires RefInv(r) && ApplyTransfer(tx, a, r, recipient, amount).result.TxOk?
    ensures Settled(tx, a, r, ApplyTransfer(tx, a, r, recipient, amount))
  {
    TransferMoves(a, tx.sender, recipient, amount, tx.fee);
    hide Ledger.Transfer, RefInv, Custody;
  }

  /** The debited and bumped accounts a bond or unbond leaves behind. */
  function Charged(a: Accounts, id: ObjectId, total: u64): Accounts
    requires id in a && a[id].nonce < U64_MAX && total <= a[id].balance
  {
    BumpNonce(a[id := a[id].(balance := a[id].balance - total)], id)
  }

  lemma BondSucceeds(tx: Transaction, a: Accounts, r: RefinerState, stake: u64, ctx: Context) returns (total: u64)
    requires tx.sender in a && a[tx.sender].nonce < U64_MAX
    requires ApplyBond(tx, a, r, stake, ctx).result.TxOk?
    ensures total == (stake as int) + tx.fee + BondAssay(stake, r, ctx.issued) && total <= a[tx.sender].balance
    ensures Bond(r, tx.sender, stake, ctx.height, ctx.timestamp, ctx.issued).Ok?
    ensures ApplyBond(tx, a, r, stake, ctx)
         == TxOutcome(Charged(a, tx.sender, total), Bond(r, tx.sender, stake, ctx.height, ctx.timestamp, ctx.issued).value, TxOk(tx.fee, BondAssay(stake, r, ctx.issued)))
  {
    hide Bond, BondAssay, MinimumBond, Credit, BumpNonce;
    total := TotalCost(stake, tx.fee, BondAssay(stake, r, ctx.issued)).value;
  }

  /** A charge that covers the fee, the assay and whatever moved into custody. */
  lemma ChargedSettles(tx: Transaction, a: Accounts, r: RefinerState, s: RefinerState, total: u64, assay: u64)
    requires tx.sender in a && a[tx.sender].nonce < U64_MAX && total <= a[tx.sender].balance
    requires RefInv(s) && Custody(s) + tx.fee + assay == Custody(r) + total
    requires forall j :: IsSlashed(r, j) ==> IsSlashed(s, j)
    ensures Settled(tx, a, r, TxOutcome(Charged(a, tx.sender, total), s, TxOk(tx.fee, assay)))
  {
    hide RefInv, Custody, IsSlashed, Charged, TotalBalance, AccountsOk;
    PayAndBump(a, tx.sender, total);
  }

  lemma BondSettles(tx: Transaction, a: Accounts, r: RefinerState, stake: u64, ctx: Context)
    requires RefInv(r) && tx.sender in a && a[tx.sender].nonce < U64_MAX
    requires ApplyBond(tx, a, r, stake, ctx).result.TxOk?
    ensures Settled(tx, a, r, ApplyBond(tx, a, r, stake, ctx))
  {
    hide *;
    var total := BondSucceeds(tx, a, r, stake, ctx);
    BondKeeps(r, tx.sender, stake, ctx.height, ctx.timestamp, ctx.issued);
    BondSpares(r, tx.sender, stake, ctx.height, ctx.timestamp, ctx.issued);
    ChargedSettles(tx, a, r, Bond(r, tx.sender, stake, ctx.height, ctx.timestamp, ctx.issued).value, total, BondAssay(stake, r, ctx.issued));
  }

  lemma BondSpares(r: RefinerState, id: ObjectId, stake: u64, height: u64, timestamp: u64, issued: u64)
    requires Bond(r, id, stake, height, timestamp, issued).Ok?
    ensures forall j :: IsSlashed(r, j) ==> IsSlashed(Bond(r, id, stake, height, timestamp, issued).value, j)
  {
  }

  lemma UnbondSucceeds(tx: Transaction, a: Accounts, r: RefinerState, amount: u64, ctx: Context) returns (total: u64)
    requires tx.sender in a && a[tx.sender].nonce < U64_MAX
    requires ApplyUnbond(tx, a, r, amount, ctx).result.TxOk?
    ensures total == (tx.fee as int) + UnbondAssay(amount, r, ctx.issued) && total <= a[tx.sender].balance
    ensures Unbond(r, tx.sender, amount, ctx.height).Ok?
    ensures ApplyUnbond(tx, a, r, amount, ctx)
         == TxOutcome(Charged(a, tx.sender, total), Unbond(r, tx.sender, amount, ctx.height).value, TxOk(tx.fee, UnbondAssay(amount, r, ctx.issued)))
  {
    hide Unbond, UnbondAssay, BumpNonce;
    total := CheckedAdd64(tx.fee, UnbondAssay(amount, r, ctx.issued)).value;
  }

  lemma UnbondSettles(tx: Transaction, a: Accounts, r: RefinerState, amount: u64, ctx: Context)
    requires RefInv(r) && tx.sender in a && a[tx.sender].nonce < U64_MAX
    requires ApplyUnbond(tx, a, r, amount, ctx).result.TxOk?
    ensures Settled(tx, a, r, ApplyUnbond(tx, a, r, amount, ctx))
  {
    hide *;
    var total := UnbondSucceeds(tx, a, r, amount, ctx);
    UnbondKeeps(r, tx.sender, amount, ctx.height);
    UnbondSpares(r, tx.sender, amount, ctx.height);
    ChargedSettles(tx, a, r, Unbond(r, tx.sender, amount, ctx.height).value, total, UnbondAssay(amount, r, ctx.issued));
  }

  lemma UnbondSpares(r: RefinerState, id: ObjectId, amount: u64, height: u64)
    requires RefInv(r) && Unbond(r, id, amount, height).Ok?
    ensures forall j :: IsSlashed(r, j) ==> IsSlashed(Unbond(r, id, amount, height).value, j)
  {
    var entries := UnbondLeft(r, id, amount, height);
  }

  /** A successful transaction takes exactly its fee and assay out of balances,
      stakes and queue together, bumps only the sender's nonce, which it matched,
      and never revives a slashed refiner. */
  lemma SuccessSettles(c: Crypto, tx: Transaction, a: Accounts, r: RefinerState, ctx: Context)
    requires RefInv(r) && ApplyTransaction(c, tx, a, r, ctx).result.TxOk?
    ensures Settled(tx, a, r, ApplyTransaction(c, tx, a, r, ctx))
    ensures tx.sender in a && a[tx.sender].nonce == tx.nonce
  {
    hide ApplyTransfer, ApplyBond, ApplyUnbond, RefInv, Custody, IsSlashed, StoreKey;
    match tx.action {
      case Transfer(recipient, amount) => TransferSettles(tx, a, r, recipient, amount);
      case RefinerBond(amount) => BondSettles(tx, a, r, amount, ctx);
      case RefinerUnbond(amount) => UnbondSettles(tx, a, r, amount, ctx);
    }
    StoreKeyKeeps(Dispatch(tx, a, r, ctx).accounts, tx);
  }

  // ---- Exactly when a transaction succeeds ----

  /** What the action itself needs: enough balance for everything it costs, and a
      refiner that may bond, or holds what it unbonds. */
  ghost predicate Runnable(tx: Transaction, a: Accounts, r: RefinerState, ctx: Context) {
    var balance := BalanceOf(a, tx.sender);
    match tx.action
    case Transfer(_, amount) => balance >= (amount as int) + tx.fee
    case RefinerBond(stake) =>
      && stake >= MinimumBond(ctx.issued) && !IsSlashed(r, tx.sender)
      && balance >= (stake as int) + tx.fee + BondAssay(stake, r, ctx.issued)
    case RefinerUnbond(amount) =>
      && tx.sender in r.infos && 0 < amount <= StakeSum(r.infos[tx.sender].entries)
      && balance >= (tx.fee as int) + UnbondAssay(amount, r, ctx.issued)
  }

  lemma BondRuns(tx: Transaction, a: Accounts, r: RefinerState, stake: u64, ctx: Context)
    requires RefInv(r) && Holdings(a, r) <= U64_MAX && tx.action == RefinerBond(stake)
    requires tx.sender in a && a[tx.sender].nonce < U64_MAX
    ensures ApplyBond(tx, a, r, stake, ctx).result.TxOk? <==> Runnable(tx, a, r, ctx)
  {
    hide Bond, BondAssay, MinimumBond, Credit, BumpNonce, RefInv, TotalBalance, Staked, QueueTotal;
    SetBalanceTotal(a, tx.sender, a[tx.sender]);
    if (stake as int) + Staked(r.infos) <= U64_MAX {
      BondFailsOnly(r, tx.sender, stake, ctx.height, ctx.timestamp, ctx.issued);
    }
  }

  lemma UnbondRuns(tx: Transaction, a: Accounts, r: RefinerState, amount: u64, ctx: Context)
    requires RefInv(r) && Holdings(a, r) <= U64_MAX && tx.action == RefinerUnbond(amount)
    requires tx.sender in a && a[tx.sender].nonce < U64_MAX
    ensures ApplyUnbond(tx, a, r, amount, ctx).result.TxOk? <==> Runnable(tx, a, r, ctx)
  {
    hide DropFlakes, UnbondAssay, BumpNonce, RefInv, TotalBalance, StakeSum, TotalStake;
    if tx.sender in r.infos { StakeNeverWraps(r.infos, tx.sender); }
  }

  /** A transaction succeeds exactly when it passes the common checks and its action
      can run. Every quantity in the condition is known before the call. */
  lemma SucceedsExactly(c: Crypto, tx: Transaction, a: Accounts, r: RefinerState, ctx: Context)
    requires RefInv(r) && Holdings(a, r) <= U64_MAX
    ensures ApplyTransaction(c, tx, a, r, ctx).result.TxOk? <==> PreCheck(c, tx, a).None? && Runnable(tx, a, r, ctx)
  {
    hide ApplyBond, ApplyUnbond, RefInv, Custody, TotalBalance, Verified, Ledger.Transfer;
    if PreCheck(c, tx, a).None? {
      match tx.action {
        case Transfer(recipient, amount) => TransferFailsOnly(a, tx.sender, recipient, amount, tx.fee);
        case RefinerBond(amount) => BondRuns(tx, a, r, amount, ctx);
        case RefinerUnbond(amount) => UnbondRuns(tx, a, r, amount, ctx);
      }
    }
  }

  // ---- The dispatcher itself ----

  class TransactionDispatcher {

    static method CalculateDynamicAssay(amount: u64, numerator: u128, denominator: u128, limit: u128) returns (assay: u64)
      ensures assay == DynamicAssay(amount, numerator, denominator, limit)
    {
      if amount == 0 || numerator == 0 || denominator == 0 { return 0; }
      var pressureRoot := NewtonSqrtFloor(ScaledRatio(numerator, denominator));
      var limitRoot := NewtonSqrtFloor(ScaledRatio(limit, 1));
      assay := AssayFrom(amount, pressureRoot, limitRoot);
    }

    static method CalculateBondAssay(amount: u64, refiners: RefinerSet, issued: u64) returns (assay: u64)
      ensures assay == BondAssay(amount, refiners.State(), issued)
    {
      hide DynamicAssay, TotalBonded;
      var limit := RefinerSet.ActiveRefinerLimit(issued);
      var minimum := RefinerSet.MinimumBondStake(issued);
      LimitFits(issued);
      var bonded := refiners.TotalBondedStake();
      assay := CalculateDynamicAssay(amount, SatAdd64(bonded, amount), SatMul128(minimum, limit), limit);
    }

    static method CalculateUnbondAssay(amount: u64, refiners: RefinerSet, issued: u64) returns (assay: u64)
      ensures assay == UnbondAssay(amount, refiners.State(), issued)
    {
      hide DynamicAssay, TotalBonded;
      var bonded := refiners.TotalBondedStake();
      if bonded == 0 { return 0; }
      var limit := RefinerSet.ActiveRefinerLimit(issued);
      var minimum := RefinerSet.MinimumBondStake(issued);
      LimitFits(issued);
      assay := CalculateDynamicAssay(amount, SatMul128(minimum, limit), bonded, limit);
    }

    static method ExecuteTransfer(tx: Transaction, recipient: ObjectId, amount: u64, accounts: AccountStore, ghost r: RefinerState)
      returns (result: TxResult)
      modifies accounts
      ensures ApplyTransfer(tx, old(accounts.accounts), r, recipient, amount) == TxOutcome(accounts.accounts, r, result)
    {
      var moved := accounts.TransferBetween(tx.sender, recipient, amount, tx.fee);
      match moved {
        case Ok(_) => return TxOk(tx.fee, 0);
        case Err(e) => return TxErr(AccountFailure(e));
      }
    }

    static method ExecuteBond(tx: Transaction, stake: u64, accounts: AccountStore, refiners: RefinerSet, ctx: Context)
      returns (result: TxResult)
      requires refiners.Valid()
      requires tx.sender in accounts.accounts && accounts.accounts[tx.sender].nonce < U64_MAX
      modifies accounts, refiners
      ensures refiners.Valid()
      ensures ApplyBond(tx, old(accounts.accounts), old(refiners.State()), stake, ctx)
           == TxOutcome(accounts.accounts, refiners.State(), result)
    {
      hide RefInv, Bond, BondAssay, MinimumBond;
      var minimum := RefinerSet.MinimumBondStake(ctx.issued);
      if stake < minimum { return TxErr(RefinerFailure(InsufficientStake)); }
      var assay := CalculateBondAssay(stake, refiners, ctx.issued);
      var total := TotalCost(stake, tx.fee, assay);
      if total.None? { return TxErr(AmountOverflow); }
      if accounts.accounts[tx.sender].balance < total.value { return TxErr(CannotPay); }
      var debited := accounts.DebitAccount(tx.sender, total.value);
      var bonded := refiners.BondStake(tx.sender, stake, ctx.height, ctx.timestamp, ctx.issued);
      if bonded.Err? {
        var refunded := accounts.CreditAccount(tx.sender, total.value);
        if refunded.Err? { return TxErr(RefundFailed); }
        return TxErr(RefinerFailure(bonded.error));
      }
      BumpSenderNonce(accounts, tx.sender);
      return TxOk(tx.fee, assay);
    }

    static method BumpSenderNonce(accounts: AccountStore, id: ObjectId)
      requires id in accounts.accounts && accounts.accounts[id].nonce < U64_MAX
      modifies accounts
      ensures accounts.accounts == BumpNonce(old(accounts.accounts), id)
    {
      var account := accounts.accounts[id];
      accounts.accounts := accounts.accounts[id := account.(nonce := account.nonce + 1)];
    }

    static method ExecuteUnbond(tx: Transaction, amount: u64, accounts: AccountStore, refiners: RefinerSet, ctx: Context)
      returns (result: TxResult)
      requires refiners.Valid()
      requires tx.sender in accounts.accounts && accounts.accounts[tx.sender].nonce < U64_MAX
      modifies accounts, refiners
      ensures refiners.Valid()
      ensures ApplyUnbond(tx, old(accounts.accounts), old(refiners.State()), amount, ctx)
           == TxOutcome(accounts.accounts, refiners.State(), result)
    {
      hide RefInv, Unbond, UnbondAssay;
      if tx.sender !in refiners.infos { return TxErr(RefinerFailure(NotBonded)); }
      if amount == 0 { return TxErr(RefinerFailure(ZeroUnbond)); }
      var assay := CalculateUnbondAssay(amount, refiners, ctx.issued);
      var total := CheckedAdd64(tx.fee, assay);
      if total.None? { return TxErr(AmountOverflow); }
      if accounts.accounts[tx.sender].balance < total.value { return TxErr(CannotPay); }
      var unbonded := refiners.UnbondAmount(tx.sender, amount, ctx.height);
      if unbonded.Err? { return TxErr(RefinerFailure(unbonded.error)); }
      var account := accounts.accounts[tx.sender];
      accounts.accounts := accounts.accounts[tx.sender := account.(balance := account.balance - total.value)];
      BumpSenderNonce(accounts, tx.sender);
      return TxOk(tx.fee, assay);
    }

    /** `apply_transaction`: the single entry point of execution, working in place. */
    static method Execute(c: Crypto, tx: Transaction, accounts: AccountStore, refiners: RefinerSet, ctx: Context)
      returns (result: TxResult)
      requires refiners.Valid()
      modifies accounts, refiners
      ensures refiners.Valid()
      ensures ApplyTransaction(c, tx, old(accounts.accounts), old(refiners.State()), ctx)
           == TxOutcome(accounts.accounts, refiners.State(), result)
    {
      hide RefInv, ApplyTransfer, ApplyBond, ApplyUnbond;
      var refused := PreCheck(c, tx, accounts.accounts);
      if refused.Some? { return TxErr(refused.value); }
      match tx.action {
        case Transfer(recipient, amount) => result := ExecuteTransfer(tx, recipient, amount, accounts, refiners.State());
        case RefinerBond(amount) => result := ExecuteBond(tx, amount, accounts, refiners, ctx);
        case RefinerUnbond(amount) => result := ExecuteUnbond(tx, amount, accounts, refiners, ctx);
      }
      if result.TxOk? && tx.publicKey != [] && tx.sender in accounts.accounts {
        accounts.accounts := accounts.accounts[tx.sender := accounts.accounts[tx.sender].(publicKey := Some(tx.publicKey))];
      }
    }
  }
}
