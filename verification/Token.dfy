/** The SEP-41 style token contract: its ledger as a value, and what one call does to it. */
module Token {
  import opened Common
  import MapSums

  const MAX_SUPPLY: i128 := 1_000_000_000_000_000_000

  datatype Ledger = Ledger(
    admin: Option<Address>,
    supply: i128,
    balances: map<Address, i128>,
    allowances: map<(Address, Address), i128>,
    minters: set<Address>)

  /** A token contract as deployed, before `initialize`. */
  const Fresh: Ledger := Ledger(None, 0, map[], map[], {})

  function BalanceOf(l: Ledger, owner: Address): i128 {
    Lookup(l.balances, owner, 0)
  }

  function Allowance(l: Ledger, owner: Address, spender: Address): i128 {
    Lookup(l.allowances, (owner, spender), 0)
  }

  /** Writes one balance; the addition or subtraction that produced it panics on overflow. */
  function SetBalance(l: Ledger, owner: Address, amount: int): Option<Ledger> {
    var a :- Checked(amount);
    Some(l.(balances := l.balances[owner := a]))
  }

  function SetAllowance(l: Ledger, owner: Address, spender: Address, amount: int): Option<Ledger> {
    var a :- Checked(amount);
    Some(l.(allowances := l.allowances[(owner, spender) := a]))
  }

  function SetSupply(l: Ledger, amount: int): Option<Ledger> {
    var a :- Checked(amount);
    Some(l.(supply := a))
  }

  datatype TokenCall =
    | Initialize(admin: Address, initialSupply: i128)
    | Transfer(from: Address, to: Address, amount: i128)
    | Approve(owner: Address, spender: Address, amount: i128)
    | AddMinter(admin: Address, minter: Address)
    | RemoveMinter(admin: Address, minter: Address)
    | TransferFrom(spender: Address, from: Address, to: Address, amount: i128)
    | Mint(caller: Address, to: Address, amount: i128)
    | Burn(from: Address, amount: i128)
    | BurnFrom(spender: Address, from: Address, amount: i128)

  /** The address whose `require_auth` the call needs. */
  function Signer(c: TokenCall): Address {
    match c
    case Initialize(admin, _) => admin
    case Transfer(from, _, _) => from
    case Approve(owner, _, _) => owner
    case AddMinter(admin, _) => admin
    case RemoveMinter(admin, _) => admin
    case TransferFrom(spender, _, _, _) => spender
    case Mint(caller, _, _) => caller
    case Burn(from, _) => from
    case BurnFrom(spender, _, _) => spender
  }

  /** Debits `from`, then credits `to`, reading the second balance after the first write. */
  function Move(l: Ledger, from: Address, to: Address, amount: i128): Option<Ledger> {
    var l1 :- SetBalance(l, from, BalanceOf(l, from) - amount);
    SetBalance(l1, to, BalanceOf(l1, to) + amount)
  }

  function Pay(l: Ledger, from: Address, to: Address, amount: i128): Option<Ledger> {
    if amount <= 0 then None else
    :- Need(BalanceOf(l, from) >= amount);
    Move(l, from, to, amount)
  }

  function PayFrom(l: Ledger, spender: Address, from: Address, to: Address, amount: i128): Option<Ledger> {
    var allowed := Allowance(l, from, spender);
    :- Need(allowed >= amount);
    :- Need(BalanceOf(l, from) >= amount);
    var l1 :- SetAllowance(l, from, spender, allowed - amount);
    Move(l1, from, to, amount)
  }

  function MintTo(l: Ledger, caller: Address, to: Address, amount: i128): Option<Ledger> {
    var admin :- l.admin;
    :- Need(caller == admin || caller in l.minters);
    :- Need(amount > 0);
    :- Need(l.supply + amount <= MAX_SUPPLY);
    var l1 :- SetBalance(l, to, BalanceOf(l, to) + amount);
    SetSupply(l1, l.supply + amount)
  }

  function BurnOwn(l: Ledger, from: Address, amount: i128): Option<Ledger> {
    if amount <= 0 then None else
    :- Need(BalanceOf(l, from) >= amount);
    var l1 :- SetBalance(l, from, BalanceOf(l, from) - amount);
    SetSupply(l1, l.supply - amount)
  }

  function BurnAllowed(l: Ledger, spender: Address, from: Address, amount: i128): Option<Ledger> {
    var allowed := Allowance(l, from, spender);
    :- Need(amount > 0);
    :- Need(allowed >= amount);
    :- Need(BalanceOf(l, from) >= amount);
    var l1 :- SetAllowance(l, from, spender, allowed - amount);
    BurnOwn(l1, from, amount)
  }

  /** The ledger after an accepted call; `None` when the call panics. */
  function Apply(l: Ledger, c: TokenCall): Option<Ledger> {
    match c
    case Initialize(admin, initialSupply) =>
      if 0 <= initialSupply <= MAX_SUPPLY
      then Some(l.(admin := Some(admin), balances := l.balances[admin := initialSupply], supply := initialSupply))
      else None
    case Transfer(from, to, amount) => Pay(l, from, to, amount)
    case Approve(owner, spender, amount) => SetAllowance(l, owner, spender, amount)
    case AddMinter(admin, minter) =>
      if l.admin == Some(admin) then Some(l.(minters := l.minters + {minter})) else None
    case RemoveMinter(admin, minter) =>
      if l.admin == Some(admin) then Some(l.(minters := l.minters - {minter})) else None
    case TransferFrom(spender, from, to, amount) => PayFrom(l, spender, from, to, amount)
    case Mint(caller, to, amount) => MintTo(l, caller, to, amount)
    case Burn(from, amount) => BurnOwn(l, from, amount)
    case BurnFrom(spender, from, amount) => BurnAllowed(l, spender, from, amount)
  }

  function After(l: Ledger, c: TokenCall): Ledger {
    Apply(l, c).Or(l)
  }

  /** The ledger after a whole list of attempted calls; a rejected call changes nothing. */
  function RunTo(l: Ledger, calls: seq<TokenCall>): Ledger {
    if calls == [] then l else After(RunTo(l, calls[..|calls| - 1]), calls[|calls| - 1])
  }

  // ----- supply conservation

  ghost function Held(l: Ledger): int {
    MapSums.Sum(l.balances)
  }

  ghost predicate NonNegative(l: Ledger) {
    forall a :: a in l.balances ==> l.balances[a] >= 0
  }

  /** The balances add up to the supply, nobody is in debt and the cap is respected. */
  ghost predicate Sound(l: Ledger) {
    && Held(l) == l.supply <= MAX_SUPPLY
    && NonNegative(l)
  }

  lemma MoveKeepsHeld(l: Ledger, from: Address, to: Address, amount: i128)
    requires Move(l, from, to, amount).Some?
    ensures Held(Move(l, from, to, amount).value) == Held(l)
  {
    var l1 := SetBalance(l, from, BalanceOf(l, from) - amount).value;
    MapSums.SumUpdate(l.balances, from, BalanceOf(l, from) - amount);
    MapSums.SumUpdate(l1.balances, to, BalanceOf(l1, to) + amount);
  }

  lemma PullKeepsHeld(l: Ledger, spender: Address, from: Address, to: Address, amount: i128)
    requires PayFrom(l, spender, from, to, amount).Some?
    ensures Held(PayFrom(l, spender, from, to, amount).value) == Held(l)
    ensures PayFrom(l, spender, from, to, amount).value.supply == l.supply
  {
    MoveKeepsHeld(SetAllowance(l, from, spender, Allowance(l, from, spender) - amount).value, from, to, amount);
  }

  lemma BurnLowersHeld(l: Ledger, from: Address, amount: i128)
    requires BurnOwn(l, from, amount).Some?
    ensures Held(BurnOwn(l, from, amount).value) == Held(l) - amount
  {
    MapSums.SumUpdate(l.balances, from, BalanceOf(l, from) - amount);
  }

  lemma InitializeResetsHeld(l: Ledger, admin: Address, initialSupply: i128)
    requires Apply(l, Initialize(admin, initialSupply)).Some?
    ensures Held(Apply(l, Initialize(admin, initialSupply)).value) == Held(l) - BalanceOf(l, admin) + initialSupply
  {
    MapSums.SumUpdate(l.balances, admin, initialSupply);
  }

  /** Every accepted call except `initialize` moves the total held and the recorded supply together. */
  lemma HeldTracksSupply(l: Ledger, c: TokenCall)
    requires Apply(l, c).Some? && !c.Initialize?
    ensures Held(Apply(l, c).value) - Held(l) == Apply(l, c).value.supply - l.supply
  {
    match c
    case Transfer(from, to, amount) => MoveKeepsHeld(l, from, to, amount);
    case TransferFrom(spender, from, to, amount) => PullKeepsHeld(l, spender, from, to, amount);
    case Mint(_, to, amount) => MapSums.SumUpdate(l.balances, to, BalanceOf(l, to) + amount);
    case Burn(from, amount) => BurnLowersHeld(l, from, amount);
    case BurnFrom(spender, from, amount) =>
      BurnLowersHeld(SetAllowance(l, from, spender, Allowance(l, from, spender) - amount).value, from, amount);
    case _ =>
  }

  /** A second `initialize` keeps the books exact only when the new admin already holds the whole supply. */
  lemma InitializeExactness(l: Ledger, admin: Address, initialSupply: i128)
    requires Held(l) == l.supply
    requires Apply(l, Initialize(admin, initialSupply)).Some?
    ensures var l' := Apply(l, Initialize(admin, initialSupply)).value;
      Held(l') == l'.supply <==> BalanceOf(l, admin) == l.supply
  {
    InitializeResetsHeld(l, admin, initialSupply);
  }

  /** An accepted `transfer_from` leaves nobody in debt exactly when the recipient can afford it. */
  lemma TransferFromDebt(l: Ledger, spender: Address, from: Address, to: Address, amount: i128)
    requires NonNegative(l)
    requires PayFrom(l, spender, from, to, amount).Some?
    ensures NonNegative(PayFrom(l, spender, from, to, amount).value)
      <==> from == to || BalanceOf(l, to) + amount >= 0
  {
    var l1 := SetAllowance(l, from, spender, Allowance(l, from, spender) - amount).value;
    var l' := PayFrom(l, spender, from, to, amount).value;
    assert to in l'.balances && from in l'.balances;
    assert from != to ==> l'.balances[to] == BalanceOf(l, to) + amount;
  }

  /** The calls that keep the books: a pull must leave its recipient out of debt, and a further `initialize`
      must name the holder of the whole supply. */
  predicate Orderly(l: Ledger, c: TokenCall) {
    match c
    case TransferFrom(_, from, to, amount) => from == to || BalanceOf(l, to) + amount >= 0
    case Initialize(admin, _) => BalanceOf(l, admin) == l.supply
    case _ => true
  }

  /** An accepted call keeps a sound ledger sound exactly when it is orderly. */
  lemma SoundStep(l: Ledger, c: TokenCall)
    requires Sound(l) && Apply(l, c).Some?
    ensures Sound(After(l, c)) <==> Orderly(l, c)
  {
    match c
    case Initialize(admin, initialSupply) => InitializeResetsHeld(l, admin, initialSupply);
    case TransferFrom(spender, from, to, amount) =>
      HeldTracksSupply(l, c);
      TransferFromDebt(l, spender, from, to, amount);
    case _ => HeldTracksSupply(l, c);
  }

  predicate InitialisesOnce(calls: seq<TokenCall>) {
    forall i, j :: 0 <= i < j < |calls| ==> !(calls[i].Initialize? && calls[j].Initialize?)
  }

  predicate NoNegativePulls(calls: seq<TokenCall>) {
    forall i :: 0 <= i < |calls| && calls[i].TransferFrom? ==> calls[i].amount >= 0
  }

  /** Before any `initialize`, nothing has been minted. */
  lemma {:induction false} NothingBeforeInitialize(calls: seq<TokenCall>)
    requires forall i :: 0 <= i < |calls| ==> !calls[i].Initialize?
    requires NoNegativePulls(calls)
    ensures Sound(RunTo(Fresh, calls)) && RunTo(Fresh, calls).supply == 0 && RunTo(Fresh, calls).admin == None
  {
    if calls != [] {
      var n := |calls| - 1;
      NothingBeforeInitialize(calls[..n]);
      var l := RunTo(Fresh, calls[..n]);
      MapSums.SumBoundsEntries(l.balances);
      if Apply(l, calls[n]).Some? {
        SoundStep(l, calls[n]);
      }
    }
  }

  /** In every run that initialises at most once and never pulls a negative amount, the sum of all
      balances is the total supply, the cap holds and every balance is non-negative. */
  lemma {:induction false} SupplyConserved(calls: seq<TokenCall>)
    requires InitialisesOnce(calls) && NoNegativePulls(calls)
    ensures Sound(RunTo(Fresh, calls))
  {
    if calls != [] {
      var n := |calls| - 1;
      SupplyConserved(calls[..n]);
      var l := RunTo(Fresh, calls[..n]);
      if calls[n].Initialize? {
        NothingBeforeInitialize(calls[..n]);
        MapSums.SumBoundsEntries(l.balances);
      }
      if Apply(l, calls[n]).Some? {
        SoundStep(l, calls[n]);
      }
    }
  }

  // ----- allowances

  /** What `spender` took out of `owner`'s allowance with one accepted call. */
  function Taken(l: Ledger, c: TokenCall, owner: Address, spender: Address): int {
    if Apply(l, c).None? then 0 else
      match c
      case TransferFrom(s, from, _, amount) => if s == spender && from == owner then amount else 0
      case BurnFrom(s, from, amount) => if s == spender && from == owner then amount else 0
      case _ => 0
  }

  function TotalTaken(l: Ledger, calls: seq<TokenCall>, owner: Address, spender: Address): int {
    if calls == [] then 0 else
      var n := |calls| - 1;
      TotalTaken(l, calls[..n], owner, spender) + Taken(RunTo(l, calls[..n]), calls[n], owner, spender)
  }

  lemma PullSpends(l: Ledger, s: Address, from: Address, to: Address, amount: i128)
    requires PayFrom(l, s, from, to, amount).Some?
    ensures amount <= Allowance(l, from, s) && Allowance(l, from, s) - amount <= I128_MAX
    ensures PayFrom(l, s, from, to, amount).value.allowances
         == l.allowances[(from, s) := Allowance(l, from, s) - amount]
  {
  }

  lemma BurnSpends(l: Ledger, s: Address, from: Address, amount: i128)
    requires BurnAllowed(l, s, from, amount).Some?
    ensures 0 < amount <= Allowance(l, from, s)
    ensures BurnAllowed(l, s, from, amount).value.allowances
         == l.allowances[(from, s) := Allowance(l, from, s) - amount]
  {
  }

  lemma AllowanceStep(l: Ledger, c: TokenCall, owner: Address, spender: Address)
    requires c.Approve? ==> (c.owner, c.spender) != (owner, spender)
    ensures Allowance(After(l, c), owner, spender) + Taken(l, c, owner, spender) == Allowance(l, owner, spender)
    ensures Taken(l, c, owner, spender) <= 0 || Allowance(After(l, c), owner, spender) >= 0
  {
    if Apply(l, c).Some? {
      match c
      case TransferFrom(s, from, to, amount) => PullSpends(l, s, from, to, amount);
      case BurnFrom(s, from, amount) => BurnSpends(l, s, from, amount);
      case Approve(o, s, amount) =>
      case _ => assert After(l, c).allowances == l.allowances;
    }
  }

  lemma {:induction false} SpendingTracked(l: Ledger, calls: seq<TokenCall>, owner: Address, spender: Address)
    requires forall i :: 0 <= i < |calls| && calls[i].Approve? ==>
      (calls[i].owner, calls[i].spender) != (owner, spender)
    ensures Allowance(RunTo(l, calls), owner, spender) + TotalTaken(l, calls, owner, spender)
         == Allowance(l, owner, spender)
    ensures NoNegativePulls(calls) ==>
      && TotalTaken(l, calls, owner, spender) >= 0
      && (TotalTaken(l, calls, owner, spender) == 0 || Allowance(RunTo(l, calls), owner, spender) >= 0)
  {
    if calls != [] {
      var n := |calls| - 1;
      SpendingTracked(l, calls[..n], owner, spender);
      var m := RunTo(l, calls[..n]);
      AllowanceStep(m, calls[n], owner, spender);
      assert Allowance(RunTo(l, calls), owner, spender) == Allowance(After(m, calls[n]), owner, spender);
      assert NoNegativePulls(calls) ==> Taken(m, calls[n], owner, spender) >= 0;
    }
  }

  /** Between two approvals the allowance pays for every token the spender takes, one for one, so the
      total taken never exceeds what was approved. */
  lemma SpendingWithinAllowance(l: Ledger, calls: seq<TokenCall>, owner: Address, spender: Address)
    requires forall i :: 0 <= i < |calls| && calls[i].Approve? ==>
      (calls[i].owner, calls[i].spender) != (owner, spender)
    ensures Allowance(RunTo(l, calls), owner, spender) + TotalTaken(l, calls, owner, spender)
         == Allowance(l, owner, spender)
    ensures NoNegativePulls(calls) ==>
      0 <= TotalTaken(l, calls, owner, spender) <= Max(0, Allowance(l, owner, spender))
  {
    SpendingTracked(l, calls, owner, spender);
  }
}
