/** The token contract call by call: when each call is accepted, and every balance, allowance, minter and total
    after it. */
module TokenEffects {
  import opened Common
  import opened Token

  predicate Fits(x: int) {
    I128_MIN <= x <= I128_MAX
  }

  /** A call is accepted exactly when its signer may make it, the amounts are there and nothing overflows. Transfers
      and burns need positive amounts; `transfer_from` does not. */
  predicate Permitted(l: Ledger, c: TokenCall) {
    match c
    case Initialize(_, initialSupply) => 0 <= initialSupply <= 1_000_000_000_000_000_000
    case Transfer(from, to, amount) =>
      0 < amount <= BalanceOf(l, from) && (from != to ==> Fits(BalanceOf(l, to) + amount))
    case Approve(_, _, _) => true
    case AddMinter(admin, _) => l.admin == Some(admin)
    case RemoveMinter(admin, _) => l.admin == Some(admin)
    case TransferFrom(spender, from, to, amount) =>
      && amount <= Allowance(l, from, spender) && Fits(Allowance(l, from, spender) - amount)
      && amount <= BalanceOf(l, from) && Fits(BalanceOf(l, from) - amount)
      && (from != to ==> Fits(BalanceOf(l, to) + amount))
    case Mint(caller, to, amount) =>
      && l.admin.Some? && (caller == l.admin.value || caller in l.minters)
      && 0 < amount && l.supply + amount <= 1_000_000_000_000_000_000 && Fits(BalanceOf(l, to) + amount)
    case Burn(from, amount) => 0 < amount <= BalanceOf(l, from) && Fits(l.supply - amount)
    case BurnFrom(spender, from, amount) =>
      0 < amount <= BalanceOf(l, from) && amount <= Allowance(l, from, spender) && Fits(l.supply - amount)
  }

  lemma AcceptedIff(l: Ledger, c: TokenCall)
    ensures Apply(l, c).Some? <==> Permitted(l, c)
  {
  }

  function Moved(from: Address, to: Address, amount: int, x: Address): int {
    (if x == to then amount else 0) - (if x == from then amount else 0)
  }

  /** The balance of any account after an accepted call. */
  lemma BalanceAfter(l: Ledger, c: TokenCall, x: Address)
    requires Apply(l, c).Some?
    ensures BalanceOf(Apply(l, c).value, x) ==
      match c
      case Initialize(admin, initialSupply) => if x == admin then initialSupply else BalanceOf(l, x)
      case Transfer(from, to, amount) => BalanceOf(l, x) + Moved(from, to, amount, x)
      case TransferFrom(_, from, to, amount) => BalanceOf(l, x) + Moved(from, to, amount, x)
      case Mint(_, to, amount) => BalanceOf(l, x) + (if x == to then amount else 0)
      case Burn(from, amount) => BalanceOf(l, x) - (if x == from then amount else 0)
      case BurnFrom(_, from, amount) => BalanceOf(l, x) - (if x == from then amount else 0)
      case _ => BalanceOf(l, x)
  {
  }

  /** The allowance of any pair: an approval sets it, a pull or burn on behalf uses it up, nothing else touches it. */
  lemma AllowanceAfter(l: Ledger, c: TokenCall, owner: Address, spender: Address)
    requires Apply(l, c).Some?
    ensures Allowance(Apply(l, c).value, owner, spender) ==
      match c
      case Approve(o, s, amount) => if (o, s) == (owner, spender) then amount else Allowance(l, owner, spender)
      case TransferFrom(s, from, _, amount) =>
        Allowance(l, owner, spender) - (if (from, s) == (owner, spender) then amount else 0)
      case BurnFrom(s, from, amount) =>
        Allowance(l, owner, spender) - (if (from, s) == (owner, spender) then amount else 0)
      case _ => Allowance(l, owner, spender)
  {
  }

  /** The total, the administrator and the minters after an accepted call. */
  lemma OfficesAfter(l: Ledger, c: TokenCall, x: Address)
    requires Apply(l, c).Some?
    ensures var l' := Apply(l, c).value;
      && l'.supply == (
           match c
           case Initialize(_, initialSupply) => initialSupply
           case Mint(_, _, amount) => l.supply + amount
           case Burn(_, amount) => l.supply - amount
           case BurnFrom(_, _, amount) => l.supply - amount
           case _ => l.supply)
      && l'.admin == (if c.Initialize? then Some(c.admin) else l.admin)
      && (x in l'.minters <==>
            if c.AddMinter? && x == c.minter then true
            else if c.RemoveMinter? && x == c.minter then false
            else x in l.minters)
  {
  }

  // ----- whole runs

  /** Made a minter during the run, and not unmade since. */
  ghost predicate IsMinter(l: Ledger, calls: seq<TokenCall>, x: Address) {
    if calls == [] then x in l.minters else
      var n := |calls| - 1;
      if Apply(RunTo(l, calls[..n]), calls[n]).Some? && calls[n].AddMinter? && calls[n].minter == x then true
      else if Apply(RunTo(l, calls[..n]), calls[n]).Some? && calls[n].RemoveMinter? && calls[n].minter == x then false
      else IsMinter(l, calls[..n], x)
  }

  lemma {:induction false} MintersAreMade(l: Ledger, calls: seq<TokenCall>, x: Address)
    ensures x in RunTo(l, calls).minters <==> IsMinter(l, calls, x)
  {
    if calls != [] {
      var n := |calls| - 1;
      MintersAreMade(l, calls[..n], x);
      if Apply(RunTo(l, calls[..n]), calls[n]).Some? {
        OfficesAfter(RunTo(l, calls[..n]), calls[n], x);
      }
    }
  }

  /** Every accepted mint of a run is the administrator's or such a minter's. */
  lemma MintNeedsOffice(l: Ledger, calls: seq<TokenCall>, caller: Address, recipient: Address, amount: i128)
    requires Apply(RunTo(l, calls), Mint(caller, recipient, amount)).Some?
    ensures RunTo(l, calls).admin == Some(caller) || IsMinter(l, calls, caller)
  {
    AcceptedIff(RunTo(l, calls), Mint(caller, recipient, amount));
    MintersAreMade(l, calls, caller);
  }
}
