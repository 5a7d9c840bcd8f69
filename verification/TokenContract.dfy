/** The token contract as the source has it: stored maps that each entry point reads and rewrites.
    A panic is `ok == false`; the host then discards every write of the call. */
module TokenContract {
  import opened Common
  import T = Token

  class Contract {
    var admin: Option<Address>
    var supply: i128
    var balances: map<Address, i128>
    var allowances: map<(Address, Address), i128>
    var minters: set<Address>

    function View(): T.Ledger
      reads this
    {
      T.Ledger(admin, supply, balances, allowances, minters)
    }

    constructor ()
      ensures View() == T.Fresh
    {
      admin, supply, balances, allowances, minters := None, 0, map[], map[], {};
    }

    method Initialize(newAdmin: Address, initialSupply: i128) returns (ok: bool)
      modifies this
      ensures ok <==> T.Apply(old(View()), T.Initialize(newAdmin, initialSupply)).Some?
      ensures View() == T.After(old(View()), T.Initialize(newAdmin, initialSupply))
    {
      if initialSupply < 0 || initialSupply > T.MAX_SUPPLY { return false; }
      admin := Some(newAdmin);
      balances := balances[newAdmin := initialSupply];
      supply := initialSupply;
      return true;
    }

    method Transfer(from: Address, to: Address, amount: i128) returns (ok: bool)
      modifies this
      ensures ok <==> T.Apply(old(View()), T.Transfer(from, to, amount)).Some?
      ensures View() == T.After(old(View()), T.Transfer(from, to, amount))
    {
      var fromBalance := Lookup(balances, from, 0);
      if amount <= 0 || fromBalance < amount { return false; }
      var saved := balances;
      balances := balances[from := fromBalance - amount];
      var toBalance := Lookup(balances, to, 0);
      if toBalance + amount > I128_MAX {
        balances := saved;
        return false;
      }
      balances := balances[to := toBalance + amount];
      return true;
    }

    method Approve(owner: Address, spender: Address, amount: i128) returns (ok: bool)
      modifies this
      ensures ok <==> T.Apply(old(View()), T.Approve(owner, spender, amount)).Some?
      ensures View() == T.After(old(View()), T.Approve(owner, spender, amount))
    {
      allowances := allowances[(owner, spender) := amount];
      return true;
    }

    method AddMinter(caller: Address, minter: Address) returns (ok: bool)
      modifies this
      ensures ok <==> T.Apply(old(View()), T.AddMinter(caller, minter)).Some?
      ensures View() == T.After(old(View()), T.AddMinter(caller, minter))
    {
      if admin != Some(caller) { return false; }
      minters := minters + {minter};
      return true;
    }

    method RemoveMinter(caller: Address, minter: Address) returns (ok: bool)
      modifies this
      ensures ok <==> T.Apply(old(View()), T.RemoveMinter(caller, minter)).Some?
      ensures View() == T.After(old(View()), T.RemoveMinter(caller, minter))
    {
      if admin != Some(caller) { return false; }
      minters := minters - {minter};
      return true;
    }

    method TransferFrom(spender: Address, from: Address, to: Address, amount: i128) returns (ok: bool)
      modifies this
      ensures ok <==> T.Apply(old(View()), T.TransferFrom(spender, from, to, amount)).Some?
      ensures View() == T.After(old(View()), T.TransferFrom(spender, from, to, amount))
    {
      var allowed := Lookup(allowances, (from, spender), 0);
      var fromBalance := Lookup(balances, from, 0);
      if allowed < amount || fromBalance < amount { return false; }
      if allowed - amount > I128_MAX || fromBalance - amount > I128_MAX { return false; }
      var debited := balances[from := fromBalance - amount];
      var toBalance := Lookup(debited, to, 0);
      if !(I128_MIN <= toBalance + amount <= I128_MAX) { return false; }
      allowances := allowances[(from, spender) := allowed - amount];
      balances := debited[to := toBalance + amount];
      return true;
    }

    method Mint(caller: Address, to: Address, amount: i128) returns (ok: bool)
      modifies this
      ensures ok <==> T.Apply(old(View()), T.Mint(caller, to, amount)).Some?
      ensures View() == T.After(old(View()), T.Mint(caller, to, amount))
    {
      if admin.None? { return false; }
      if caller != admin.value && caller !in minters { return false; }
      if amount <= 0 || supply + amount > T.MAX_SUPPLY { return false; }
      var toBalance := Lookup(balances, to, 0);
      if toBalance + amount > I128_MAX { return false; }
      balances := balances[to := toBalance + amount];
      supply := supply + amount;
      return true;
    }

    method Burn(from: Address, amount: i128) returns (ok: bool)
      modifies this
      ensures ok <==> T.Apply(old(View()), T.Burn(from, amount)).Some?
      ensures View() == T.After(old(View()), T.Burn(from, amount))
    {
      var balance := Lookup(balances, from, 0);
      if amount <= 0 || balance < amount || supply - amount < I128_MIN { return false; }
      balances := balances[from := balance - amount];
      supply := supply - amount;
      return true;
    }

    method BurnFrom(spender: Address, from: Address, amount: i128) returns (ok: bool)
      modifies this
      ensures ok <==> T.Apply(old(View()), T.BurnFrom(spender, from, amount)).Some?
      ensures View() == T.After(old(View()), T.BurnFrom(spender, from, amount))
    {
      var allowed := Lookup(allowances, (from, spender), 0);
      var balance := Lookup(balances, from, 0);
      if amount <= 0 || allowed < amount || balance < amount || supply - amount < I128_MIN { return false; }
      allowances := allowances[(from, spender) := allowed - amount];
      balances := balances[from := balance - amount];
      supply := supply - amount;
      return true;
    }

    /** One call of the token contract. */
    method Perform(c: T.TokenCall) returns (ok: bool)
      modifies this
      ensures ok <==> T.Apply(old(View()), c).Some?
      ensures View() == T.After(old(View()), c)
    {
      match c {
        case Initialize(newAdmin, initialSupply) => ok := Initialize(newAdmin, initialSupply);
        case Transfer(from, to, amount) => ok := Transfer(from, to, amount);
        case Approve(owner, spender, amount) => ok := Approve(owner, spender, amount);
        case AddMinter(caller, minter) => ok := AddMinter(caller, minter);
        case RemoveMinter(caller, minter) => ok := RemoveMinter(caller, minter);
        case TransferFrom(spender, from, to, amount) => ok := TransferFrom(spender, from, to, amount);
        case Mint(caller, to, amount) => ok := Mint(caller, to, amount);
        case Burn(from, amount) => ok := Burn(from, amount);
        case BurnFrom(spender, from, amount) => ok := BurnFrom(spender, from, amount);
      }
    }

    /** The contract driven through a list of attempted calls runs as the theorems about runs say. */
    method Drive(calls: seq<T.TokenCall>)
      modifies this
      ensures View() == T.RunTo(old(View()), calls)
    {
      for i := 0 to |calls|
        invariant View() == T.RunTo(old(View()), calls[..i])
      {
        assert calls[..i + 1][..i] == calls[..i];
        var _ := Perform(calls[i]);
      }
      assert calls[..|calls|] == calls;
    }
  }
}
