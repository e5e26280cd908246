/** The settlement asset as a contract. */
module TokenContract {
  import opened Results
  import opened Types
  import Token

  class AssetToken {
    var balances: Token.Balances

    constructor (initial: Token.Balances)
      ensures balances == initial
    {
      balances := initial;
    }

    method Balance(a: Address) returns (n: nat)
      ensures n == Token.BalanceOf(balances, a)
    {
      n := if a in balances then balances[a] else 0;
    }

    method Transfer(from: Address, to: Address, amount: int) returns (r: Result<()>)
      modifies this
      ensures Agrees(r, Token.Transfer(old(balances), from, to, amount), balances)
    {
      if amount < 0 { return Err(NegativeAmount); }
      var held := Balance(from);
      if held < amount { return Err(InsufficientBalance); }
      balances := balances[from := held - amount];
      var arriving := Balance(to);
      balances := balances[to := arriving + amount];
      r := Ok(());
    }
  }
}
