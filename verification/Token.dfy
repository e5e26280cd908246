/** The settlement asset: one balance per account. */
module Token {
  import opened Results
  import opened Types

  type Balances = map<Address, nat>

  function BalanceOf(b: Balances, a: Address): nat {
    if a in b then b[a] else 0
  }

  function Transfer(b: Balances, from: Address, to: Address, amount: int): Result<Balances> {
    if amount < 0 then Err(NegativeAmount)
    else if BalanceOf(b, from) < amount then Err(InsufficientBalance)
    else
      var b1: Balances := b[from := BalanceOf(b, from) - amount];
      Ok(b1[to := BalanceOf(b1, to) + amount])
  }
}
