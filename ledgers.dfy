/** Balances kept by the ledgers the guarded contract talks to: a token contract's
    `balanceOf` table, and the host chain's native-currency balances. */
module Ledgers {

  /** A 160-bit account address. */
  newtype Address = a: int | 0 <= a < 0x1_0000_0000_0000_0000_0000_0000_0000_0000_0000_0000

  /** The null identity (the zero address). */
  const Zero: Address := 0

  /** Holder -> balance. A holder missing from the map holds nothing. */
  type Ledger = map<Address, nat>

  /** Token contract address -> that token's ledger. */
  type TokenLedgers = map<Address, Ledger>

  function BalanceOf(l: Ledger, holder: Address): nat {
    if holder in l then l[holder] else 0
  }

  /** Moves `amount` from `from` to `to`, as a token transfer or a native send does.
      Moving nothing, or moving to oneself, leaves every balance as it was. */
  function Move(l: Ledger, from: Address, to: Address, amount: nat): (r: Ledger)
    requires amount <= BalanceOf(l, from)
    ensures from != to ==> BalanceOf(r, from) == BalanceOf(l, from) - amount
    ensures from != to ==> BalanceOf(r, to) == BalanceOf(l, to) + amount
    ensures from == to ==> BalanceOf(r, from) == BalanceOf(l, from)
    ensures forall a :: a != from && a != to ==> BalanceOf(r, a) == BalanceOf(l, a)
    ensures BalanceOf(r, from) + BalanceOf(r, to) == BalanceOf(l, from) + BalanceOf(l, to)
    ensures amount == 0 ==> r == l
  {
    if from == to || amount == 0 then l
    else l[from := BalanceOf(l, from) - amount][to := BalanceOf(l, to) + amount]
  }

  /** The ledger of token contract `token`; an unknown token has an empty ledger. */
  function LedgerOf(ts: TokenLedgers, token: Address): Ledger {
    if token in ts then ts[token] else map[]
  }

  /** `token.balanceOf(holder)`. */
  function TokenBalance(ts: TokenLedgers, token: Address, holder: Address): nat {
    BalanceOf(LedgerOf(ts, token), holder)
  }
}
