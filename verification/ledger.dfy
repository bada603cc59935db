/**
 * The channel balance ledger: per (channel, denom) the escrow still outstanding
 * and the total ever credited. Debits fail rather than underflow.
 */
module Ledger {
  import opened Wrappers
  import opened Ics20Types

  /** Escrow outstanding for (channel, denom); zero for a pair never credited. */
  function Outstanding(l: Balances, channel: string, denom: string): nat
  {
    if (channel, denom) in l then l[(channel, denom)].outstanding else 0
  }

  /** Total ever credited to (channel, denom); zero for a pair never credited. */
  function TotalSent(l: Balances, channel: string, denom: string): nat
  {
    if (channel, denom) in l then l[(channel, denom)].totalSent else 0
  }

  /** The entries of `l` and `l'` agree everywhere except possibly at `key`. */
  ghost predicate SameElsewhere(l: Balances, l': Balances, key: (string, string))
  {
    && (forall k :: k in l && k != key ==> k in l' && l'[k] == l[k])
    && (forall k :: k in l' && k != key ==> k in l)
  }

  /**
   * Debits `amount` from the escrow of (channel, denom). A pair never credited,
   * or one holding less than `amount`, fails with InsufficientFunds. The total
   * ever sent is not touched.
   */
  function ReduceChannelBalance(l: Balances, channel: string, denom: string, amount: nat): (r: Result<Balances, ContractError>)
    ensures r.Err? <==> (channel, denom) !in l || l[(channel, denom)].outstanding < amount
    ensures r.Err? ==> r.error == InsufficientFunds
    ensures r.Ok? ==>
      && (channel, denom) in r.value
      && Outstanding(r.value, channel, denom) + amount == Outstanding(l, channel, denom)
      && TotalSent(r.value, channel, denom) == TotalSent(l, channel, denom)
      && SameElsewhere(l, r.value, (channel, denom))
  {
    var key := (channel, denom);
    if key !in l || l[key].outstanding < amount then Err(InsufficientFunds)
    else Ok(l[key := l[key].(outstanding := l[key].outstanding - amount)])
  }

  /** Credits newly escrowed value: both the outstanding escrow and the total sent grow. */
  function IncreaseChannelBalance(l: Balances, channel: string, denom: string, amount: nat): (r: Balances)
    ensures (channel, denom) in r
    ensures Outstanding(r, channel, denom) == Outstanding(l, channel, denom) + amount
    ensures TotalSent(r, channel, denom) == TotalSent(l, channel, denom) + amount
    ensures SameElsewhere(l, r, (channel, denom))
  {
    var key := (channel, denom);
    var old_ := if key in l then l[key] else ChannelState(0, 0);
    l[key := ChannelState(old_.outstanding + amount, old_.totalSent + amount)]
  }

  /** Gives back a debit: the outstanding escrow grows, the total sent does not. */
  function RestoreChannelBalance(l: Balances, channel: string, denom: string, amount: nat): (r: Balances)
    ensures (channel, denom) in r
    ensures Outstanding(r, channel, denom) == Outstanding(l, channel, denom) + amount
    ensures TotalSent(r, channel, denom) == TotalSent(l, channel, denom)
    ensures SameElsewhere(l, r, (channel, denom))
  {
    var key := (channel, denom);
    var old_ := if key in l then l[key] else ChannelState(0, 0);
    l[key := old_.(outstanding := old_.outstanding + amount)]
  }

  /** Restoring a debit that succeeded gives back exactly the ledger before it. */
  lemma RestoreUndoesReduce(l: Balances, channel: string, denom: string, amount: nat)
    requires ReduceChannelBalance(l, channel, denom, amount).Ok?
    ensures RestoreChannelBalance(ReduceChannelBalance(l, channel, denom, amount).value, channel, denom, amount) == l
  {
    var key := (channel, denom);
    var l' := RestoreChannelBalance(ReduceChannelBalance(l, channel, denom, amount).value, channel, denom, amount);
    assert l'.Keys == l.Keys;
    assert l'[key] == l[key];
  }

  /** A debit of nothing from a pair that exists leaves the ledger as it was. */
  lemma ReduceByZero(l: Balances, channel: string, denom: string)
    requires (channel, denom) in l
    ensures ReduceChannelBalance(l, channel, denom, 0) == Ok(l)
  {
    assert l[(channel, denom) := l[(channel, denom)]] == l;
  }
}
