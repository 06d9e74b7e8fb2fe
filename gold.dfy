/** Gold: dropping gold on the map (`Format24Handler`) and the gold offer
    and confirmation of an exchange (`Format4AHandler` cases 0x03 and 0x05). */
module Gold {
  import opened Common

  /** The gold left after dropping `amount`, or `None` when the player has
      too little (gold is then unchanged). */
  function DropGold(goldPoints: int, amount: int): (r: Option<int>)
    ensures r.Some? <==> goldPoints >= amount
    ensures r.Some? ==> r.value >= 0
    ensures r.Some? ==> r.value + amount == goldPoints
  {
    if goldPoints >= amount then
      var left := goldPoints - amount;
      Some(if left <= 0 then 0 else left)
    else None
  }

  /** A player's gold and the gold they have put into an exchange. */
  datatype Purse = Purse(goldPoints: int, offered: int)

  /** The gold offer: accepted only between two players whose sessions
      name each other, before the player confirmed, for no more than they
      carry, and when no offer is already on the table. */
  function Offer(p: Purse, linked: bool, confirmed: bool, gold: int): (r: Option<Purse>)
    ensures r.Some? <==> linked && !confirmed && gold <= p.goldPoints && p.offered == 0
    ensures r.Some? ==> r.value.goldPoints + r.value.offered == p.goldPoints + p.offered
    ensures r.Some? ==> r.value.offered == gold
    ensures r.Some? && p.goldPoints >= 0 ==> r.value.goldPoints >= 0
  {
    if !linked || confirmed then None
    else if gold > p.goldPoints then None
    else if p.offered != 0 then None
    else Some(Purse(p.goldPoints - gold, gold))
  }

  /** Once a non-zero offer stands, a second one is refused. */
  lemma OfferOnce(p: Purse, confirmed: bool, gold: int, again: int)
    requires Offer(p, true, confirmed, gold).Some? && gold != 0
    ensures Offer(Offer(p, true, confirmed, gold).value, true, confirmed, again).None?
  {
  }

  /** Confirming: the player's flag is set, and the exchange finishes when
      the trader had already confirmed. `None` when the request is
      ignored. The result is the pair (confirmed, finish). */
  function Confirm(linked: bool, confirmed: bool, traderConfirmed: bool): (r: Option<(bool, bool)>)
    ensures r.Some? <==> linked && !confirmed
    ensures r.Some? ==> r.value.0 && (r.value.1 <==> traderConfirmed)
  {
    if !linked || confirmed then None else Some((true, traderConfirmed))
  }
}
