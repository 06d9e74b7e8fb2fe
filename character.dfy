/** The connected player (`Aisling`) and the handlers that change it in
    place: stat allocation, slot swaps, using and dropping items, dropping
    gold, the party toggle, the settings toggle, and the exchange. Each
    method is stated against the function of the same rule. */
module Character {
  import opened Common
  import opened Stats
  import opened Slots
  import opened Items
  import opened Gold
  import opened Settings
  import opened Chat

  datatype Skill = Skill(name: string, icon: int)
  datatype Spell = Spell(name: string, icon: int)

  /** The pane a swap request names; any other code throws. */
  datatype Pane = InventoryPane | SkillPane | SpellPane | ToolPane | UnknownPane(code: int)

  datatype SwapOutcome = SwapRejected | Swapped | SwapFault

  /** Every field of a player, as one value: the methods below state their
      whole new state as an update of the old one. */
  datatype AislingState = AislingState(
    username: string, gameMaster: bool,
    stats: Attributes,
    statPoints: int, goldPoints: int,
    inventory: map<int, Item>, inventoryLength: int,
    skillBook: map<int, Skill>, skillBookLength: int,
    spellBook: map<int, Spell>, spellBookLength: int,
    partyStatus: GroupStatus,
    gameSettings: Option<seq<Option<Setting>>>,
    exchange: ExchangeSession?)

  class Aisling {
    var username: string
    var gameMaster: bool
    var stats: Attributes       // `_Str`, `_Int`, `_Wis`, `_Con`, `_Dex`
    var statPoints: int
    var goldPoints: int
    var inventory: map<int, Item>
    var inventoryLength: int
    var skillBook: map<int, Skill>
    var skillBookLength: int
    var spellBook: map<int, Spell>
    var spellBookLength: int
    var partyStatus: GroupStatus
    var gameSettings: Option<seq<Option<Setting>>>
    var exchange: ExchangeSession?

    /** A player as loaded: the stats and the pane sizes come from the
        stored record and the server's configuration. */
    constructor (username: string, gameMaster: bool, stats: Attributes,
                 inventoryLength: int, skillBookLength: int, spellBookLength: int)
      ensures Snapshot() == AislingState(username, gameMaster, stats, 0, 0, map[], inventoryLength,
                                         map[], skillBookLength, map[], spellBookLength,
                                         AcceptingRequests, None, null)
    {
      this.username := username;
      this.gameMaster := gameMaster;
      this.stats := stats;
      statPoints, goldPoints := 0, 0;
      inventory, skillBook, spellBook := map[], map[], map[];
      this.inventoryLength, this.skillBookLength, this.spellBookLength := inventoryLength, skillBookLength, spellBookLength;
      partyStatus := AcceptingRequests;
      gameSettings := None;
      exchange := null;
    }

    function Snapshot(): AislingState
      reads this
    {
      AislingState(username, gameMaster, stats, statPoints, goldPoints,
                   inventory, inventoryLength, skillBook, skillBookLength, spellBook, spellBookLength,
                   partyStatus, gameSettings, exchange)
    }

    /** `Format47Handler`: only the stats and the unspent points change. */
    method RaiseStats(flags: StatFlags, statCap: u8)
      modifies this
      ensures (stats, statPoints) == Allocate(old(stats), old(statPoints), gameMaster, flags, statCap)
      ensures old(statPoints) != 0 ==> WithinCap(stats, statCap)
      ensures Snapshot() == old(Snapshot()).(stats := stats, statPoints := statPoints)
    {
      if statPoints == 0 {
        return;
      }
      // The increments, the caps and the zero checks touch each stat on
      // its own, so they are applied stat by stat.
      var raised := stats.(str := RaiseStat(stats.str, flags.str, statCap));
      raised := raised.(intel := RaiseStat(raised.intel, flags.intel, statCap));
      raised := raised.(wis := RaiseStat(raised.wis, flags.wis, statCap));
      raised := raised.(con := RaiseStat(raised.con, flags.con, statCap));
      raised := raised.(dex := RaiseStat(raised.dex, flags.dex, statCap));
      var points := statPoints;
      if !gameMaster {
        points := points - 1;
      }
      if points < 0 {
        points := 0;
      }
      assert raised == RaiseAll(stats, flags, statCap);
      assert points == SpendPoint(statPoints, gameMaster);
      stats, statPoints := raised, points;
    }

    /** `Format30Handler`: the tool pane swaps in the spell book, bounded by
        the spell book's length; only the pane swapped in changes. */
    method SwapSlots(pane: Pane, from: int, to: int) returns (outcome: SwapOutcome)
      modifies this
      ensures pane.UnknownPane? <==> outcome == SwapFault
      ensures pane.InventoryPane? ==>
                (outcome == Swapped <==> SwapInPane(old(inventory), inventoryLength, from, to).Some?) &&
                Snapshot() == old(Snapshot()).(inventory := if outcome == Swapped then Swap(old(inventory), from, to)
                                                            else old(inventory))
      ensures pane.SkillPane? ==>
                (outcome == Swapped <==> SwapInPane(old(skillBook), skillBookLength, from, to).Some?) &&
                Snapshot() == old(Snapshot()).(skillBook := if outcome == Swapped then Swap(old(skillBook), from, to)
                                                            else old(skillBook))
      ensures (pane.SpellPane? || pane.ToolPane?) ==>
                (outcome == Swapped <==> SwapInPane(old(spellBook), spellBookLength, from, to).Some?) &&
                Snapshot() == old(Snapshot()).(spellBook := if outcome == Swapped then Swap(old(spellBook), from, to)
                                                            else old(spellBook))
      ensures pane.UnknownPane? ==> Snapshot() == old(Snapshot())
    {
      match pane {
        case InventoryPane =>
          var r := SwapInPane(inventory, inventoryLength, from, to);
          if r.None? { return SwapRejected; }
          inventory := r.value;
        case SkillPane =>
          var r := SwapInPane(skillBook, skillBookLength, from, to);
          if r.None? { return SwapRejected; }
          skillBook := r.value;
        case SpellPane =>
          var r := SwapInPane(spellBook, spellBookLength, from, to);
          if r.None? { return SwapRejected; }
          spellBook := r.value;
        case ToolPane =>
          var r := SwapInPane(spellBook, spellBookLength, from, to);
          if r.None? { return SwapRejected; }
          spellBook := r.value;
        case UnknownPane(_) =>
          return SwapFault;
      }
      outcome := Swapped;
    }

    /** `Format1CHandler`, after the item's scripts ran (`activated`) or not;
        only the inventory changes. */
    method UseItem(slot: int, activated: bool)
      modifies this
      ensures Snapshot() == old(Snapshot()).(inventory := Use(old(inventory), slot, activated))
      ensures ConsumesOne(old(inventory), slot, true) && activated && old(inventory)[slot].stacks >= 1 ==>
                StackCount(inventory, slot) == StackCount(old(inventory), slot) - 1
    {
      inventory := Use(inventory, slot, activated);
      if ConsumesOne(old(inventory), slot, true) && activated && old(inventory)[slot].stacks >= 1 {
        UseTakesOne(old(inventory), slot);
      }
    }

    /** `Format08Handler`: what lands on the map is returned; only the
        inventory changes. */
    method DropItem(slot: int, amount: int, reachable: bool) returns (outcome: DropOutcome)
      modifies this
      ensures outcome == Drop(old(inventory), slot, amount, reachable).outcome
      ensures Snapshot() == old(Snapshot()).(inventory := Drop(old(inventory), slot, amount, reachable).inventory)
      ensures outcome.Dropped? && amount >= 0 ==>
                StackCount(inventory, slot) + outcome.ground.stacks == StackCount(old(inventory), slot)
    {
      var r := Drop(inventory, slot, amount, reachable);
      inventory := r.inventory;
      outcome := r.outcome;
      if outcome.Dropped? && amount >= 0 {
        DropConserves(old(inventory), slot, amount, reachable);
      }
    }

    /** `Format24Handler`: only the gold changes. */
    method DropGoldOnMap(amount: int) returns (dropped: bool)
      modifies this
      ensures dropped <==> old(goldPoints) >= amount
      ensures dropped ==> goldPoints == old(goldPoints) - amount && goldPoints >= 0
      ensures !dropped ==> goldPoints == old(goldPoints)
      ensures Snapshot() == old(Snapshot()).(goldPoints := goldPoints)
    {
      var r := DropGold(goldPoints, amount);
      if r.None? {
        return false;
      }
      goldPoints := r.value;
      dropped := true;
    }

    /** `Format2FHandler`: only the party status changes. */
    method TogglePartyStatus()
      modifies this
      ensures Snapshot() == old(Snapshot()).(partyStatus := ToggleParty(old(partyStatus)))
    {
      var mode := partyStatus;
      if mode == AcceptingRequests {
        mode := NotAcceptingRequests;
      } else if mode == NotAcceptingRequests {
        mode := AcceptingRequests;
      }
      partyStatus := mode;
    }

    /** `Format1BHandler`: returns the settings line it re-sends, if any;
        `None` also for the faulting cases, which change nothing. Only the
        settings change. */
    method ToggleSetting(index: int) returns (line: Option<string>)
      modifies this
      ensures var t := Toggle(old(gameSettings), index);
              && (t.Toggled? ==> gameSettings == Some(t.settings) && line == Some(SettingsLine(t.settings)))
              && (t.Refreshed? ==> gameSettings == old(gameSettings) && line == Some(SettingsLine(old(gameSettings).value)))
              && (t.Unchanged? || t.Fault? ==> gameSettings == old(gameSettings) && line.None?)
      ensures Snapshot() == old(Snapshot()).(gameSettings := gameSettings)
    {
      var t := Toggle(gameSettings, index);
      match t {
        case Toggled(s) =>
          gameSettings := Some(s);
          var msg := UpdateSettings(s);
          line := Some(msg);
        case Refreshed =>
          var msg := UpdateSettings(gameSettings.value);
          line := Some(msg);
        case _ =>
          line := None;
      }
    }
  }

  /** One side of an exchange: the other player, the gold put in and
      whether this side confirmed. */
  class ExchangeSession {
    var trader: Aisling
    var gold: int
    var confirmed: bool

    constructor (trader: Aisling)
      ensures this.trader == trader && gold == 0 && !confirmed
    {
      this.trader := trader;
      gold := 0;
      confirmed := false;
    }
  }

  /** Case 0x03: the player offers `gold`. */
  method OfferGold(player: Aisling, trader: Aisling, gold: int) returns (accepted: bool)
    modifies player, player.exchange
    ensures var linked := old(player.exchange) != null && old(trader.exchange) != null &&
                          old(player.exchange.trader) == trader && old(trader.exchange.trader) == player;
            var before := if old(player.exchange) != null then Purse(old(player.goldPoints), old(player.exchange.gold))
                          else Purse(old(player.goldPoints), 0);
            var confirmed := old(player.exchange) != null && old(player.exchange.confirmed);
            var r := Offer(before, linked, confirmed, gold);
            && (accepted <==> r.Some?)
            && (accepted ==> player.exchange != null && old(player.exchange) != null)
            && (accepted ==> player.goldPoints == r.value.goldPoints && player.exchange.gold == r.value.offered)
            && (accepted ==> player.goldPoints + player.exchange.gold == old(player.goldPoints) + old(player.exchange.gold))
    ensures accepted ==> player.Snapshot() == old(player.Snapshot()).(goldPoints := player.goldPoints)
    ensures !accepted ==> player.Snapshot() == old(player.Snapshot())
    ensures old(player.exchange) != null ==>
              player.exchange.trader == old(player.exchange.trader) &&
              player.exchange.confirmed == old(player.exchange.confirmed)
    ensures !accepted && old(player.exchange) != null ==> player.exchange.gold == old(player.exchange.gold)
  {
    var session := player.exchange;
    if session == null || trader.exchange == null {
      return false;
    }
    var linked := session.trader == trader && trader.exchange.trader == player;
    var r := Offer(Purse(player.goldPoints, session.gold), linked, session.confirmed, gold);
    if r.None? {
      return false;
    }
    player.goldPoints := player.goldPoints - gold;
    session.gold := gold;
    accepted := true;
  }

  /** Case 0x05: the player confirms; `finish` says whether the exchange is
      then completed (the trader had confirmed already). */
  method ConfirmExchange(player: Aisling, trader: Aisling) returns (finish: bool)
    modifies player.exchange
    ensures var linked := old(player.exchange) != null && old(trader.exchange) != null &&
                          old(player.exchange.trader) == trader && old(trader.exchange.trader) == player;
            var confirmed := old(player.exchange) != null && old(player.exchange.confirmed);
            // a player trading with themself shares one session, and sees their own confirmation
            var traderConfirmed := linked && (old(trader.exchange.confirmed) || trader.exchange == player.exchange);
            var r := Confirm(linked, confirmed, traderConfirmed);
            && (r.Some? ==> player.exchange.confirmed && (finish <==> r.value.1))
            && (r.None? ==> !finish && (player.exchange != null ==> player.exchange.confirmed == old(player.exchange.confirmed)))
    ensures player.exchange != null ==>
              player.exchange.gold == old(player.exchange.gold) && player.exchange.trader == old(player.exchange.trader)
  {
    var session := player.exchange;
    if session == null || trader.exchange == null {
      return false;
    }
    if session.trader != trader || trader.exchange.trader != player {
      return false;
    }
    if session.confirmed {
      return false;
    }
    session.confirmed := true;
    finish := trader.exchange.confirmed;
  }
}
