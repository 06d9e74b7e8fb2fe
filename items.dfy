/** Stackable items in the inventory: using a consumable (`Format1CHandler`)
    and dropping from a stack (`Format08Handler`). The inventory is a map
    from slot number to item. */
module Items {
  import opened Common

  datatype ItemTemplate = ItemTemplate(name: string, stackable: bool, consumable: bool, dropable: bool)

  /** An item; `Stacks` is a byte field. */
  datatype Item = Item(template: Option<ItemTemplate>, stacks: u8)

  /** How many units the slot holds (zero when it is empty). */
  function StackCount(inv: map<int, Item>, slot: int): nat {
    if slot in inv then inv[slot].stacks else 0
  }

  /** A use that reaches the stack code: the item exists, has a template,
      its scripts ran, and it is both stackable and consumable. */
  predicate ConsumesOne(inv: map<int, Item>, slot: int, activated: bool) {
    && slot in inv && inv[slot].template.Some? && activated
    && inv[slot].template.value.stackable && inv[slot].template.value.consumable
  }

  /** Using the item in `slot`: the stack loses one unit, and a stack that
      would reach zero frees the slot. `activated` says whether the item's
      scripts ran; they are not part of this model. */
  function Use(inv: map<int, Item>, slot: int, activated: bool): (r: map<int, Item>)
    ensures !ConsumesOne(inv, slot, activated) ==> r == inv
    ensures ConsumesOne(inv, slot, activated) && inv[slot].stacks > 1 ==>
              slot in r && r[slot] == inv[slot].(stacks := inv[slot].stacks - 1)
    ensures ConsumesOne(inv, slot, activated) && inv[slot].stacks <= 1 ==> slot !in r
    ensures forall k :: k != slot ==> (k in r <==> k in inv)
    ensures forall k :: k != slot && k in inv ==> r[k] == inv[k]
  {
    if slot !in inv then inv
    else
      var item := inv[slot];
      if !activated || item.template.None? then inv
      else if !item.template.value.stackable || !item.template.value.consumable then inv
      else
        var stack := item.stacks - 1;
        if stack > 0 then inv[slot := item.(stacks := item.stacks - 1)]
        else inv - {slot}
  }

  /** A consuming use takes exactly one unit out of a non-empty stack. */
  lemma UseTakesOne(inv: map<int, Item>, slot: int)
    requires ConsumesOne(inv, slot, true) && inv[slot].stacks >= 1
    ensures StackCount(Use(inv, slot, true), slot) == StackCount(inv, slot) - 1
  {
  }

  /** `n` activated uses in a row. */
  function UseTimes(inv: map<int, Item>, slot: int, n: nat): map<int, Item>
    decreases n
  {
    if n == 0 then inv else UseTimes(Use(inv, slot, true), slot, n - 1)
  }

  /** `n` uses of a stack of at least `n` units leave exactly `n` fewer, and
      a stack used as often as it is high is gone. */
  lemma {:induction false} UseTimesCount(inv: map<int, Item>, slot: int, n: nat)
    requires ConsumesOne(inv, slot, true) && n <= inv[slot].stacks
    ensures StackCount(UseTimes(inv, slot, n), slot) == inv[slot].stacks - n
    ensures 0 < n == inv[slot].stacks ==> slot !in UseTimes(inv, slot, n)
    decreases n
  {
    if n > 0 {
      var next := Use(inv, slot, true);
      assert UseTimes(inv, slot, n) == UseTimes(next, slot, n - 1);
      if inv[slot].stacks > 1 {
        UseTimesCount(next, slot, n - 1);
      } else {
        assert UseTimes(next, slot, n - 1) == next;
      }
    }
  }

  datatype DropOutcome =
    | NoItem                  // no item, or one without a template, in the slot
    | CantDrop                // the template is not droppable
    | CantReach               // the target cell is too far or a wall
    | Dropped(ground: Item)   // `ground` is what lands on the map

  datatype DropResult = DropResult(inventory: map<int, Item>, outcome: DropOutcome)

  /** Dropping `amount` from the item in `slot`. A stack splits when some
      remains, with both counts cast to a byte; otherwise (and for an item
      that does not stack) the whole item leaves the inventory. `reachable`
      stands for the distance and wall checks on the target cell. */
  function Drop(inv: map<int, Item>, slot: int, amount: int, reachable: bool): (r: DropResult)
    ensures r.outcome.Dropped? <==>
              slot in inv && inv[slot].template.Some? && inv[slot].template.value.dropable && reachable
    ensures r.outcome == NoItem <==> slot !in inv || inv[slot].template.None?
    ensures r.outcome == CantDrop <==> slot in inv && inv[slot].template.Some? && !inv[slot].template.value.dropable
    ensures r.outcome == CantReach <==>
              slot in inv && inv[slot].template.Some? && inv[slot].template.value.dropable && !reachable
    ensures !r.outcome.Dropped? ==> r.inventory == inv
    ensures r.outcome.Dropped? && (!inv[slot].template.value.stackable || amount >= inv[slot].stacks) ==>
              slot !in r.inventory && r.outcome.ground == inv[slot]
    ensures r.outcome.Dropped? && inv[slot].template.value.stackable && 0 <= amount < inv[slot].stacks ==>
              && slot in r.inventory && r.inventory[slot] == inv[slot].(stacks := inv[slot].stacks - amount)
              && r.outcome.ground == inv[slot].(stacks := amount)
    ensures r.outcome.Dropped? && inv[slot].template.value.stackable && amount < inv[slot].stacks ==>
              && slot in r.inventory && r.inventory[slot] == inv[slot].(stacks := ToByte(inv[slot].stacks - amount))
              && r.outcome.ground == inv[slot].(stacks := ToByte(amount))
    ensures forall k :: k != slot ==> (k in r.inventory <==> k in inv)
    ensures forall k :: k != slot && k in inv ==> r.inventory[k] == inv[k]
  {
    if slot !in inv || inv[slot].template.None? then DropResult(inv, NoItem)
    else
      var item := inv[slot];
      if !item.template.value.dropable then DropResult(inv, CantDrop)
      else if !reachable then DropResult(inv, CantReach)
      else if item.template.value.stackable then
        var remaining := item.stacks - amount;
        if remaining <= 0 then DropResult(inv - {slot}, Dropped(item))
        else DropResult(inv[slot := item.(stacks := ToByte(remaining))], Dropped(item.(stacks := ToByte(amount))))
      else DropResult(inv - {slot}, Dropped(item))
  }

  /** A drop of a non-negative amount neither creates nor destroys units:
      what stays plus what lands is the stack that was there. */
  lemma DropConserves(inv: map<int, Item>, slot: int, amount: int, reachable: bool)
    requires amount >= 0
    requires Drop(inv, slot, amount, reachable).outcome.Dropped?
    ensures StackCount(Drop(inv, slot, amount, reachable).inventory, slot)
              + Drop(inv, slot, amount, reachable).outcome.ground.stacks == inv[slot].stacks
  {
  }

  /** The split has no lower guard on the amount: a small negative amount
      on a stackable item raises the stack by that much, and what lands is
      the amount wrapped to a byte, so exactly 256 units appear. */
  lemma DropNegativeAmount(inv: map<int, Item>, slot: int, amount: int, reachable: bool)
    requires Drop(inv, slot, amount, reachable).outcome.Dropped?
    requires inv[slot].template.value.stackable
    requires -0x100 < amount < 0 && inv[slot].stacks - amount < 0x100
    ensures StackCount(Drop(inv, slot, amount, reachable).inventory, slot) == inv[slot].stacks - amount
    ensures Drop(inv, slot, amount, reachable).outcome.ground.stacks == 0x100 + amount
    ensures StackCount(Drop(inv, slot, amount, reachable).inventory, slot)
              + Drop(inv, slot, amount, reachable).outcome.ground.stacks == inv[slot].stacks + 0x100
  {
  }
}
