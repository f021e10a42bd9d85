/**
 * The emergency-reroll pool on an item: which field counts the remaining uses, whether
 * any are left, and the check-then-decrement that spends one.
 */
module Resource {
  import opened Wrappers

  /** Where an item keeps its remaining uses. */
  datatype Pool = Unlimited | Quantity(n: int) | Uses(value: int)

  /** A numeric quantity wins; otherwise a numeric uses value; otherwise the pool is unlimited. */
  function PoolOf(quantity: Option<int>, usesValue: Option<int>): Pool
  {
    if quantity.Some? then Quantity(quantity.value)
    else if usesValue.Some? then Uses(usesValue.value)
    else Unlimited
  }

  predicate Available(p: Pool)
  {
    match p
    case Quantity(n) => n > 0
    case Uses(v) => v > 0
    case Unlimited => true
  }

  /** One use fewer, in whichever field counts; an unlimited pool stays as it is. */
  function Decrement(p: Pool): Pool
  {
    match p
    case Quantity(n) => Quantity(n - 1)
    case Uses(v) => Uses(v - 1)
    case Unlimited => Unlimited
  }

  /** The partial update sent to the host: one field path and its new value. */
  datatype Update = SetQuantity(quantity: int) | SetUsesValue(value: int)

  /** The two pool fields after a partial update: only the named field changes. */
  function ApplyUpdate(quantity: Option<int>, usesValue: Option<int>, u: Update): (Option<int>, Option<int>)
  {
    match u
    case SetQuantity(q) => (Some(q), usesValue)
    case SetUsesValue(v) => (quantity, Some(v))
  }

  /**
   * What consuming decides before touching the item: refuse when the counting field is
   * at most 0, succeed without an update when nothing counts, or send one update.
   */
  datatype Plan = Exhausted | Unmetered | Apply(update: Update)

  function PlanConsume(quantity: Option<int>, usesValue: Option<int>): (plan: Plan)
    ensures plan.Exhausted? <==> !Available(PoolOf(quantity, usesValue))
    ensures plan.Unmetered? <==> PoolOf(quantity, usesValue).Unlimited?
    ensures plan.Apply? ==>
      var after := ApplyUpdate(quantity, usesValue, plan.update);
      PoolOf(after.0, after.1) == Decrement(PoolOf(quantity, usesValue)) &&
      (quantity.Some? ==> after.1 == usesValue) &&
      (quantity.None? ==> after.0 == quantity)
  {
    if quantity.Some? then
      if quantity.value <= 0 then Exhausted else Apply(SetQuantity(quantity.value - 1))
    else if usesValue.Some? then
      if usesValue.value <= 0 then Exhausted else Apply(SetUsesValue(usesValue.value - 1))
    else Unmetered
  }

  /**
   * An item of an actor. Its id and name never change here; `quantity` and `usesValue`
   * are None when the host record has no number in that place.
   */
  class Item {
    const id: string
    const name: string
    var quantity: Option<int>
    var usesValue: Option<int>

    constructor (id: string, name: string, quantity: Option<int>, usesValue: Option<int>)
      ensures this.id == id && this.name == name
      ensures this.quantity == quantity && this.usesValue == usesValue
    {
      this.id := id;
      this.name := name;
      this.quantity := quantity;
      this.usesValue := usesValue;
    }

    function Pool(): Pool
      reads this
    {
      PoolOf(quantity, usesValue)
    }

    /** The host's partial-field update of the item. */
    method Update(u: Update)
      modifies this
      ensures (quantity, usesValue) == ApplyUpdate(old(quantity), old(usesValue), u)
    {
      match u
      case SetQuantity(q) => quantity := Some(q);
      case SetUsesValue(v) => usesValue := Some(v);
    }
  }

  /** The availability policy: no item, nothing left; otherwise the counting field must be positive. */
  function HasUsesRemaining(item: Item?): (r: bool)
    reads item
    ensures item == null ==> !r
    ensures item != null && item.quantity.Some? ==> (r <==> item.quantity.value > 0)
    ensures item != null && item.quantity.None? && item.usesValue.Some? ==> (r <==> item.usesValue.value > 0)
    ensures item != null && item.quantity.None? && item.usesValue.None? ==> r
  {
    item != null && Available(item.Pool())
  }

  /**
   * Spends one use of the item: succeeds exactly when the item has uses remaining, and
   * then lowers the counting field by one and leaves the other field alone.
   */
  method ConsumeEmergencyD20(item: Item?) returns (ok: bool)
    modifies item
    ensures ok == old(HasUsesRemaining(item))
    ensures item != null ==> item.Pool() == if ok then Decrement(old(item.Pool())) else old(item.Pool())
    ensures item != null && old(item.quantity).Some? ==> item.usesValue == old(item.usesValue)
    ensures item != null && old(item.quantity).None? ==> item.quantity == old(item.quantity)
    ensures item != null && (!ok || old(item.Pool()).Unlimited?) ==> unchanged(item)
  {
    if item == null {
      return false;
    }
    var plan := PlanConsume(item.quantity, item.usesValue);
    match plan
    case Exhausted =>
      ok := false;
    case Unmetered =>
      ok := true;
    case Apply(u) =>
      item.Update(u);
      ok := true;
  }

  /** The pool after k attempts to consume, each one refused once nothing is left. */
  function AfterConsumes(p: Pool, k: nat): Pool
  {
    if k == 0 then p
    else
      var q := AfterConsumes(p, k - 1);
      if Available(q) then Decrement(q) else q
  }

  /** A quantity of n admits exactly n successful consumes and then stays at 0. */
  lemma {:induction false} QuantityBudget(n: nat, k: nat)
    ensures AfterConsumes(Quantity(n), k) == Quantity(if k <= n then n - k else 0)
    ensures Available(AfterConsumes(Quantity(n), k)) <==> k < n
  {
    if k > 0 {
      QuantityBudget(n, k - 1);
    }
  }

  /** Likewise for a uses value of v. */
  lemma {:induction false} UsesBudget(v: nat, k: nat)
    ensures AfterConsumes(Uses(v), k) == Uses(if k <= v then v - k else 0)
    ensures Available(AfterConsumes(Uses(v), k)) <==> k < v
  {
    if k > 0 {
      UsesBudget(v, k - 1);
    }
  }

  /** An unlimited pool never runs out. */
  lemma {:induction false} UnlimitedNeverExhausted(k: nat)
    ensures AfterConsumes(Unlimited, k) == Unlimited
  {
    if k > 0 {
      UnlimitedNeverExhausted(k - 1);
    }
  }
}
