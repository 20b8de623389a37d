/** The non-blocking budgets of internal/admission/budget.go. */
module Admission {

  /** `Lease`: `released` is the state of its `sync.Once`. */
  class Lease {
    const budget: Budget
    var released: bool

    constructor (budget: Budget)
      ensures this.budget == budget && !released
    {
      this.budget := budget;
      released := false;
    }
  }

  /** `Budget`: `slots` is the number of tokens in its channel, `held` the leases not yet released. */
  class Budget {
    const limit: int
    var slots: int
    ghost var held: set<Lease>

    /** Tokens and unreleased leases correspond, and never exceed the limit. */
    ghost predicate Valid()
      reads this, held
    {
      && 1 <= limit && slots == |held| && slots <= limit
      && forall l :: l in held ==> l.budget == this && !l.released
    }

    constructor (limit: int)
      requires limit >= 1
      ensures Valid() && this.limit == limit && held == {}
    {
      this.limit := limit;
      slots := 0;
      held := {};
    }

    /** `TryAcquire`: succeeds exactly while there is room. */
    method TryAcquire() returns (lease: Lease?)
      requires Valid()
      modifies this
      ensures Valid()
      ensures lease != null <==> old(slots) < limit
      ensures lease != null ==> fresh(lease) && lease.budget == this && held == old(held) + {lease}
      ensures lease == null ==> held == old(held)
    {
      if slots < limit {
        lease := new Lease(this);
        slots := slots + 1;
        held := held + {lease};
      } else {
        lease := null;
      }
    }
  }

  /** `(*Lease).Release`, which is callable on nil and any number of times. The receive from the
      channel finds a token whenever it happens, so it never blocks, and each lease gives back one. */
  method Release(lease: Lease?)
    requires lease != null ==> lease.budget.Valid() && (!lease.released ==> lease in lease.budget.held)
    modifies if lease == null then {} else {lease, lease.budget}
    ensures lease != null ==>
              && lease.released && lease.budget.Valid()
              && lease.budget.held == old(lease.budget.held) - {lease}
              && lease.budget.slots == old(lease.budget.slots) - (if old(lease.released) then 0 else 1)
  {
    if lease != null && !lease.released {
      var b := lease.budget;
      assert lease in b.held && |b.held| > 0;
      lease.released := true;
      b.held := b.held - {lease};
      b.slots := b.slots - 1;
    }
  }
}
