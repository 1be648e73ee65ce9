/**
 The supplier test double (SuperMarket.Tests/Mocks/SupplierService.cs): a
 stock counter that delivers a request in full or, when it cannot, empties
 itself and delivers nothing.  Its exception becomes a `Fail` result.
 */
module Suppliers {
  import opened Functional
  import opened Primitives

  const FAULT_MESSAGE := "Not enough stock"

  /** The supplier's observable state. */
  datatype SupplierState = SupplierState(available: UInt32, fail: bool)

  /** One `Order` call: what it returns and the state it leaves. */
  function Supply(s: SupplierState, quantity: UInt32): (step: (Result<UInt32>, SupplierState))
    ensures step.0.Ok? <==> !s.fail
    ensures step.1.fail == s.fail
  {
    if s.fail then (Fail(FAULT_MESSAGE), s)
    else if s.available >= quantity then (Ok(quantity), s.(available := s.available - quantity))
    else (Ok(0), s.(available := 0))
  }

  /** A failing supplier throws and keeps its stock. */
  lemma SupplyFault(s: SupplierState, quantity: UInt32)
    requires s.fail
    ensures Supply(s, quantity) == (Fail(FAULT_MESSAGE), s)
  {
  }

  /** The delivery is all or nothing, so never more than requested. */
  lemma SupplyAllOrNothing(s: SupplierState, quantity: UInt32)
    ensures var (r, _) := Supply(s, quantity);
      r.Ok? ==> (r.value == 0 || r.value == quantity) && r.value <= quantity
    ensures var (r, _) := Supply(s, quantity);
      r.Ok? ==> (r.value == quantity <==> s.available >= quantity)
  {
  }

  /**
   Stock never grows and is never created: what is delivered plus what is
   left is at most what there was, with equality unless the supplier ran short.
   */
  lemma SupplyConservation(s: SupplierState, quantity: UInt32)
    ensures var (r, s') := Supply(s, quantity);
      && s'.available <= s.available
      && (r.Ok? ==> r.value + s'.available <= s.available)
      && (r.Ok? && s.available >= quantity ==> r.value + s'.available == s.available)
      && (r.Ok? && s.available < quantity ==> s'.available == 0 && r.value == 0)
  {
  }

  class SupplierService {
    var available: UInt32
    var fail: bool

    function State(): SupplierState
      reads this
    {
      SupplierState(available, fail)
    }

    constructor ()
      ensures available == 0 && !fail
    {
      available := 0;
      fail := false;
    }

    /** The product id and manufacturer do not affect the test double. */
    method Order(productId: int, manufacturer: string, quantity: UInt32) returns (r: Result<UInt32>)
      modifies this
      ensures (r, State()) == Supply(old(State()), quantity)
    {
      if fail {
        return Fail(FAULT_MESSAGE);
      }
      if available >= quantity {
        available := available - quantity;
        return Ok(quantity);
      }
      available := 0;
      return Ok(available);
    }
  }
}
