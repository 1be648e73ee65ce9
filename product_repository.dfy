/**
 The repository test double (SuperMarket.Tests/Mocks/ProductRepository.cs).
 `Add` stages a product; `Commit` copies the staged entries into the
 persistent store and clears the stage; `Find` reads the persistent store
 only, and returns the stored instance itself, not a copy.

 In the source the persistent dictionary is static and shared by every
 repository instance; here it is one field of one store.
 */
module Repositories {
  import opened Functional
  import opened Products

  const COMMIT_FAULT_MESSAGE := "Failed to store products"

  /** The persistent store after committing `staged` over it: staged entries win. */
  function Committed(persistent: map<int, Product>, staged: map<int, Product>): (m: map<int, Product>)
    ensures m.Keys == persistent.Keys + staged.Keys
    ensures forall id | id in staged :: m[id] == staged[id]
    ensures forall id | id in persistent && id !in staged :: m[id] == persistent[id]
  {
    persistent + staged
  }

  /** Committing the same stage twice changes nothing the second time. */
  lemma CommittedIdempotent(persistent: map<int, Product>, staged: map<int, Product>)
    ensures Committed(Committed(persistent, staged), staged) == Committed(persistent, staged)
  {
  }

  /** Committing an empty stage changes nothing. */
  lemma CommittedEmpty(persistent: map<int, Product>)
    ensures Committed(persistent, map[]) == persistent
  {
  }

  /**
   Part way through the commit loop: the ids of `staged` outside `pending`
   have been copied over `before`, and nothing else has changed.
   */
  predicate PartlyCommitted(current: map<int, Product>, before: map<int, Product>,
                            staged: map<int, Product>, pending: set<int>)
  {
    && current.Keys == before.Keys + (staged.Keys - pending)
    && (forall id | id in staged && id !in pending :: current[id] == staged[id])
    && (forall id | id in before && (id !in staged || id in pending) :: current[id] == before[id])
  }

  lemma CommitStep(current: map<int, Product>, before: map<int, Product>,
                   staged: map<int, Product>, pending: set<int>, key: int)
    requires PartlyCommitted(current, before, staged, pending)
    requires key in pending && pending <= staged.Keys
    ensures PartlyCommitted(current[key := staged[key]], before, staged, pending - {key})
  {
  }

  lemma CommitDone(current: map<int, Product>, before: map<int, Product>, staged: map<int, Product>)
    requires PartlyCommitted(current, before, staged, {})
    ensures current == Committed(before, staged)
  {
    var committed := Committed(before, staged);
    assert current.Keys == committed.Keys;
    assert forall id | id in current :: current[id] == committed[id];
  }

  /** A set of ids is empty or has a member to pick. */
  lemma EmptyOrHasMember(ids: set<int>)
    ensures ids == {} || exists id :: id in ids
  {
    if forall id :: id !in ids {
      assert ids == {};
    }
  }

  class ProductRepository {
    /** `_persistent`: what `Find` sees. */
    var persistent: map<int, Product>
    /** `_products`: added but not yet committed. */
    var staged: map<int, Product>
    /** `ThrowOnCommit`: private and never assigned, so always false. */
    var throwOnCommit: bool

    /** Also stands for the static constructor and `DeleteDatabase` run before first use. */
    constructor ()
      ensures persistent == map[] && staged == map[] && !throwOnCommit
    {
      persistent := map[];
      staged := map[];
      throwOnCommit := false;
    }

    method DeleteDatabase()
      modifies this
      ensures persistent == map[]
      ensures staged == old(staged) && throwOnCommit == old(throwOnCommit)
    {
      persistent := map[];
    }

    /** Replaces any staged product with the same id. */
    method Add(product: Product)
      modifies this
      ensures staged == old(staged)[product.productId := product]
      ensures persistent == old(persistent) && throwOnCommit == old(throwOnCommit)
    {
      if product.productId in staged {
        staged := staged - {product.productId};
      }
      assert product.productId !in staged;  // `Dictionary.Add` would throw on a duplicate key
      staged := staged[product.productId := product];
    }

    /** Only committed products are found, and the stored instance is returned. */
    method Find(productId: int) returns (found: Maybe<Product>)
      ensures found.Some? <==> productId in persistent
      ensures found.Some? ==> found.value == persistent[productId]
    {
      if productId in persistent {
        return Some(persistent[productId]);
      }
      return None;
    }

    /** A thrown `DataException` is a `Fail` result. */
    method Commit() returns (r: Result<()>)
      modifies this
      ensures throwOnCommit == old(throwOnCommit)
      ensures old(throwOnCommit) ==>
        r == Fail(COMMIT_FAULT_MESSAGE) && persistent == old(persistent) && staged == old(staged)
      ensures !old(throwOnCommit) ==>
        r == Ok(()) && persistent == Committed(old(persistent), old(staged)) && staged == map[]
    {
      if throwOnCommit {
        return Fail(COMMIT_FAULT_MESSAGE);
      }
      var pending := staged.Keys;
      while pending != {}
        invariant pending <= staged.Keys && staged == old(staged) && !throwOnCommit
        invariant PartlyCommitted(persistent, old(persistent), staged, pending)
        decreases pending
      {
        EmptyOrHasMember(pending);
        var key :| key in pending;
        ghost var current := persistent;
        if key in persistent {
          persistent := persistent - {key};
        }
        assert key !in persistent;  // `Dictionary.Add` would throw on a duplicate key
        persistent := persistent[key := staged[key]];
        CommitStep(current, old(persistent), staged, pending, key);
        pending := pending - {key};
      }
      CommitDone(persistent, old(persistent), staged);
      staged := map[];
      r := Ok(());
    }
  }
}
