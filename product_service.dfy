/**
 `ProductService` (SuperMarket.Service/Services/ProductService.cs): product
 creation, lookup and order fulfilment over the repository and supplier.

 The transport response is reduced to its three outcomes; the JSON body is
 the `ProductDefinition` payload of `Ok` or the message of the other two.
 Exceptions raised by the collaborators arrive as `Fail` results.
 */
module Service {
  import opened Functional
  import opened Primitives
  import ProductNames
  import ManufacturerNames
  import Emails
  import opened Products
  import opened Suppliers
  import opened Repositories

  /**
   The service's plain input and output record (ProductDefinition.cs).  Name
   and manufacturer are guarded against `null`; the importer e-mail may be
   absent.
   */
  datatype ProductDefinition = ProductDefinition(
    productId: int,
    category: Category,
    name: string,
    manufacturer: string,
    importerEmail: Maybe<string>,
    quantity: UInt32)

  datatype Response =
    | Ok(payload: Maybe<ProductDefinition>)
    | BadRequest(message: string)
    | InternalError(message: string)

  const TOO_LARGE_MESSAGE := "The order is too large"
  const OUT_OF_STOCK_MESSAGE := "The product is out of stock"
  const NOT_FOUND_PREFIX := "Product with id "
  const NOT_FOUND_SUFFIX := " was not found"

  /** `$"Product with id {productId} was not found"`. */
  function NotFoundMessage(productId: int): (m: string)
    ensures |m| == |NOT_FOUND_PREFIX| + |DecimalString(productId)| + |NOT_FOUND_SUFFIX|
    ensures m[..|NOT_FOUND_PREFIX|] == NOT_FOUND_PREFIX
    ensures m[|m| - |NOT_FOUND_SUFFIX|..] == NOT_FOUND_SUFFIX
    ensures m[|NOT_FOUND_PREFIX|..|m| - |NOT_FOUND_SUFFIX|] == DecimalString(productId)
  {
    var m := NOT_FOUND_PREFIX + DecimalString(productId) + NOT_FOUND_SUFFIX;
    assert m[|NOT_FOUND_PREFIX|..|m| - |NOT_FOUND_SUFFIX|] == DecimalString(productId);
    assert m[..|NOT_FOUND_PREFIX|] == NOT_FOUND_PREFIX;
    assert m[|m| - |NOT_FOUND_SUFFIX|..] == NOT_FOUND_SUFFIX;
    m
  }

  /** The message names the id: different ids give different messages. */
  lemma NotFoundMessageInjective(a: int, b: int)
    requires NotFoundMessage(a) == NotFoundMessage(b)
    ensures a == b
  {
    DecimalStringInjective(a, b);
  }

  // ---------------------------------------------------------------------
  // Creation: validation of the definition.
  // ---------------------------------------------------------------------

  /** The three validated values of a product. */
  datatype Fields = Fields(
    name: ProductNames.ProductName,
    manufacturer: ManufacturerNames.ManufacturerName,
    importerEmail: Maybe<Emails.Email>)

  /** `GetImporterEmail`: an absent e-mail is valid and skips `Email.Create`. */
  function GetImporterEmail(definition: ProductDefinition): (r: Result<Maybe<Emails.Email>>)
    ensures definition.importerEmail.None? ==> r == Result.Ok(None)
    ensures r.Ok? <==> definition.importerEmail.None? || Emails.RegexMatches(definition.importerEmail.value)
    ensures r.Ok? ==> (r.value.Some? <==> definition.importerEmail.Some?)
    ensures r.Ok? && r.value.Some? ==> r.value.value.value == definition.importerEmail.value
    ensures r.Fail? ==> r.error == Emails.INVALID_MESSAGE
  {
    if definition.importerEmail.None? then Result.Ok(None)
    else Map(Emails.Create(definition.importerEmail), x => Some(x))
  }

  /** Every field of the definition passes its own validation. */
  ghost predicate IsValidDefinition(definition: ProductDefinition) {
    && ProductNames.IsValid(definition.name)
    && ManufacturerNames.IsValid(definition.manufacturer)
    && (definition.importerEmail.Some? ==> Emails.RegexMatches(definition.importerEmail.value))
  }

  /**
   The pure part of `CreateProduct`: the three factories, `Result.Combine`,
   then `OnSuccess` building the product's values.
   */
  function Validate(definition: ProductDefinition): (r: Result<Fields>)
    ensures r.Ok? <==> IsValidDefinition(definition)
    ensures r.Ok? ==> && r.value.name.value == definition.name
                      && r.value.manufacturer.value == definition.manufacturer
                      && (r.value.importerEmail.Some? <==> definition.importerEmail.Some?)
                      && (r.value.importerEmail.Some? ==>
                            r.value.importerEmail.value.value == definition.importerEmail.value)
  {
    var productName := ProductNames.Create(Some(definition.name));
    var manufacturer := ManufacturerNames.Create(Some(definition.manufacturer));
    var emailOrNothing := GetImporterEmail(definition);
    var combined := Combine([Forget(productName), Forget(manufacturer), Forget(emailOrNothing)]);
    assert combined.Ok? ==> productName.Ok? && manufacturer.Ok? && emailOrNothing.Ok? by {
      if combined.Ok? {
        var rs := [Forget(productName), Forget(manufacturer), Forget(emailOrNothing)];
        assert rs[0].Ok? && rs[1].Ok? && rs[2].Ok?;
      }
    }
    OnSuccessThen(combined,
      () requires productName.Ok? && manufacturer.Ok? && emailOrNothing.Ok? =>
        Fields(productName.value, manufacturer.value, emailOrNothing.value))
  }

  /** The first failing field, in the order name, manufacturer, e-mail, decides the message. */
  lemma ValidateFirstError(definition: ProductDefinition)
    ensures !ProductNames.IsValid(definition.name) ==>
      Validate(definition) == Fail(ProductNames.Create(Some(definition.name)).error)
    ensures ProductNames.IsValid(definition.name) && !ManufacturerNames.IsValid(definition.manufacturer) ==>
      Validate(definition) == Fail(ManufacturerNames.Create(Some(definition.manufacturer)).error)
    ensures (ProductNames.IsValid(definition.name) && ManufacturerNames.IsValid(definition.manufacturer)
             && !IsValidDefinition(definition))
      ==> Validate(definition) == Fail(Emails.INVALID_MESSAGE)
  {
    var productName := ProductNames.Create(Some(definition.name));
    var manufacturer := ManufacturerNames.Create(Some(definition.manufacturer));
    var emailOrNothing := GetImporterEmail(definition);
    var rs := [Forget(productName), Forget(manufacturer), Forget(emailOrNothing)];
    if productName.Fail? {
      CombineFirstError(rs, 0);
    } else if manufacturer.Fail? {
      CombineFirstError(rs, 1);
    } else if emailOrNothing.Fail? {
      CombineFirstError(rs, 2);
    }
  }

  /** The record `GetProduct` returns for a product with these values; an absent e-mail becomes `null`. */
  function ToDefinition(productId: int, category: Category, fields: Fields, quantity: UInt32): (d: ProductDefinition)
    ensures d.productId == productId && d.category == category && d.quantity == quantity
    ensures d.name == fields.name.value && d.manufacturer == fields.manufacturer.value
    ensures d.importerEmail.Some? <==> fields.importerEmail.Some?
    ensures d.importerEmail.Some? ==> d.importerEmail.value == fields.importerEmail.value.value
  {
    var email := if fields.importerEmail.Some? then Some(fields.importerEmail.value.value) else None;
    ProductDefinition(productId, category, fields.name.value, fields.manufacturer.value, email, quantity)
  }

  /** What `GetProduct` reports for a stored product. */
  function DefinitionOf(product: Product): (d: ProductDefinition)
    reads product
    ensures d.productId == product.productId && d.category == product.category && d.quantity == product.quantity
    ensures d.name == product.name.value && d.manufacturer == product.manufacturer.value
    ensures d.importerEmail.Some? <==> product.importerEmail.Some?
    ensures d.importerEmail.Some? ==> d.importerEmail.value == product.importerEmail.value.value
  {
    ToDefinition(product.productId, product.category,
                 Fields(product.name, product.manufacturer, product.importerEmail), product.quantity)
  }

  /** No normalisation: projecting the validated values back gives the definition itself. */
  lemma ValidateRoundTrip(definition: ProductDefinition)
    requires Validate(definition).Ok?
    ensures ToDefinition(definition.productId, definition.category, Validate(definition).value, definition.quantity)
         == definition
  {
  }

  /** Validated values survive a trip through the definition record. */
  lemma ToDefinitionRoundTrip(productId: int, category: Category, fields: Fields, quantity: UInt32)
    requires ProductNames.IsValid(fields.name.value) && ManufacturerNames.IsValid(fields.manufacturer.value)
    requires fields.importerEmail.Some? ==> Emails.RegexMatches(fields.importerEmail.value.value)
    ensures Validate(ToDefinition(productId, category, fields, quantity)) == Result.Ok(fields)
  {
    var d := ToDefinition(productId, category, fields, quantity);
    assert IsValidDefinition(d);
  }

  // ---------------------------------------------------------------------
  // Ordering: the fulfilment state machine on values.
  // ---------------------------------------------------------------------

  /** How the checks before the commit end. */
  datatype Verdict = Rejected(message: string) | Faulted(message: string) | Debited

  /** The state an order touches: the product's quantity and the supplier. */
  datatype Stock = Stock(onHand: UInt32, supplier: SupplierState)

  /**
   Steps 2 to 6 of `Order` once the product is found: the size bound, the
   stock check, the restock, the sufficiency re-check and the debit.  The
   `uint` arithmetic of the shortfall, the re-check sum, the restock and the
   debit is unchecked, so each is wrapped modulo 2^32.
   */
  function OrderSteps(quantity: UInt32, maxQuantityInOrder: UInt32, start: Stock): (r: (Verdict, Stock))
    ensures r.0.Rejected? ==> r.0.message == TOO_LARGE_MESSAGE || r.0.message == OUT_OF_STOCK_MESSAGE
    ensures r.0.Faulted? <==> quantity <= maxQuantityInOrder && start.onHand < quantity && start.supplier.fail
    ensures r.0.Faulted? ==> r == (Faulted(FAULT_MESSAGE), start)
    ensures r.0.Debited? ==> r.1.onHand <= start.onHand
  {
    if quantity > maxQuantityInOrder then (Rejected(TOO_LARGE_MESSAGE), start)
    else if start.onHand < quantity then
      var excess := Wrap32(quantity - start.onHand);
      var (ordered, supplier) := Supply(start.supplier, excess);
      if ordered.Fail? then (Faulted(ordered.error), start.(supplier := supplier))
      else if Wrap32(start.onHand + ordered.value) < quantity then
        (Rejected(OUT_OF_STOCK_MESSAGE), start.(supplier := supplier))
      else
        var restocked := Wrap32(start.onHand + ordered.value);
        (Debited, Stock(Wrap32(restocked - quantity), supplier))
    else (Debited, start.(onHand := Wrap32(start.onHand - quantity)))
  }

  /** An order above the limit is rejected before the supplier is asked, and changes nothing. */
  lemma OrderTooLarge(quantity: UInt32, maxQuantityInOrder: UInt32, start: Stock)
    requires quantity > maxQuantityInOrder
    ensures OrderSteps(quantity, maxQuantityInOrder, start) == (Rejected(TOO_LARGE_MESSAGE), start)
  {
  }

  /** Enough stock on hand: no supplier call, and the quantity is debited exactly. */
  lemma OrderFromStock(quantity: UInt32, maxQuantityInOrder: UInt32, start: Stock)
    requires quantity <= maxQuantityInOrder && start.onHand >= quantity
    ensures OrderSteps(quantity, maxQuantityInOrder, start)
         == (Debited, start.(onHand := start.onHand - quantity))
  {
  }

  /** A supplier fault is an internal error carrying its message; the quantity is untouched. */
  lemma OrderSupplierFault(quantity: UInt32, maxQuantityInOrder: UInt32, start: Stock)
    requires quantity <= maxQuantityInOrder && start.onHand < quantity && start.supplier.fail
    ensures OrderSteps(quantity, maxQuantityInOrder, start) == (Faulted(FAULT_MESSAGE), start)
  {
  }

  /**
   A supplier that cannot cover the shortfall empties itself and delivers
   nothing, so the order is out of stock and the quantity is untouched.
   */
  lemma OrderOutOfStock(quantity: UInt32, maxQuantityInOrder: UInt32, start: Stock)
    requires quantity <= maxQuantityInOrder && start.onHand < quantity
    requires !start.supplier.fail && start.supplier.available < quantity - start.onHand
    ensures OrderSteps(quantity, maxQuantityInOrder, start)
         == (Rejected(OUT_OF_STOCK_MESSAGE), start.(supplier := start.supplier.(available := 0)))
  {
  }

  /** A restock that covers the shortfall sells everything: the quantity ends at zero. */
  lemma OrderRestocked(quantity: UInt32, maxQuantityInOrder: UInt32, start: Stock)
    requires quantity <= maxQuantityInOrder && start.onHand < quantity
    requires !start.supplier.fail && start.supplier.available >= quantity - start.onHand
    ensures var excess := quantity - start.onHand;
      OrderSteps(quantity, maxQuantityInOrder, start)
      == (Debited, Stock(0, start.supplier.(available := start.supplier.available - excess)))
  {
  }

  /**
   For every input: the unchecked arithmetic never wraps, stock is conserved
   (what was on hand plus what the supplier gave up covers the order and
   what is left), a rejection or fault leaves the quantity as it was, and
   the supplier is asked only when the order is within the limit and the
   stock on hand is short.
   */
  lemma OrderStepsInvariants(quantity: UInt32, maxQuantityInOrder: UInt32, start: Stock)
    ensures var (verdict, after) := OrderSteps(quantity, maxQuantityInOrder, start);
      && after.supplier.fail == start.supplier.fail
      && after.supplier.available <= start.supplier.available
      && (verdict.Debited? ==>
            after.onHand + quantity == start.onHand + (start.supplier.available - after.supplier.available))
      && (!verdict.Debited? ==> after.onHand == start.onHand)
      && (quantity > maxQuantityInOrder || start.onHand >= quantity ==> after.supplier == start.supplier)
  {
    if quantity <= maxQuantityInOrder && start.onHand < quantity {
      var excess := quantity - start.onHand;
      assert Wrap32(quantity - start.onHand) == excess;
      SupplyAllOrNothing(start.supplier, excess);
      SupplyConservation(start.supplier, excess);
      var (ordered, supplier) := Supply(start.supplier, excess);
      if ordered.Ok? {
        assert start.onHand + ordered.value <= quantity;
        assert Wrap32(start.onHand + ordered.value) == start.onHand + ordered.value;
      }
    }
  }

  // ---------------------------------------------------------------------
  // The service object.
  // ---------------------------------------------------------------------

  /** The product stored under `productId`, as a frame: the object `Order` may change. */
  function StoredAt(persistent: map<int, Product>, productId: int): set<Product> {
    if productId in persistent then {persistent[productId]} else {}
  }

  /** The repository after `ProductService.Commit` and the response it gives. */
  twostate predicate Committing(repository: ProductRepository, response: Response)
    reads repository
  {
    && repository.throwOnCommit == old(repository.throwOnCommit)
    && (old(repository.throwOnCommit) ==>
          && response == InternalError(COMMIT_FAULT_MESSAGE)
          && repository.persistent == old(repository.persistent)
          && repository.staged == old(repository.staged))
    && (!old(repository.throwOnCommit) ==>
          && response == Response.Ok(None)
          && repository.persistent == Committed(old(repository.persistent), old(repository.staged))
          && repository.staged == map[])
  }

  /**
   `CreateProduct` on a valid definition: `product` is new, carries the
   definition's values, was staged over any product with its id, and the
   stage was committed.
   */
  twostate predicate Created(repository: ProductRepository, definition: ProductDefinition,
                             response: Response, new product: Product)
    reads repository, product
  {
    && fresh(product)
    && DefinitionOf(product) == definition
    && (old(repository.throwOnCommit) ==>
          && response == InternalError(COMMIT_FAULT_MESSAGE)
          && repository.persistent == old(repository.persistent)
          && repository.staged == old(repository.staged)[definition.productId := product])
    && (!old(repository.throwOnCommit) ==>
          && response == Response.Ok(None)
          && repository.persistent == Committed(old(repository.persistent),
                                                old(repository.staged)[definition.productId := product])
          && repository.staged == map[])
  }

  class ProductService {
    const repository: ProductRepository
    const supplier: SupplierService
    /** `Constants.MaxQuantityInOrder`, whose value is not part of this model. */
    const maxQuantityInOrder: UInt32

    constructor (repository: ProductRepository, supplier: SupplierService, maxQuantityInOrder: UInt32)
      ensures this.repository == repository && this.supplier == supplier
      ensures this.maxQuantityInOrder == maxQuantityInOrder
    {
      this.repository := repository;
      this.supplier := supplier;
      this.maxQuantityInOrder := maxQuantityInOrder;
    }

    /** A commit fault becomes an internal error carrying its message. */
    method Commit() returns (response: Response)
      modifies repository
      ensures Committing(repository, response)
    {
      var committed := repository.Commit();
      if committed.Ok? {
        return Response.Ok(None);
      }
      return InternalError(committed.error);
    }

    /** Asks the supplier for the shortfall; its fault becomes a `Fail` result. */
    method OrderFromSupplier(productId: int, product: Product, excess: UInt32) returns (ordered: Result<UInt32>)
      modifies supplier
      ensures (ordered, supplier.State()) == Supply(old(supplier.State()), excess)
    {
      ordered := supplier.Order(productId, product.manufacturer.value, excess);
    }

    /**
     Validates the definition; on success stages a new product and commits it,
     so that it replaces any product stored under the same id.
     */
    method CreateProduct(definition: ProductDefinition) returns (response: Response)
      modifies repository
      ensures var fields := Validate(definition);
        && (fields.Fail? ==> response == BadRequest(fields.error) && unchanged(repository))
        && (fields.Ok? ==>
              && repository.throwOnCommit == old(repository.throwOnCommit)
              && exists product: Product :: Created(repository, definition, response, product))
    {
      var fields := Validate(definition);
      if fields.Fail? {
        return BadRequest(fields.error);
      }
      var product := new Product(definition.productId, definition.category, fields.value.name,
                                 fields.value.manufacturer, fields.value.importerEmail, definition.quantity);
      ValidateRoundTrip(definition);
      assert DefinitionOf(product) == definition;
      repository.Add(product);
      response := Commit();
      assert Created(repository, definition, response, product);
    }

    /** Read-only: the stored product's definition, or a rejection naming the id. */
    method GetProduct(productId: int) returns (response: Response)
      ensures productId !in repository.persistent ==> response == BadRequest(NotFoundMessage(productId))
      ensures productId in repository.persistent ==>
        response == Response.Ok(Some(DefinitionOf(repository.persistent[productId])))
    {
      var productOrNone := repository.Find(productId);
      if productOrNone.None? {
        return BadRequest(NotFoundMessage(productId));
      }
      var product := productOrNone.value;
      var importerMail := product.importerEmail;
      var definition := ProductDefinition(
        product.productId, product.category, product.name.value, product.manufacturer.value,
        if importerMail.Some? then Some(importerMail.value.value) else None,
        product.quantity);
      return Response.Ok(Some(definition));
    }

    /**
     Fulfils an order against the stored product itself: the quantity is
     changed in place, so the change is visible through the repository
     before, and whatever the outcome of, the commit.
     */
    method Order(productId: int, quantity: UInt32) returns (response: Response)
      modifies repository, supplier, StoredAt(repository.persistent, productId)
      ensures productId !in old(repository.persistent) ==>
        response == BadRequest(NotFoundMessage(productId)) && unchanged(repository, supplier)
      ensures productId in old(repository.persistent) ==>
        var product := old(repository.persistent)[productId];
        var (verdict, after) := OrderSteps(quantity, maxQuantityInOrder,
                                           Stock(old(product.quantity), old(supplier.State())));
        && product.quantity == after.onHand
        && supplier.State() == after.supplier
        && (verdict.Rejected? ==> response == BadRequest(verdict.message) && unchanged(repository))
        && (verdict.Faulted? ==> response == InternalError(verdict.message) && unchanged(repository))
        && (verdict.Debited? ==> Committing(repository, response))
    {
      var productOrNone := repository.Find(productId);
      if productOrNone.None? {
        return BadRequest(NotFoundMessage(productId));
      }
      var product := productOrNone.value;

      if quantity > maxQuantityInOrder {
        return BadRequest(TOO_LARGE_MESSAGE);
      }

      if product.quantity < quantity {
        var excess := Wrap32(quantity - product.quantity);
        var orderedQuantity := OrderFromSupplier(productId, product, excess);
        if orderedQuantity.Fail? {
          return InternalError(orderedQuantity.error);
        }
        if Wrap32(product.quantity + orderedQuantity.value) < quantity {
          return BadRequest(OUT_OF_STOCK_MESSAGE);
        }
        product.quantity := Wrap32(product.quantity + orderedQuantity.value);
      }

      product.quantity := Wrap32(product.quantity - quantity);

      response := Commit();
    }
  }
}
