/**
 The unit tests (SuperMarket.Tests/UnitTests.cs) as client methods of the
 model: each builds the test fixture, performs the test's calls and states
 as its postcondition what the test asserts, usually more precisely (the
 whole response rather than its code).

 `Constants.MaxQuantityInOrder` is a parameter; each scenario requires of it
 only what its test relies on.
 */
module Scenarios {
  import opened Functional
  import opened Primitives
  import ProductNames
  import ManufacturerNames
  import Emails
  import opened Products
  import opened Suppliers
  import opened Repositories
  import opened Service

  /** The category the tests use; the enumeration is not part of this model. */
  const FOOD := Category(0)

  /** The product `SetUp` creates. */
  const ORANGES := ProductDefinition(1, FOOD, "Oranges", "Jaffa", Some("jaffa@gmail.com"), 1000)

  /** The test helper `CreateProduct(productId)`. */
  function Apples(productId: int): (d: ProductDefinition)
    ensures d.productId == productId && d.quantity == 1000
  {
    ProductDefinition(productId, FOOD, "Apples", "Jaffa", Some("jaffa@gmail.com"), 1000)
  }

  lemma OrangesValid()
    ensures Validate(ORANGES).Ok?
  {
    ProductNames.OrangesAccepted();
    ManufacturerNames.JaffaAccepted();
    Emails.AcceptedExamples();
  }

  /** The helper's definition passes validation, whatever its id. */
  lemma ApplesValid(productId: int)
    ensures Validate(Apples(productId)).Ok?
  {
    NotBlankWitness("Apples", 0);
    ManufacturerNames.JaffaAccepted();
    Emails.AcceptedExamples();
  }

  /**
   `SetUp`: an empty store, a supplier with nothing available, and the
   oranges created and committed under id 1.
   */
  method SetUp(maxQuantityInOrder: UInt32) returns (service: ProductService, oranges: Product)
    ensures fresh(service.repository) && fresh(service.supplier) && fresh(oranges)
    ensures service.maxQuantityInOrder == maxQuantityInOrder
    ensures service.repository.persistent == map[1 := oranges]
    ensures service.repository.staged == map[] && !service.repository.throwOnCommit
    ensures service.supplier.State() == SupplierState(0, false)
    ensures DefinitionOf(oranges) == ORANGES
  {
    var repository := new ProductRepository();
    var supplier := new SupplierService();
    service := new ProductService(repository, supplier, maxQuantityInOrder);
    OrangesValid();
    var _ := service.CreateProduct(ORANGES);
    var found := repository.Find(1);
    oranges := found.value;
  }

  /** `TestCreateInvalidProductNameFails`: a 1000-character name is too long. */
  method CreateInvalidProductNameFails(maxQuantityInOrder: UInt32) returns (response: Response)
    ensures response == BadRequest(ProductNames.TOO_LONG_MESSAGE)
  {
    var service, _ := SetUp(maxQuantityInOrder);
    var product := Apples(2).(name := seq(1000, _ => 'c'));
    ProductNames.ThousandCharactersTooLong();
    ValidateFirstError(product);
    response := service.CreateProduct(product);
  }

  /** `TestCreateInvalidManufacturerNameFails`: a 1000-character manufacturer is too long. */
  method CreateInvalidManufacturerNameFails(maxQuantityInOrder: UInt32) returns (response: Response)
    ensures response == BadRequest(ManufacturerNames.TOO_LONG_MESSAGE)
  {
    var service, _ := SetUp(maxQuantityInOrder);
    var product := Apples(2).(manufacturer := seq(1000, _ => 'c'));
    NotBlankWitness("Apples", 0);
    ManufacturerNames.ThousandCharactersTooLong();
    ValidateFirstError(product);
    response := service.CreateProduct(product);
  }

  /** `TestCreateWithoutImporterEmailSucceeds`: the e-mail is optional. */
  method CreateWithoutImporterEmailSucceeds(maxQuantityInOrder: UInt32) returns (response: Response)
    ensures response == Response.Ok(None)
  {
    var service, _ := SetUp(maxQuantityInOrder);
    var product := Apples(2).(importerEmail := None);
    ApplesValid(2);
    response := service.CreateProduct(product);
  }

  /** `TestCreateWithInvalidImporterEmailFails`: an address without '@' is refused. */
  method CreateWithInvalidImporterEmailFails(maxQuantityInOrder: UInt32) returns (response: Response)
    ensures response == BadRequest(Emails.INVALID_MESSAGE)
  {
    var service, _ := SetUp(maxQuantityInOrder);
    var product := Apples(2).(importerEmail := Some("invalidemail"));
    ApplesValid(2);
    Emails.NoAtRejected();
    ValidateFirstError(product);
    response := service.CreateProduct(product);
  }

  /** `TestInvalidProductIdFails`: nothing is stored under id 2. */
  method InvalidProductIdFails(maxQuantityInOrder: UInt32) returns (response: Response)
    ensures response == BadRequest(NotFoundMessage(2))
  {
    var service, _ := SetUp(maxQuantityInOrder);
    response := service.GetProduct(2);
  }

  /** `TestValidProductIdSucceeds`: the stored product comes back as it was defined. */
  method ValidProductIdSucceeds(maxQuantityInOrder: UInt32) returns (response: Response)
    ensures response == Response.Ok(Some(ORANGES))
  {
    var service, _ := SetUp(maxQuantityInOrder);
    response := service.GetProduct(1);
  }

  /** `TestSmallOrderSucceeds`: half the stock is sold from what is on hand. */
  method SmallOrderSucceeds(maxQuantityInOrder: UInt32) returns (response: Response, reread: Response)
    requires 500 <= maxQuantityInOrder
    ensures response == Response.Ok(None)
    ensures reread == Response.Ok(Some(ORANGES.(quantity := 500)))
  {
    var service, _ := SetUp(maxQuantityInOrder);
    OrderFromStock(500, maxQuantityInOrder, Stock(1000, SupplierState(0, false)));
    response := service.Order(1, 500);
    reread := service.GetProduct(1);
  }

  /** `TestLargeOrderWhenSupplyAvailableSucceeds`: the supplier covers the excess of 100. */
  method LargeOrderWhenSupplyAvailableSucceeds(maxQuantityInOrder: UInt32) returns (response: Response, reread: Response)
    requires 1100 <= maxQuantityInOrder
    ensures response == Response.Ok(None)
    ensures reread == Response.Ok(Some(ORANGES.(quantity := 0)))
  {
    var service, _ := SetUp(maxQuantityInOrder);
    service.supplier.available := 100;
    OrderRestocked(1100, maxQuantityInOrder, Stock(1000, SupplierState(100, false)));
    response := service.Order(1, 1100);
    reread := service.GetProduct(1);
  }

  /**
   `TestLargeOrderWhenSupplierRefusesFails`: an order over the limit is
   refused before the supplier is asked, and the stock is unchanged.  The
   test's unchecked sum must not wrap.
   */
  method LargeOrderOverLimitFails(maxQuantityInOrder: UInt32) returns (response: Response, reread: Response)
    requires maxQuantityInOrder + 1001 < UINT32_MODULUS
    ensures response == BadRequest(TOO_LARGE_MESSAGE)
    ensures reread == Response.Ok(Some(ORANGES))
  {
    var service, _ := SetUp(maxQuantityInOrder);
    var excess := maxQuantityInOrder + 1;
    service.supplier.available := excess;
    var quantity := 1000 + excess;
    OrderTooLarge(quantity, maxQuantityInOrder, Stock(1000, SupplierState(excess, false)));
    response := service.Order(1, quantity);
    reread := service.GetProduct(1);
  }

  /** `TestLargeOrderWhenSupplierThrowsFails`: the fault is an internal error and the stock is unchanged. */
  method LargeOrderWhenSupplierThrowsFails(maxQuantityInOrder: UInt32) returns (response: Response, reread: Response)
    requires 1100 <= maxQuantityInOrder
    ensures response == InternalError(FAULT_MESSAGE)
    ensures reread == Response.Ok(Some(ORANGES))
  {
    var service, _ := SetUp(maxQuantityInOrder);
    service.supplier.available := 100;
    service.supplier.fail := true;
    OrderSupplierFault(1100, maxQuantityInOrder, Stock(1000, SupplierState(100, true)));
    response := service.Order(1, 1100);
    reread := service.GetProduct(1);
  }
}
