# SuperMarket product service, in Dafny

A verified model of the core of the SuperMarket sample from *Refactoring to
Functional*. The model covers:

- the railway combinators over `Maybe`/`Result`;
- the three validated value objects (`ProductName`, `ManufacturerName`, `Email`);
- the `ProductService` that creates products, looks them up and fulfils orders;
- the two test doubles it runs against: the staging `ProductRepository` and the
  stock-counting `SupplierService`.

The unit tests become client methods whose postconditions state what each
test checks.

Modules, one per source file:

| module | file | source |
|---|---|---|
| `Functional` | functional.dfy | FunctionalExtensions/ResultExtensions.cs |
| `Primitives` | primitives.dfy | .NET `uint`, `char.IsWhiteSpace`, decimal formatting of `int` |
| `ProductNames` | product_name.dfy | SuperMarket.Entities/Entities/ProductName.cs |
| `ManufacturerNames` | manufacturer_name.dfy | SuperMarket.Entities/Entities/ManufacturerName.cs |
| `Emails` | email.dfy | SuperMarket.Entities/Entities/Email.cs |
| `Products` | product.dfy | SuperMarket.Entities/Entities/Product.cs |
| `Suppliers` | supplier_service.dfy | SuperMarket.Tests/Mocks/SupplierService.cs |
| `Repositories` | product_repository.dfy | SuperMarket.Tests/Mocks/ProductRepository.cs |
| `Service` | product_service.dfy | SuperMarket.Service/Services/ProductService.cs, ProductDefinition.cs, Response.cs |
| `Scenarios` | scenarios.dfy | SuperMarket.Tests/UnitTests.cs |

Each part takes the form of its source:

- **Pure functions.** The combinators, the value-object factories, `GetImporterEmail`
  and the checks inside `CreateProduct` are functions.
- **Heap objects.** `Product`, `ProductRepository`, `SupplierService` and
  `ProductService` are classes whose methods change fields in place.
- **Aliasing.** The repository hands out the stored `Product` instance. `Order`
  changes that instance's `quantity`, so the change shows through the repository
  before the commit. If the commit then failed, the debited quantity would stay
  visible through `Find` (`Order`'s contract ties the quantity to `OrderSteps`
  whatever the commit does). The repository mock never sets `ThrowOnCommit`, so
  that case does not arise here.
- **Loop.** The commit loop over the staged entries is a `while` loop with
  invariants.
- **Specification functions.** Each stateful method is proved against a function
  on values: `Supply` for the supplier, `Committed` for the commit, `OrderSteps`
  for an order, `Validate`/`DefinitionOf` for creation and lookup. The lemmas
  state the source's promises about those functions.

Exceptions become `Fail` results or `InternalError` responses, carrying the
exception's message: the supplier's `InvalidOperationException` and the
repository's `DataException`. An `HttpResponse` becomes one of three outcomes:
`Ok` with an optional `ProductDefinition` payload, `BadRequest(message)` or
`InternalError(message)`.

## Model

| member | source | states |
|---|---|---|
| Functional.ToMaybe | FunctionalExtensions/ResultExtensions.cs:7-13 | forgetting the error gives `Some` exactly for a success, with its value |
| Functional.ToResult | FunctionalExtensions/ResultExtensions.cs:7-13 | absence becomes a failure carrying the given message, presence a success with the value (inverse of `ToMaybe`) |
| Functional.ToResultRoundTrip | FunctionalExtensions/ResultExtensions.cs:7-13 | `ToResult` rebuilds any result from its `Maybe` and its message |
| Functional.Map | FunctionalExtensions/ResultExtensions.cs:15-22 | a failure keeps its error; only a success's value is transformed |
| Functional.MapIdentity | FunctionalExtensions/ResultExtensions.cs:15-22 | mapping the identity changes nothing |
| Functional.MapComposition | FunctionalExtensions/ResultExtensions.cs:15-22 | mapping twice is mapping the composition |
| Functional.OnSuccessMap | FunctionalExtensions/ResultExtensions.cs:24-30 | the function overload of `OnSuccess` behaves exactly as `Map` |
| Functional.OnSuccessBind | FunctionalExtensions/ResultExtensions.cs:32-38 | short-circuits with the same error on failure, hands the value on otherwise |
| Functional.MapIsBindOfOk | FunctionalExtensions/ResultExtensions.cs:15-38 | `Map` is bind with a continuation that always succeeds |
| Functional.BindIdentities | FunctionalExtensions/ResultExtensions.cs:32-38 | left and right identity of bind |
| Functional.BindAssociative | FunctionalExtensions/ResultExtensions.cs:32-38 | chaining binds is associative |
| Functional.OnSuccessDo | FunctionalExtensions/ResultExtensions.cs:42-50 | the action runs only on success, and the input result is returned unchanged in both cases |
| Functional.OnSuccessThen | FunctionalExtensions/ResultExtensions.cs:52-58 | a valueless failure becomes a failure with the same error, a success becomes `Ok(function())` |
| Functional.OnSuccessThenIsMap | FunctionalExtensions/ResultExtensions.cs:52-58 | the valueless overload is `Map` with a function ignoring its argument |
| Functional.OnEither | FunctionalExtensions/ResultExtensions.cs:61-71 | exactly one branch runs, chosen by the tag, and its result is returned |
| Functional.BindIsOnEither | FunctionalExtensions/ResultExtensions.cs:32-38 | bind is `OnEither` whose failure branch re-raises the error |
| Functional.Ensure | FunctionalExtensions/ResultExtensions.cs:73-82 | a failure passes through; a success is kept exactly when the predicate holds, otherwise it fails with the message |
| Functional.EnsureIdempotent | FunctionalExtensions/ResultExtensions.cs:73-82 | checking the same predicate twice is checking it once |
| Functional.EnsureFirstFailureWins | FunctionalExtensions/ResultExtensions.cs:73-82 | of two chained checks that both fail, the first one's message is reported |
| Functional.OnBoth | FunctionalExtensions/ResultExtensions.cs:84-87 | the function receives the whole result, whatever its tag |
| Functional.OnEitherIsOnBoth | FunctionalExtensions/ResultExtensions.cs:61-87 | `OnEither` is `OnBoth` with a function that branches on the tag |
| Functional.Forget | SuperMarket.Service/Services/ProductService.cs:24 | dropping a result's value keeps its tag and error, as `Result.Combine`'s argument |
| Functional.Combine | SuperMarket.Service/Services/ProductService.cs:24 | a success exactly when every input is one; a failure is the first failing input |
| Functional.CombineEmpty | SuperMarket.Service/Services/ProductService.cs:24 | combining nothing succeeds |
| Functional.CombineFirstError | SuperMarket.Service/Services/ProductService.cs:24 | the failure at index i after successes only is the combined result |
| Functional.CombineAppend | SuperMarket.Service/Services/ProductService.cs:24 | appending an input matters only if everything before succeeded (by induction) |
| Primitives.Wrap32 | SuperMarket.Service/Services/ProductService.cs:84-97 | unchecked `uint` arithmetic: the exact value when in range, and always congruent to it modulo 2^32 |
| Primitives.EmptyIsBlank | SuperMarket.Entities/Entities/ManufacturerName.cs:16 | the empty string is null-or-white-space |
| Primitives.NotBlankWitness | SuperMarket.Entities/Entities/ManufacturerName.cs:16 | one non-white-space character makes a string not blank |
| Primitives.IsNullOrWhiteSpace | SuperMarket.Entities/Entities/ProductName.cs:18 | `string.IsNullOrWhiteSpace`: the empty string qualifies, and a present string fails exactly when some character is not white space |
| Primitives.Utf16Length | SuperMarket.Entities/Entities/ProductName.cs:19 | `string.Length` in UTF-16 code units: between the number of characters and twice it |
| Primitives.Utf16LengthBmp | SuperMarket.Entities/Entities/ManufacturerName.cs:19 | a string inside the Basic Multilingual Plane has one unit per character (by induction) |
| Primitives.Utf16LengthAstral | SuperMarket.Entities/Entities/ManufacturerName.cs:19 | a string of surrogate pairs has two units per character (by induction) |
| Primitives.DigitChar | SuperMarket.Service/Services/ProductService.cs:75 | a digit character whose value is the digit |
| Primitives.NatDigits | SuperMarket.Service/Services/ProductService.cs:75 | the rendering of a natural is non-empty, all digits, with no leading zero |
| Primitives.DecimalString | SuperMarket.Service/Services/ProductService.cs:75 | `{productId}` rendering: non-empty, with a leading '-' exactly for negatives |
| Primitives.ParseNatDigits | SuperMarket.Service/Services/ProductService.cs:75 | reading back the digits of a natural gives it back (by induction) |
| Primitives.DecimalRoundTrip | SuperMarket.Service/Services/ProductService.cs:75 | reading back the rendering of any `int` gives it back |
| Primitives.DecimalStringInjective | SuperMarket.Service/Services/ProductService.cs:75 | different ids render differently |
| ProductNames.Create | SuperMarket.Entities/Entities/ProductName.cs:14-21 | success exactly for a present, non-blank name of at most 100 UTF-16 units, wrapped unchanged; null gives "Product name is invalid", blank gives "must not be empty", over 100 gives "is too long", checked in that order |
| ProductNames.EqualsCore | SuperMarket.Entities/Entities/ProductName.cs:33-36 | equal exactly when the strings are |
| ProductNames.CreateRoundTrip | SuperMarket.Entities/Entities/ProductName.cs:9-21 | every valid name is what `Create` builds from its own value |
| ProductNames.BlankBeforeLength | SuperMarket.Entities/Entities/ProductName.cs:18-19 | 101 spaces are reported as empty, not too long |
| ProductNames.ThousandCharactersTooLong | SuperMarket.Tests/UnitTests.cs:40-47 | a 1000-character name is too long |
| ProductNames.AstralCharactersCountTwice | SuperMarket.Entities/Entities/ProductName.cs:19 | 51 characters outside the Basic Multilingual Plane (102 units) are too long |
| ProductNames.OrangesAccepted | SuperMarket.Tests/UnitTests.cs:26-36 | the fixture's name is accepted unchanged |
| ManufacturerNames.Create | SuperMarket.Entities/Entities/ManufacturerName.cs:14-23 | success exactly for a present, non-blank name of at most 256 UTF-16 units, wrapped unchanged; null or blank gives "must not be empty", over 256 gives "is too long" |
| ManufacturerNames.EqualsCore | SuperMarket.Entities/Entities/ManufacturerName.cs:35-38 | equal exactly when the strings are |
| ManufacturerNames.CreateRoundTrip | SuperMarket.Entities/Entities/ManufacturerName.cs:9-23 | every valid name is what `Create` builds from its own value |
| ManufacturerNames.ThousandCharactersTooLong | SuperMarket.Tests/UnitTests.cs:50-57 | a 1000-character manufacturer is too long |
| ManufacturerNames.AstralCharactersCountTwice | SuperMarket.Entities/Entities/ManufacturerName.cs:19-20 | 129 characters outside the Basic Multilingual Plane (258 units) are too long |
| ManufacturerNames.JaffaAccepted | SuperMarket.Tests/UnitTests.cs:26-36 | the fixture's manufacturer is accepted unchanged |
| Emails.AnchoredLine | SuperMarket.Entities/Entities/Email.cs:22 | the line `$` anchors to is the input or the input without one final newline |
| Emails.RegexMatches | SuperMarket.Entities/Entities/Email.cs:22 | the match relation of `^(.+)@(.+)$` under .NET's `.` and `$`; a matched string has at least three characters and an '@' strictly inside |
| Emails.LinePatternIsMatch | SuperMarket.Entities/Entities/Email.cs:22 | the line condition on the anchored line holds exactly when the regex matches, on every string |
| Emails.IsEmailPattern | SuperMarket.Entities/Entities/Email.cs:22-23 | the executable check `Create` performs agrees with `RegexMatches` on every string |
| Emails.Create | SuperMarket.Entities/Entities/Email.cs:15-26 | success exactly for a present string the pattern matches, wrapped unchanged; every failure, null included, says "Email is invalid" |
| Emails.EqualsCore | SuperMarket.Entities/Entities/Email.cs:38-41 | equal exactly when the strings are |
| Emails.CreateRoundTrip | SuperMarket.Entities/Entities/Email.cs:10-26 | every matching address is what `Create` builds from its own value |
| Emails.AcceptedExamples | SuperMarket.Tests/UnitTests.cs:26-36 | the fixture's address is accepted, and so are several '@'s and a final newline |
| Emails.NoAtRejected | SuperMarket.Tests/UnitTests.cs:70-77 | "invalidemail" is rejected |
| Emails.EdgeCasesRejected | SuperMarket.Entities/Entities/Email.cs:22-23 | too short, nothing before the '@', and an inner newline are rejected |
| Products.Product.constructor | SuperMarket.Entities/Entities/Product.cs:5-13 | the object initializer sets every property |
| Suppliers.Supply | SuperMarket.Tests/Mocks/SupplierService.cs:10-25 | an order succeeds exactly when the supplier is not set to fail, and never changes that flag |
| Suppliers.SupplyFault | SuperMarket.Tests/Mocks/SupplierService.cs:12-15 | a failing supplier reports "Not enough stock" and keeps its stock |
| Suppliers.SupplyAllOrNothing | SuperMarket.Tests/Mocks/SupplierService.cs:17-24 | the delivery is 0 or the whole request, and it is the whole request exactly when enough is available |
| Suppliers.SupplyConservation | SuperMarket.Tests/Mocks/SupplierService.cs:17-24 | stock never grows; delivered plus left equals what there was when the request is covered, and a short supplier empties itself and delivers 0 |
| Suppliers.SupplierService.constructor | SuperMarket.Tests/Mocks/SupplierService.cs:7-8 | a new supplier has nothing available and does not fail |
| Suppliers.SupplierService.Order | SuperMarket.Tests/Mocks/SupplierService.cs:10-25 | result and new state are those of `Supply` |
| Repositories.Committed | SuperMarket.Tests/Mocks/ProductRepository.cs:54-61 | the store after a commit holds both key sets, staged entries win, other stored entries are kept |
| Repositories.CommittedIdempotent | SuperMarket.Tests/Mocks/ProductRepository.cs:54-61 | committing the same stage again changes nothing |
| Repositories.CommittedEmpty | SuperMarket.Tests/Mocks/ProductRepository.cs:54-61 | committing an empty stage changes nothing |
| Repositories.CommitStep | SuperMarket.Tests/Mocks/ProductRepository.cs:56-60 | one loop iteration copies one more staged entry and keeps the loop invariant |
| Repositories.CommitDone | SuperMarket.Tests/Mocks/ProductRepository.cs:54-61 | when nothing is pending the store is `Committed` |
| Repositories.ProductRepository.constructor | SuperMarket.Tests/Mocks/ProductRepository.cs:14-22 | empty store, empty stage, commits do not throw |
| Repositories.ProductRepository.DeleteDatabase | SuperMarket.Tests/Mocks/ProductRepository.cs:24-27 | empties the store and leaves the stage alone |
| Repositories.ProductRepository.Add | SuperMarket.Tests/Mocks/ProductRepository.cs:29-36 | the stage holds exactly the new product under its id, replacing any earlier one; the store is untouched |
| Repositories.ProductRepository.Find | SuperMarket.Tests/Mocks/ProductRepository.cs:38-45 | found exactly when the id is in the store (staged products are not found), and the stored instance is returned |
| Repositories.ProductRepository.Commit | SuperMarket.Tests/Mocks/ProductRepository.cs:47-64 | with `ThrowOnCommit` fails with "Failed to store products" and changes nothing; otherwise the store becomes `Committed` and the stage is emptied |
| Service.NotFoundMessage | SuperMarket.Service/Services/ProductService.cs:52 | the message starts with "Product with id ", ends with " was not found", and holds the id's decimal rendering between them |
| Service.NotFoundMessageInjective | SuperMarket.Service/Services/ProductService.cs:52 | different ids give different messages |
| Service.GetImporterEmail | SuperMarket.Service/Services/ProductService.cs:38-46 | a null e-mail is a success with no address; otherwise success exactly when the pattern matches, the address unchanged, and "Email is invalid" on failure |
| Service.Validate | SuperMarket.Service/Services/ProductService.cs:20-33 | success exactly when every field is valid, carrying the three values unchanged |
| Service.ValidateFirstError | SuperMarket.Service/Services/ProductService.cs:20-24 | the name's error wins over the manufacturer's, which wins over the e-mail's |
| Service.ToDefinition | SuperMarket.Service/Services/ProductService.cs:58-66 | the definition mirrors the values field by field, an absent e-mail becoming null |
| Service.DefinitionOf | SuperMarket.Service/Services/ProductService.cs:54-66 | what `GetProduct` reports carries the stored product's id, category, quantity, name, manufacturer and e-mail, an absent e-mail becoming null |
| Service.ValidateRoundTrip | SuperMarket.Service/Services/ProductService.cs:25-33 | the validated values projected back give the definition itself |
| Service.ToDefinitionRoundTrip | SuperMarket.Service/Services/ProductService.cs:58-66 | valid values projected to a definition validate back to themselves |
| Service.OrderSteps | SuperMarket.Service/Services/ProductService.cs:79-97 | a refusal says "too large" or "out of stock"; a fault happens exactly when the order is within the limit, short on hand and the supplier fails, and then changes nothing; a debit never raises the quantity |
| Service.OrderTooLarge | SuperMarket.Service/Services/ProductService.cs:79-80 | an order over the limit is "The order is too large" with nothing changed |
| Service.OrderFromStock | SuperMarket.Service/Services/ProductService.cs:82-97 | enough on hand: no supplier call, and the quantity drops by exactly the order |
| Service.OrderSupplierFault | SuperMarket.Service/Services/ProductService.cs:85-87 | a supplier fault is an internal error with its message, and nothing changes |
| Service.OrderOutOfStock | SuperMarket.Service/Services/ProductService.cs:89-92 | a short supplier empties itself and the order is "The product is out of stock" with the quantity unchanged |
| Service.OrderRestocked | SuperMarket.Service/Services/ProductService.cs:82-97 | a covered shortfall is bought in full and the quantity ends at 0 |
| Service.OrderStepsInvariants | SuperMarket.Service/Services/ProductService.cs:79-97 | for every order: the unchecked arithmetic is exact, stock is conserved, a refusal or fault keeps the quantity, the supplier is asked only when short |
| Service.ProductService.constructor | SuperMarket.Service/Services/ProductService.cs:12-16 | keeps the repository and supplier it is given |
| Service.ProductService.Commit | SuperMarket.Service/Services/ProductService.cs:102-113 | `Ok` after a committed stage, the commit fault's message as an internal error otherwise |
| Service.ProductService.OrderFromSupplier | SuperMarket.Service/Services/ProductService.cs:115-126 | result and supplier state are those of `Supply` for the excess |
| Service.ProductService.CreateProduct | SuperMarket.Service/Services/ProductService.cs:18-36 | invalid: `BadRequest` with the first error and the repository untouched; valid: a new product carrying the definition is staged over its id and committed |
| Service.ProductService.GetProduct | SuperMarket.Service/Services/ProductService.cs:48-69 | read-only; "Product with id … was not found" or the stored product's definition, null e-mail for none |
| Service.ProductService.Order | SuperMarket.Service/Services/ProductService.cs:71-100 | unknown id: not-found `BadRequest`, nothing changed; otherwise the stored product's quantity, the supplier and the response follow `OrderSteps`, and a debited order is committed |
| Scenarios.Apples | SuperMarket.Tests/UnitTests.cs:174-185 | the test helper's definition carries the id and a quantity of 1000 |
| Scenarios.OrangesValid | SuperMarket.Tests/UnitTests.cs:26-36 | the fixture's definition passes validation |
| Scenarios.ApplesValid | SuperMarket.Tests/UnitTests.cs:174-185 | the helper's definition passes validation |
| Scenarios.SetUp | SuperMarket.Tests/UnitTests.cs:17-37 | the store holds exactly the created oranges under id 1 and the supplier is empty |
| Scenarios.CreateInvalidProductNameFails | SuperMarket.Tests/UnitTests.cs:39-47 | `BadRequest` "Product name is too long" |
| Scenarios.CreateInvalidManufacturerNameFails | SuperMarket.Tests/UnitTests.cs:49-57 | `BadRequest` "Manufacturer name is too long" |
| Scenarios.CreateWithoutImporterEmailSucceeds | SuperMarket.Tests/UnitTests.cs:59-67 | `Ok` |
| Scenarios.CreateWithInvalidImporterEmailFails | SuperMarket.Tests/UnitTests.cs:69-77 | `BadRequest` "Email is invalid" |
| Scenarios.InvalidProductIdFails | SuperMarket.Tests/UnitTests.cs:79-84 | `BadRequest` naming id 2 |
| Scenarios.ValidProductIdSucceeds | SuperMarket.Tests/UnitTests.cs:86-96 | `Ok` with the fixture's definition |
| Scenarios.SmallOrderSucceeds | SuperMarket.Tests/UnitTests.cs:98-112 | `Ok`, and 500 remain |
| Scenarios.LargeOrderWhenSupplyAvailableSucceeds | SuperMarket.Tests/UnitTests.cs:114-131 | `Ok`, and 0 remain |
| Scenarios.LargeOrderOverLimitFails | SuperMarket.Tests/UnitTests.cs:133-151 | `BadRequest` "The order is too large", and 1000 remain |
| Scenarios.LargeOrderWhenSupplierThrowsFails | SuperMarket.Tests/UnitTests.cs:153-172 | `InternalError` "Not enough stock", and 1000 remain |

## Left out

- JSON serialisation of responses and the `HttpResponse`/`ResponseCode` types: a response is its three-way outcome with the payload or message as a value.
- Exceptions and `try`/`catch`: faults are `Fail` results carrying the exception's message, turned into `InternalError` where the service catches them.
- The .NET regular-expression engine: `^(.+)@(.+)$` is written as a predicate with .NET's defaults, where `.` excludes '\n' and `$` also matches before a final '\n'.
- Unicode classification: `char.IsWhiteSpace` is the explicit list of the Unicode separators and the controls U+0009–U+000D and U+0085. Strings are sequences of Unicode scalar values; `string.Length` is counted in UTF-16 code units by `Utf16Length`, but unpaired surrogates, which .NET strings may hold, cannot be represented.
- The `ValueObject` base class, `GetHashCodeCore` and the conversion operators: only `EqualsCore` and the factories are modelled, and the implicit string conversions are the `value` field.
- The `Result` and `Maybe` classes and `Result.Combine` are not part of this model. They are declared as sum types; `Combine` follows the first-failure policy the service relies on.
- `Category` and `Constants` are not part of this model: a category is an opaque ordinal, and `Constants.MaxQuantityInOrder` is a field of `ProductService` set by its constructor.
- The static sharing of `_persistent` across repository instances: the store is one field of one repository. `DeleteDatabase` before first use is the state the constructor establishes.
- Product properties other than `Quantity` are constants, because the core never reassigns them after creation.
- `ProductDefinition.Name` and `.Manufacturer` are non-null strings (null-guarded in the source), so `Create` is always given a present value from the service. `ManufacturerName.Create` and `Email.Create` still take an optional argument to model `null`.
- Culture-dependent number formatting: the id is rendered as invariant-culture decimal digits.
- `SuperMarket.Entities/Enitities/Product.cs`, an older revision of `Product` with string fields, is not used by the core.
- The supplier mock is modelled as written: it discards its whole stock and delivers nothing when it cannot cover a request.
- The MSTest harness and assertions by response code: the scenarios state the whole response instead.
