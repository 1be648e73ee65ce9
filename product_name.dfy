/**
 `ProductName` (SuperMarket.Entities/Entities/ProductName.cs): a product name
 obtained only through `Create`, which chains the combinators of `Functional`.
 */
module ProductNames {
  import opened Functional
  import opened Primitives

  const MAX_LENGTH: nat := 100

  const INVALID_MESSAGE := "Product name is invalid"
  const EMPTY_MESSAGE := "Product name must not be empty"
  const TOO_LONG_MESSAGE := "Product name is too long"

  datatype ProductName = ProductName(value: string)

  /** What every name that `Create` accepts satisfies. */
  predicate IsValid(s: string) {
    !IsBlank(s) && Utf16Length(s) <= MAX_LENGTH
  }

  /**
   `ToResult` -> `Ensure` (not blank) -> `Ensure` (length) -> `OnSuccess`
   (wrap).  The first failing check decides the message, and an accepted
   name is wrapped exactly as given.
   */
  function Create(nameOrNothing: Maybe<string>): (r: Result<ProductName>)
    ensures r.Ok? <==> nameOrNothing.Some? && IsValid(nameOrNothing.value)
    ensures r.Ok? ==> r.value.value == nameOrNothing.value
    ensures nameOrNothing.None? ==> r == Fail(INVALID_MESSAGE)
    ensures nameOrNothing.Some? && IsBlank(nameOrNothing.value) ==> r == Fail(EMPTY_MESSAGE)
    ensures nameOrNothing.Some? && !IsBlank(nameOrNothing.value) && Utf16Length(nameOrNothing.value) > MAX_LENGTH
      ==> r == Fail(TOO_LONG_MESSAGE)
  {
    var named := ToResult(nameOrNothing, INVALID_MESSAGE);
    var present := Ensure(named, n => !IsBlank(n), EMPTY_MESSAGE);
    var short := Ensure(present, (n: string) => Utf16Length(n) <= MAX_LENGTH, TOO_LONG_MESSAGE);
    OnSuccessMap(short, n => ProductName(n))
  }

  /** `EqualsCore`: names are equal exactly when their strings are. */
  function EqualsCore(name: ProductName, other: ProductName): (r: bool)
    ensures r <==> name == other
  {
    name.value == other.value
  }

  /** Every valid string is the value of the name `Create` builds from it. */
  lemma CreateRoundTrip(name: ProductName)
    requires IsValid(name.value)
    ensures Create(Some(name.value)) == Ok(name)
  {
  }

  /** The blank check precedes the length check: 101 spaces are reported as empty. */
  lemma BlankBeforeLength()
    ensures Create(Some(seq(101, _ => ' '))) == Fail(EMPTY_MESSAGE)
  {
    var s := seq(101, _ => ' ');
    assert forall i | 0 <= i < |s| :: IsWhiteSpace(s[i]);
  }

  /** A 1000-character name is too long. */
  lemma ThousandCharactersTooLong()
    ensures Create(Some(seq(1000, _ => 'c'))) == Fail(TOO_LONG_MESSAGE)
  {
    var s := seq(1000, _ => 'c');
    NotBlankWitness(s, 0);
  }

  /**
   The limit counts UTF-16 code units: 51 characters outside the Basic
   Multilingual Plane are 102 units, too long.
   */
  lemma AstralCharactersCountTwice()
    ensures Create(Some(seq(51, _ => '\U{1D49C}'))) == Fail(TOO_LONG_MESSAGE)
  {
    var s := seq(51, _ => '\U{1D49C}');
    Utf16LengthAstral(s);
    NotBlankWitness(s, 0);
  }

  lemma OrangesAccepted()
    ensures Create(Some("Oranges")) == Ok(ProductName("Oranges"))
  {
    NotBlankWitness("Oranges", 0);
  }
}
