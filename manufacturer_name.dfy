/**
 `ManufacturerName` (SuperMarket.Entities/Entities/ManufacturerName.cs): a
 manufacturer name obtained only through `Create`, written with early
 returns rather than combinators.  `None` stands for a `null` argument.
 */
module ManufacturerNames {
  import opened Functional
  import opened Primitives

  const MAX_LENGTH: nat := 256

  const EMPTY_MESSAGE := "Manufacturer name must not be empty"
  const TOO_LONG_MESSAGE := "Manufacturer name is too long"

  datatype ManufacturerName = ManufacturerName(value: string)

  /** What every name that `Create` accepts satisfies. */
  predicate IsValid(s: string) {
    !IsBlank(s) && Utf16Length(s) <= MAX_LENGTH
  }

  /** Null, empty and white-space names share one message; the length check comes second. */
  function Create(name: Maybe<string>): (r: Result<ManufacturerName>)
    ensures r.Ok? <==> name.Some? && IsValid(name.value)
    ensures r.Ok? ==> r.value.value == name.value
    ensures IsNullOrWhiteSpace(name) ==> r == Fail(EMPTY_MESSAGE)
    ensures !IsNullOrWhiteSpace(name) && Utf16Length(name.value) > MAX_LENGTH ==> r == Fail(TOO_LONG_MESSAGE)
  {
    if IsNullOrWhiteSpace(name) then Fail(EMPTY_MESSAGE)
    else if Utf16Length(name.value) > MAX_LENGTH then Fail(TOO_LONG_MESSAGE)
    else Ok(ManufacturerName(name.value))
  }

  /** `EqualsCore`: names are equal exactly when their strings are. */
  function EqualsCore(name: ManufacturerName, other: ManufacturerName): (r: bool)
    ensures r <==> name == other
  {
    name.value == other.value
  }

  /** Every valid string is the value of the name `Create` builds from it. */
  lemma CreateRoundTrip(name: ManufacturerName)
    requires IsValid(name.value)
    ensures Create(Some(name.value)) == Ok(name)
  {
  }

  /** A 1000-character name is too long. */
  lemma ThousandCharactersTooLong()
    ensures Create(Some(seq(1000, _ => 'c'))) == Fail(TOO_LONG_MESSAGE)
  {
    NotBlankWitness(seq(1000, _ => 'c'), 0);
  }

  /** 129 characters outside the Basic Multilingual Plane are 258 UTF-16 units, too long. */
  lemma AstralCharactersCountTwice()
    ensures Create(Some(seq(129, _ => '\U{1D49C}'))) == Fail(TOO_LONG_MESSAGE)
  {
    var s := seq(129, _ => '\U{1D49C}');
    Utf16LengthAstral(s);
    NotBlankWitness(s, 0);
  }

  lemma JaffaAccepted()
    ensures Create(Some("Jaffa")) == Ok(ManufacturerName("Jaffa"))
  {
    NotBlankWitness("Jaffa", 0);
  }
}
