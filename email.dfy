/**
 `Email` (SuperMarket.Entities/Entities/Email.cs): an address obtained only
 through `Create`, which gates on the .NET regular expression `^(.+)@(.+)$`.

 Under .NET semantics without options, `.` matches any character but `'\n'`,
 and `$` matches at the end of the input or just before a final `'\n'`.  So
 the pattern accepts a line of at least three characters, optionally
 followed by one newline, with an `'@'` somewhere strictly inside it; further
 `'@'`s are allowed.
 */
module Emails {
  import opened Functional

  const INVALID_MESSAGE := "Email is invalid"

  datatype Email = Email(value: string)

  /**
   The regex matches `s` with the `'@'` at index `at` and `$` at index `end`:
   `(.+)` covers `s[..at]`, the second `(.+)` covers `s[at + 1..end]`, and
   what follows `end` is nothing or a single final newline.
   */
  predicate MatchesAt(s: string, at: int, end: int) {
    && 0 < at && at + 1 < end
    && (end == |s| || (end + 1 == |s| && s[end] == '\n'))
    && s[at] == '@'
    && forall k | 0 <= k < end :: s[k] != '\n'
  }

  /**
   The reference meaning of `Regex.IsMatch(s, @"^(.+)@(.+)$")`: a match has
   at least three characters with an '@' strictly inside them.
   */
  ghost predicate RegexMatches(s: string): (b: bool)
    ensures b ==> |s| >= 3 && '@' in s[1..|s| - 1]
  {
    exists at, end :: MatchesAt(s, at, end)
  }

  /** The line `$` anchors to: `s` without one final newline. */
  function AnchoredLine(s: string): (line: string)
    ensures line == s || (|s| > 0 && s[|s| - 1] == '\n' && line == s[..|s| - 1])
  {
    if |s| > 0 && s[|s| - 1] == '\n' then s[..|s| - 1] else s
  }

  /** A line of three or more characters, with no newline, and an '@' strictly inside. */
  predicate LinePattern(line: string) {
    |line| >= 3 && '\n' !in line && '@' in line[1..|line| - 1]
  }

  /** The line condition on the anchored line is exactly a regex match. */
  lemma LinePatternIsMatch(s: string)
    ensures LinePattern(AnchoredLine(s)) <==> RegexMatches(s)
  {
    var line := AnchoredLine(s);
    if LinePattern(line) {
      var j :| 0 <= j < |line[1..|line| - 1]| && line[1..|line| - 1][j] == '@';
      assert MatchesAt(s, j + 1, |line|);
    }
    if RegexMatches(s) {
      var at, end :| MatchesAt(s, at, end);
      if end == |s| {
        assert s[|s| - 1] != '\n';
        assert line == s;
      } else {
        assert line == s[..end];
      }
      assert line[1..|line| - 1][at - 1] == '@';
    }
  }

  /** The check `Create` performs; it agrees with the regex on every string. */
  predicate IsEmailPattern(s: string): (b: bool)
    ensures b <==> RegexMatches(s)
  {
    LinePatternIsMatch(s);
    LinePattern(AnchoredLine(s))
  }

  /** `None` (a null string) and every string the pattern rejects fail with the same message. */
  function Create(emailOrNothing: Maybe<string>): (r: Result<Email>)
    ensures r.Ok? <==> emailOrNothing.Some? && RegexMatches(emailOrNothing.value)
    ensures r.Ok? ==> r.value.value == emailOrNothing.value
    ensures r.Fail? ==> r.error == INVALID_MESSAGE
  {
    if emailOrNothing.None? then Fail(INVALID_MESSAGE)
    else
      var email := emailOrNothing.value;
      if !IsEmailPattern(email) then Fail(INVALID_MESSAGE)
      else Ok(Email(email))
  }

  /** `EqualsCore`: addresses are equal exactly when their strings are. */
  function EqualsCore(email: Email, other: Email): (r: bool)
    ensures r <==> email == other
  {
    email.value == other.value
  }

  /** Every accepted string is the value of the address `Create` builds from it. */
  lemma CreateRoundTrip(email: Email)
    requires RegexMatches(email.value)
    ensures Create(Some(email.value)) == Ok(email)
  {
  }

  /** The address used by the unit tests and three edge cases of the pattern are accepted. */
  lemma AcceptedExamples()
    ensures Create(Some("jaffa@gmail.com")) == Ok(Email("jaffa@gmail.com"))
    ensures Create(Some("a@b")).Ok? && Create(Some("a@@b")).Ok? && Create(Some("a@b\n")).Ok?
  {
    assert MatchesAt("jaffa@gmail.com", 5, 15);
    assert MatchesAt("a@b", 1, 3);
    assert MatchesAt("a@@b", 1, 4);
    assert MatchesAt("a@b\n", 1, 3);
  }

  /** An address without '@' is rejected, as in the unit tests. */
  lemma NoAtRejected()
    ensures Create(Some("invalidemail")) == Fail(INVALID_MESSAGE)
  {
    assert !LinePattern(AnchoredLine("invalidemail"));
  }

  /** Too short, nothing before the '@', and a newline inside are rejected. */
  lemma EdgeCasesRejected()
    ensures Create(Some("abc")).Fail? && Create(Some("")).Fail? && Create(Some("@b")).Fail?
    ensures Create(Some("a@\nb")).Fail?
  {
  }
}
