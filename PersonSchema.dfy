/**
  The field rules of the Person schema: what a contact must look like before
  it is written.

  Schema semantics taken from the document-mapping library (they are not in
  the repository): a `required` String path fails when the value is missing
  or the empty string; the required check runs first, then `minlength`, then
  the custom validator, and each path reports only its first failing check.
  The uniqueness of `name` needs the collection and is checked by the store
  (module PersonStore).
*/
module PersonSchema {
  import opened Wrappers
  import opened PhonePattern
  import opened ObjectIds

  const NameMinLength: nat := 3
  const NumberMinLength: nat := 8

  /** The failing check reported for one path of the document. */
  datatype Violation =
    | Required                 // `required: true`
    | TooShort(minLength: nat) // `minlength: n`
    | NotUnique                // `unique: true` with the unique-validator plugin
    | Invalid(message: string) // the custom `validate` of `number`

  /** What the caller hands to `new Person({ name, number })`; a field may be absent. */
  datatype Candidate = Candidate(name: Option<string>, number: Option<string>)

  /** A stored person document: `_id`, the two fields and the version key `__v`. */
  datatype Document = Document(id: ObjectId, name: string, number: string, version: nat)

  /** The message of a failed number check, for the rejected value. */
  function NumberMessage(value: string): string {
    value + " is not a valid phone number"
  }

  /** `required` then `minlength`, shared by both paths. */
  function LengthViolation(v: Option<string>, minLength: nat): Option<Violation> {
    if v.None? || v.value == "" then Some(Required)
    else if |v.value| < minLength then Some(TooShort(minLength))
    else None
  }

  /** The checks of `name` that do not need the collection. */
  function NameViolation(v: Option<string>): (r: Option<Violation>)
    ensures r.None? <==> v.Some? && |v.value| >= 3
    ensures r == Some(Required) <==> v.None? || v.value == ""
    ensures r == Some(TooShort(3)) <==> v.Some? && 1 <= |v.value| < 3
    ensures r.None? || r == Some(Required) || r == Some(TooShort(3))
  {
    LengthViolation(v, NameMinLength)
  }

  /** The number validator: the pattern test, run by the hand-written matcher. */
  function NumberPatternOk(v: string): (ok: bool)
    ensures ok <==> MatchesPattern(v)
  {
    MatcherCorrect(v);
    Matches(v)
  }

  /** All checks of `number`: `required`, `minlength: 8`, then the pattern with its message. */
  function NumberViolation(v: Option<string>): (r: Option<Violation>)
    ensures r.None? <==> v.Some? && |v.value| >= 8 && MatchesPattern(v.value)
    ensures r == Some(Required) <==> v.None? || v.value == ""
    ensures r == Some(TooShort(8)) <==> v.Some? && 1 <= |v.value| < 8
    ensures (r.Some? && r.value.Invalid?) <==> v.Some? && |v.value| >= 8 && !MatchesPattern(v.value)
    ensures r.Some? && r.value.Invalid? ==> r.value.message == v.value + " is not a valid phone number"
  {
    var lengthCheck := LengthViolation(v, NumberMinLength);
    if lengthCheck.Some? then lengthCheck
    else if NumberPatternOk(v.value) then None
    else Some(Invalid(NumberMessage(v.value)))
  }

  /** Both field rules hold for a stored document. */
  predicate FieldsValid(d: Document) {
    NameViolation(Some(d.name)).None? && NumberViolation(Some(d.number)).None?
  }

  /**
    A number containing any character other than digits and one hyphen at
    index 2 or 3 is rejected with the fixed message.
  */
  lemma StrayCharacterRejected(number: string, i: nat)
    requires |number| >= 8 && i < |number| && !IsDigit(number[i])
    requires number[i] != '-' || (i != 2 && i != 3)
    ensures NumberViolation(Some(number)) == Some(Invalid(number + " is not a valid phone number"))
  {
    if MatchesPattern(number) {
      MatcherCorrect(number);
      OnlyOneHyphenAtTwoOrThree(number, i);
    }
  }

  /** Two non-digits anywhere reject a number (two hyphens among them). */
  lemma TwoNonDigitsRejected(number: string, i: nat, j: nat)
    requires i < j < |number| && !IsDigit(number[i]) && !IsDigit(number[j])
    ensures NumberViolation(Some(number)).Some?
  {
    if MatchesPattern(number) {
      MatcherCorrect(number);
      OnlyOneHyphenAtTwoOrThree(number, i);
    }
  }

  /** A two-digit area code, a hyphen and the subscriber digits pass every check. */
  lemma AreaCodeNumberAccepted()
    ensures NumberViolation(Some("09-1234567")) == None
  {
    assert PrefixedAt("09-1234567", 2);
  }
}
