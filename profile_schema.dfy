/**
 * The profile-field schema of `updateProfileAction`: first and last name of
 * 3 to 20 characters, a bio of at most 200 characters. The bio's message
 * speaks of 100 characters; the limit it enforces is 200.
 */
module ProfileSchema {
  import opened Wrappers
  import opened Validation

  /** The submitted form entries; an entry that was not submitted is absent. */
  datatype ProfileForm = ProfileForm(firstName: Option<string>, lastName: Option<string>, bio: Option<string>)

  /** The validated record that is sent to the backend. */
  datatype ProfileFields = ProfileFields(firstName: string, lastName: string, bio: string)

  const FIRST_NAME: string := "firstName"
  const LAST_NAME: string := "lastName"
  const BIO: string := "bio"

  const FIRST_NAME_LENGTH: Message := Custom("First name must be between 3 and 20 characters")
  const LAST_NAME_LENGTH: Message := Custom("Last name must be between 3 and 20 characters")
  const BIO_LENGTH: Message := Custom("Bio must be less than 100 characters")

  function MinLength(n: nat, m: Message): Rule<string> { Rule(s => n <= |s|, m) }
  function MaxLength(n: nat, m: Message): Rule<string> { Rule(s => |s| <= n, m) }

  /** A name: at least 3 characters (default message), at most 20 (the given message). */
  function NameRules(tooLong: Message): seq<Rule<string>> { [MinLength(3, TooSmall(3)), MaxLength(20, tooLong)] }

  const BioRules: seq<Rule<string>> := [MaxLength(200, BIO_LENGTH)]

  /** What the schema admits, stated directly. */
  predicate NameAccepted(v: Option<string>) { v.Some? && 3 <= |v.value| <= 20 }
  predicate BioAccepted(v: Option<string>) { v.Some? && |v.value| <= 200 }
  predicate ProfileAccepted(form: ProfileForm) {
    NameAccepted(form.firstName) && NameAccepted(form.lastName) && BioAccepted(form.bio)
  }

  /** A string field: a value that is not a string fails the type check and no
      length check runs; a string is checked by every rule. */
  function StringFieldIssues(rules: seq<Rule<string>>, v: Option<string>): seq<Message> {
    match v
    case None => [ExpectedString]
    case Some(s) => Issues(rules, s)
  }

  /** The messages reported for a name, case by case. */
  lemma NameIssues(v: Option<string>, tooLong: Message)
    ensures StringFieldIssues(NameRules(tooLong), v) ==
      if v.None? then [ExpectedString]
      else if |v.value| < 3 then [TooSmall(3)]
      else if 20 < |v.value| then [tooLong]
      else []
    ensures StringFieldIssues(NameRules(tooLong), v) == [] <==> NameAccepted(v)
  {
    if v.Some? {
      NoIssuesIff(NameRules(tooLong), v.value);
    }
  }

  /** The messages reported for a bio, case by case. */
  lemma BioIssues(v: Option<string>)
    ensures StringFieldIssues(BioRules, v) ==
      if v.None? then [ExpectedString]
      else if 200 < |v.value| then [BIO_LENGTH]
      else []
    ensures StringFieldIssues(BioRules, v) == [] <==> BioAccepted(v)
  {
    if v.Some? {
      NoIssuesIff(BioRules, v.value);
    }
  }

  /** The flattened field errors of the profile schema. All three fields are
      checked, and exactly the failing ones get an entry. */
  function ProfileErrors(form: ProfileForm): (errs: FieldErrors)
    ensures errs.Keys <= {FIRST_NAME, LAST_NAME, BIO}
    ensures FIRST_NAME in errs <==> !NameAccepted(form.firstName)
    ensures LAST_NAME in errs <==> !NameAccepted(form.lastName)
    ensures BIO in errs <==> !BioAccepted(form.bio)
    ensures FIRST_NAME in errs ==> errs[FIRST_NAME] == StringFieldIssues(NameRules(FIRST_NAME_LENGTH), form.firstName)
    ensures LAST_NAME in errs ==> errs[LAST_NAME] == StringFieldIssues(NameRules(LAST_NAME_LENGTH), form.lastName)
    ensures BIO in errs ==> errs[BIO] == StringFieldIssues(BioRules, form.bio)
  {
    NameIssues(form.firstName, FIRST_NAME_LENGTH);
    NameIssues(form.lastName, LAST_NAME_LENGTH);
    BioIssues(form.bio);
    Entry(FIRST_NAME, StringFieldIssues(NameRules(FIRST_NAME_LENGTH), form.firstName))
      + Entry(LAST_NAME, StringFieldIssues(NameRules(LAST_NAME_LENGTH), form.lastName))
      + Entry(BIO, StringFieldIssues(BioRules, form.bio))
  }

  /** `schemaProfile.safeParse`: the record when every field passes, the field
      errors otherwise. */
  function SafeParseProfile(form: ProfileForm): (r: Result<ProfileFields, FieldErrors>)
    ensures r.Success? <==> ProfileAccepted(form)
    ensures r.Success? ==> r.value == ProfileFields(form.firstName.value, form.lastName.value, form.bio.value)
    ensures r.Failure? ==> r.error == ProfileErrors(form) && r.error != map[]
  {
    var errs := ProfileErrors(form);
    if errs == map[] then
      assert FIRST_NAME !in errs && LAST_NAME !in errs && BIO !in errs;
      Success(ProfileFields(form.firstName.value, form.lastName.value, form.bio.value))
    else
      Failure(errs)
  }

  /** The bio's message names 100 characters, yet any bio of up to 200 passes. */
  lemma BioLimitIsTwoHundred(form: ProfileForm)
    requires form.bio.Some? && 100 < |form.bio.value| <= 200
    ensures BIO !in ProfileErrors(form)
  {
  }

  /** A first name of two characters is reported, and only that field. */
  lemma ShortFirstNameScenario()
    ensures ProfileErrors(ProfileForm(Some("Al"), Some("Smith"), Some("hi"))) == map[FIRST_NAME := [TooSmall(3)]]
  {
    var form := ProfileForm(Some("Al"), Some("Smith"), Some("hi"));
    NameIssues(form.firstName, FIRST_NAME_LENGTH);
    var errs := ProfileErrors(form);
    assert errs.Keys == {FIRST_NAME};
  }
}
