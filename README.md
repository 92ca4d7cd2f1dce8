# Form3 account builder — a Dafny model

This project models the account-construction core of the Form3 account API client, which is written in Go. It covers three parts:

- **The country registry** (`Countries`). There are sixteen supported ISO 3166 codes. `BankIDCode` maps each one to the default local clearing scheme (the "bank-id-code"). Any other code gets the empty string.
- **The builder and its validation rules** (`Validation`, `Builders`).
  - A `Builder` object holds two attribute groups, the *essential* and the *optional* attributes.
  - Fluent setters overwrite one attribute each and check nothing.
  - `Validate` runs three passes in order, and an account is made only when every pass is clean:
    1. the struct tags named by the account's own country code;
    2. the generic `validate` tags of the essential attributes;
    3. the generic `validate` tags of the optional attributes.
  - The struct tags are written out as an explicit table (`EssentialTag`, `OptionalTag`). Each pass is a function that returns the violations it finds. A per-country reference profile (`ProfileFor`) states the same rules as sets of lengths, and lemmas prove that the tags and the profile agree.
- **The immutable account** (`Accounts`, `Transport`). `Account` is a datatype with read-only accessors. `Attributes()` and `AccountFrom` convert between an account and the transport records. The request body built by `createTransportData` in client.go is modelled so that the account round trip can be stated.

The Go method `Builder.Validate` is the class method `Builders.Builder.Validate`. It switches the validator's tag name between passes and returns early, as the code does, and it is proved equal to the function `Validation.Validate`. All the properties are proved about that function.

## How the validator is modelled

- A tag is a list of comma-separated entries, checked in order. The first entry that fails is the one reported for the field. Inside an entry, `|` means "any of these".
- `max=3,dive,max=140` checks the number of names first. Only if the count is within the limit is each name checked, and each failing name is reported by its position.
- Lengths are counted in characters.
- `uuid` is taken to be the textual form of section 3 of RFC 4122: 8-4-4-4-12 hexadecimal digits, in either letter case, separated by hyphens.
- Within one pass every failing field is reported. `Validate` returns the report of the first pass that finds anything.
- The validator's tag name is the field `Builder.tagName`. Its initial value is "validate", which is what `validator.New()` reads. Pass 1 reads the tag named by the country code. If that code is itself "validate", pass 1 applies the generic rules, and the model keeps that edge case.
- `Validation.Validate` reads the tags under the tag name in force at each call, which is what the structure of builder.go:159-170 evidently intends. The validator library parses a struct type's tags once per validator and keeps them, so the code as written may behave differently; see "## Findings".

## Behaviour of the code worth knowing

- **Passes are not aggregated.**
  - `Validate` returns at the first failing pass (builder.go:160-170), so a report only ever holds one pass's violations.
  - `Validation.BadBankIDReportedAlone` shows this. A UK account with a wrong-length bank id and a BIC of 8 or 11 characters is reported for the bank id alone, even when both ids are empty and the optional attributes break their limits.
  - A UK builder's BIC starts empty, so without a BIC the same account is reported for the bank id and the BIC together (`Validation.BadBankIDAndEmptyBicReported`).
- **An empty BIC is rejected.**
  - The BIC tags have no `omitempty` (builder.go:35), so an empty BIC fails `len=8|len=11`.
  - An empty BIC is therefore rejected for GB, AU, CA, HK, NL and US.
  - A GB account with `bic ""` does not validate (`Validation.EmptyBicRejected`).
  - A US account with `bic ""` and a non-empty IBAN is reported for both fields (`Validation.UnitedStatesBicAndIbanRejected`).
- **Any country is accepted when the builder is made.**
  - `NewBuilder` (builder.go:78-91) checks nothing, and the country tags (builder.go:34-36) have no entry for an unsupported code, so its country pass is clean.
  - Only the generic `eq=` rule of builder.go:32 can reject such a code. `Validation.UnsupportedCountryRejected` shows that it does when the generic tags are read; under the tag cache described in "## Findings" they are not, and the account is built when the optional attributes pass.

## Model

| member | source | states |
|---|---|---|
| Countries.Country.Code | countries.go:33-36 | converting the code back to a Country gives the same country |
| Countries.Country.BankIDCode | countries.go:38-76 | the result is empty exactly for the Netherlands and for every unsupported code; a non-empty result begins with the country code and has 2 or 5 characters; Belgium and France map to their own code |
| Countries.ConstantsDistinct | countries.go:13-31 | the sixteen constants are pairwise distinct, so exactly sixteen countries are supported |
| Countries.BankIDCodeExamples | countries.go:41-74 | GB→GBDSC, AU→AUBSB, DE→DEBLZ, US→USABA, NL→"" |
| Accounts.Account.Attributes | account.go:139-159 | the attributes object carries every attribute field of the account: with the id, organisation id, version and time stamps it gives back the same account (its partners are `AccountFrom` and `AttributesExcludeEnvelope`) |
| Accounts.AccountFrom | account.go:161-186 | any transport record gives an account, with no check; its attributes are exactly the record's attributes, and its id, organisation id, version and time stamps are the record's |
| Accounts.CreateTransportData | client.go:253-264 | the body has type "accounts" and no time stamps; reading it back gives the account with its time stamps unset |
| Accounts.TransportRoundTrip | account.go:139-186 | account from a record, then body from that account: only the type and the time stamps differ from the record |
| Accounts.AttributesExcludeEnvelope | account.go:139-159 | the attributes object does not depend on id, organisation id, version or time stamps |
| Validation.FirstFailing | builder.go:29-37 | no entry is reported exactly when the whole tag holds; otherwise the reported entry fails and every entry before it holds |
| Validation.FieldViolations | builder.go:29-37 | a field is reported at most once, exactly when its tag fails, and with an entry of its tag that it fails |
| Validation.ViolationsOver | builder.go:29-37 | a walk over fields reports nothing exactly when all pass; each report names a listed field that fails the reported entry; each failing field is reported |
| Validation.EssentialViolations | builder.go:284-292 | one validation of the essential record: empty exactly when every field's tag holds, and every report is a real failure |
| Validation.FailingFieldReported | builder.go:284-292 | an essential field that fails its tag appears in the report |
| Validation.BankIDTag | builder.go:34 | the bank id tag under any tag name is empty or one entry of exact lengths; what each country's entry accepts is stated by the `BankIDRule…` lemmas |
| Validation.BicTag | builder.go:35 | the BIC tag under any tag name is empty or `len=8\|len=11`; `BicRuleMatchesProfile` says for which countries |
| Validation.IbanTag | builder.go:36 | the IBAN tag under any tag name is empty or `len=0`; `IbanRuleMatchesProfile` says for which countries |
| Validation.EssentialTag | builder.go:29-37 | "validate" tags only the id, organisation id and country, every other tag name only the bank id, BIC and IBAN; `CountryTagsOnly`, `GenericTagsOnly`, `UuidTagHolds` and `CountryTagHolds` state what the tags accept |
| Validation.OptionalTag | builder.go:49-54 | every tagged optional field has one entry: the classification's `eq` list or a `max` length; `MaxEntry` and `ClassificationEntry` state what they accept |
| Validation.CountryTagsOnly | builder.go:29-37 | under a country tag name only the bank id, BIC and IBAN carry tags; an unsupported code carries none |
| Validation.GenericTagsOnly | builder.go:29-37 | under "validate" only the id, organisation id and country carry tags |
| Validation.CountryViolations | builder.go:160-163 | the country pass reports only the bank id, BIC and IBAN, and nothing for an unsupported code |
| Validation.GenericViolations | builder.go:164-167 | the generic pass reports only the id, the organisation id and the country |
| Validation.ProfileFor | builder.go:33-36 | a profile exists exactly for the sixteen supported countries |
| Validation.UuidTagHolds | builder.go:30-31 | `uuid,required` holds exactly for RFC 4122 UUID text |
| Validation.EqAnyHolds | builder.go:32 | an `eq=..|eq=..` entry holds exactly for the listed values |
| Validation.CountryTagHolds | builder.go:32 | the country tag holds exactly for the sixteen supported codes (Spain is listed twice) |
| Validation.LenEntry | builder.go:34-36 | `len=n` holds exactly for text of n characters |
| Validation.LenPairEntry | builder.go:34-35 | `len=a\|len=b` holds exactly for text of a or b characters |
| Validation.BankIDRuleAnyLength | builder.go:34 | Australia, Canada and Hong Kong accept a bank id of any length |
| Validation.BankIDRuleTwoLengths | builder.go:34 | Italy accepts a bank id of exactly 10 or 11 characters |
| Validation.BankIDRuleShortLength | builder.go:34 | GB 6, BE 3, LU 3, GR 7, CH 5 and NL 0 characters, each exactly |
| Validation.BankIDRuleLongLength | builder.go:34 | FR 10, US 9, and DE, PL, PT and ES 8 characters, each exactly |
| Validation.BankIDRuleMatchesProfile | builder.go:34 | the bank id tag of each supported country accepts exactly the lengths of its profile: GB 6, BE 3, FR 10, DE 8, GR 7, IT 10 or 11, LU 3, NL 0, PL 8, PT 8, ES 8, CH 5, US 9, any for AU, CA and HK |
| Validation.BicRuleMatchesProfile | builder.go:35 | the BIC must have 8 or 11 characters for GB, AU, CA, HK, NL and US, and is free elsewhere |
| Validation.BicRuleEightOrEleven | builder.go:35 | GB, AU, CA, HK, NL and US accept exactly a BIC of 8 or 11 characters, so not an empty one |
| Validation.BicRuleAnyLength | builder.go:35 | the other ten supported countries accept any BIC |
| Validation.IbanRuleEmpty | builder.go:36 | AU, CA, HK and US accept only an empty IBAN |
| Validation.IbanRuleAnyLength | builder.go:36 | the other twelve supported countries accept any IBAN |
| Validation.IbanRuleMatchesProfile | builder.go:36 | the IBAN must be empty for AU, CA, HK and US, and is free elsewhere |
| Validation.CountryTagsMatchProfile | builder.go:34-36 | for every supported country, all three tags agree with the profile |
| Validation.CountryPassMatchesProfile | builder.go:33-36 | the country pass of a supported country is clean exactly when the bank id, BIC and IBAN satisfy the profile |
| Validation.CountryPassOfSupported | builder.go:33-36 | the same, for a country that may be unsupported |
| Validation.GenericPassMeaning | builder.go:30-32 | the generic pass is clean exactly when both ids are UUIDs and the country is supported |
| Validation.UnsupportedCountryReported | builder.go:32 | the generic pass reports an unsupported country field |
| Validation.DiveViolations | builder.go:52 | `dive,max=140`: empty exactly when no name is longer than 140; each report is a name over 140 at its position; each such name is reported |
| Validation.AltNameViolations | builder.go:52 | more than 3 names gives the single count violation; otherwise exactly the names over 140 are reported |
| Validation.AltNamesJustified | builder.go:52 | every alternative-name violation breaks a limit |
| Validation.MaxEntry | builder.go:49-54 | `max=n` holds exactly for text of at most n characters |
| Validation.ClassificationEntry | builder.go:53 | the classification tag holds exactly for "Personal" and "Business" |
| Validation.ClassificationJustified | builder.go:53 | the classification is reported exactly when it is neither value, then as one violation of the `eq=Personal\|eq=Business` entry, and justly |
| Validation.LimitViolations | builder.go:49-54 | a `max` field is reported exactly when it is longer than its limit, and then as the one violation of `max=n` |
| Validation.NameViolations | builder.go:49-51 | title and first name at most 40 characters, account name at most 140; every report breaks its limit, and each field over its limit is reported, all together |
| Validation.OtherOptionalViolations | builder.go:52-54 | names, classification and secondary identification: empty exactly when all three rules hold, every report breaks a rule, and each broken rule is reported (too many names, each over-long name of an allowed list, a bad classification, an over-long secondary identification) |
| Validation.OptionalViolations | builder.go:43-57 | the optional pass is clean exactly when the limits hold; version, account number, customer id, currency and the flags are never checked; every report breaks a limit, and every optional field that breaks its rule is reported in the same pass |
| Validation.AccountOf | builder.go:171-191 | the account holds every builder attribute verbatim and has no time stamps |
| Validation.CountryViolationsJustified | builder.go:160-163 | every report of the country pass names a field that breaks its country's profile |
| Validation.CountryViolationJustified | builder.go:34-36 | one such report, for a supported country |
| Validation.GenericViolationsJustified | builder.go:164-167 | every report of the generic pass names a non-UUID id or an unsupported country |
| Validation.Validate | builder.go:159-192 | an account is built exactly when the attributes are acceptable, and it is the builder's attributes; otherwise the report is non-empty, every item names a field that truly breaks its rule, and the report is the first non-empty pass |
| Validation.CastRoundTrip | builder.go:98-125 | an account that validation built, cast back into attributes, validates to the same account |
| Validation.CastThenBuild | builder.go:98-125 | casting any account and building from it loses only the time stamps |
| Validation.BadBankIDCountryPass | builder.go:34 | a GB bank id without 6 characters, with a good BIC, is the whole country-pass report |
| Validation.BadBankIDReportedAlone | builder.go:160-163 | that account is rejected for the bank id alone, whatever else is wrong |
| Validation.BadBankIDAndEmptyBicReported | builder.go:34-35 | a GB account with a wrong-length bank id and an empty BIC is reported for both fields |
| Validation.EmptyBicRejected | builder.go:35 | an empty BIC is rejected and reported for GB, AU, CA, HK, NL and US |
| Validation.NonEmptyIbanReported | builder.go:36 | a non-empty IBAN is reported for AU, CA, HK and US |
| Validation.UnitedStatesBicAndIbanRejected | builder.go:35-36 | a US account with an empty BIC and a non-empty IBAN is reported for both |
| Validation.UnsupportedCountryRejected | builder.go:160-167 | an unsupported code passes the country pass and, when the generic tags are read, is rejected by the generic pass for its country |
| Validation.BelgianAccountValidates | test/account_client_test.go:209-215 | a Belgian account with bank id "123" and two UUIDs validates |
| Validation.BelgianPassesEssential | builder.go:30-34 | such a Belgian account passes the country and generic passes |
| Validation.BelgianPassesCountry | builder.go:34 | a Belgian account with a three-character bank id passes the country pass |
| Validation.FirstNameTooLongRejected | builder.go:50 | a valid Belgian business account with a 41-character first name is rejected for the first name alone |
| Validation.UnitedKingdomPassesCountry | builder.go:34-36 | a GB account with a 6-character bank id and a BIC of 8 or 11 characters passes the country pass |
| Validation.CachedValidate | builder.go:159-170 | `Validate` with the essential record's tags parsed once under the country code: an account is built exactly when the country pass and the optional pass are clean |
| Validation.CachedValidateSkipsIdCheck | builder.go:164-167 | under that cache a GB account with a good bank id and BIC but an id that is not a UUID is built, while `Validate` rejects it for its id |
| Validation.CachedValidateAcceptsUnsupportedCountry | builder.go:164-167 | under that cache an unsupported country code with acceptable optional attributes is built, while `Validate` rejects it |
| Validation.UnitedKingdomAccountValidates | builder.go:34-35 | a GB account with a 6-character bank id, a BIC of 8 or 11 characters and two UUIDs validates |
| Validation.NewOptionalAcceptable | builder.go:86-88 | the optional attributes of a new builder pass the optional pass |
| Builders.Builder.constructor | builder.go:80-91 | a builder over given attributes, whose validator reads the "validate" tags |
| Builders.Builder.SetID | builder.go:127-131 | stores the id verbatim, changes nothing else, returns the same builder |
| Builders.Builder.SetOrganizationID | builder.go:133-137 | stores the organisation id verbatim, changes nothing else, returns the same builder |
| Builders.Builder.SetBankID | builder.go:139-143 | stores the bank id verbatim, changes nothing else, returns the same builder |
| Builders.Builder.SetBic | builder.go:145-149 | stores the BIC verbatim, changes nothing else, returns the same builder |
| Builders.Builder.SetIban | builder.go:151-155 | stores the IBAN verbatim, changes nothing else, returns the same builder |
| Builders.Builder.Validate | builder.go:157-192 | equals `Validation.Validate` of the attributes, leaves them unchanged, and leaves the validator on the country's tags exactly when the first pass failed |
| Builders.Builder.SetOptionalAttribute | builder.go:194-199 | a fresh set of optional setters bound to this builder |
| Builders.OptionalSetters.SetVersion | builder.go:207-211 | stores the version, changes nothing else, returns the builder |
| Builders.OptionalSetters.SetAccountNumber | builder.go:201-205 | stores the account number, changes nothing else, returns the builder |
| Builders.OptionalSetters.SetBaseCurrency | builder.go:213-218 | stores the currency code, changes nothing else, returns the builder |
| Builders.OptionalSetters.SetCustomerID | builder.go:220-224 | stores the customer id, changes nothing else, returns the builder |
| Builders.OptionalSetters.SetTitle | builder.go:226-231 | stores the title unchecked, changes nothing else, returns the builder |
| Builders.OptionalSetters.SetFirstName | builder.go:233-238 | stores the first name unchecked, changes nothing else, returns the builder |
| Builders.OptionalSetters.SetBankAccountName | builder.go:240-246 | stores the account name unchecked, changes nothing else, returns the builder |
| Builders.OptionalSetters.SetAltBankAccountNames | builder.go:248-253 | replaces the list of names with any list, changes nothing else, returns the builder |
| Builders.OptionalSetters.SetAccountClassification | builder.go:255-260 | stores the classification unchecked, changes nothing else, returns the builder |
| Builders.OptionalSetters.SetJointAccount | builder.go:262-267 | stores the flag, changes nothing else, returns the builder |
| Builders.OptionalSetters.SetAccountMatchingOptOut | builder.go:269-274 | stores the flag, changes nothing else, returns the builder |
| Builders.OptionalSetters.SetSecondaryIdentification | builder.go:276-282 | stores the identification unchecked, changes nothing else, returns the builder |
| Builders.NewBuilder | builder.go:78-91 | seeds the country code and its default bank-id-code, classification "Personal", every other attribute empty, zero or false; any country is accepted |
| Builders.CastBuilderFrom | builder.go:93-125 | a fresh builder holding every attribute of the account |
| Builders.Revalidate | builder.go:98-192 | validating, casting the account into a new builder and validating again gives the same account |
| Builders.BuildBelgianAccount | test/account_client_test.go:209-215 | the setters and `Validate` build a Belgian account with bank id "123", with the ids given and bank-id-code "BE" |
| Builders.BuildUnitedKingdomAccount | builder.go:34-35 | a GB builder is rejected for its empty BIC, then validates once the BIC "NWBKGB22" is set, with bank-id-code "GBDSC" |
| Builders.TooManyAlternativeNames | builder.go:52 | four alternative names make `Validate` fail, whatever else is set |

## Left out

- The HTTP client in client.go is not modelled. This covers requests, URL handling, JSON encoding and decoding, status codes, health checks and pagination, all of which are I/O through foreign libraries. Only `createTransportData` is modelled, for the round trip.
- The `json:` tags and `omitempty` of transport_model.go are serialisation concerns. The transport structs are plain datatypes.
- The go-playground validator's internals are not modelled: reflection, the parsing of tag strings and the exact error text. `validateStruct` is the violation list, where an empty list stands for a nil error.
- Validation.Validate: reads the tags under the current tag name on every pass. This is what builder.go:159-170 evidently intends. The library caches each struct type's parsed tags per validator, and `SetTagName` does not clear that cache, so in the program the generic pass over the essential attributes may re-apply the country's tags. Then the UUID and supported-country rules of builder.go:30-32 never run. `Validation.CachedValidate` models that reading and is not used elsewhere; "## Findings" gives the inputs.
- The validator's `uuid` regular expression is not claimed. The model uses the RFC 4122 textual form, which `IsUuid` accepts in either letter case. The library's `uuid` pattern is, as far as is known of go-playground validator v9, lower-case only, so an upper-case UUID such as "123E4567-E89B-12D3-A456-426614174000" passes the model's generic pass and may fail in the program.
- The `currency.Unit` of golang.org/x/text is not modelled. `SetBaseCurrency` takes the currency's ISO 4217 code as a string, which is what `unit.String()` stores.
- `time.Time` is an opaque value (`Transport.Time`). The only property used is that it is unset after `Validate`.
- Go's `int` is modelled as an unbounded integer. The version is stored and never computed, so its width does not matter.
- The slices held by the builder and the account are values, so aliasing between them is not modelled. In Go, `AltBankAccountNames` shares the caller's slice.
- Concurrency is not modelled: a builder is used by one thread at a time.
- In Go, code outside the package can make only the zero `Account` (`account.Account{}`, `new(account.Account)`), because its fields are unexported (account.go:8-30). An account with any field set comes from `Validate` (builder.go:171) or `accountFrom` (account.go:162). In Dafny any code can construct any value of the datatype; `CastThenBuild` and `Revalidate` hold for every account, the zero one included.
- The `Builder` back-reference field of `optionalAttributes` is the `builder` field of `OptionalSetters`. Its other fields are never read, so they are left out.
- The accessors of `Account` read their field and carry no contract.
- `CastBuilderFrom` with a nil `*Account` panics in Go, because builder.go:98-125 calls the accessors on it. The model passes accounts as values, so there is no nil account and this failure is not represented.

## Findings

| source | as written | input that shows it | evidently intended | confidence | as-written member | corrected member |
|---|---|---|---|---|---|---|
| builder.go:159-170 | the tag name is switched with `SetTagName("validate")` between two validations of the same essential struct by the same validator, which parses a struct type's tags once and keeps them | country "GB", id "x", organisation id "x", bank id "123456", BIC "NWBKGB22", optional attributes of a new builder: built; likewise country "XX" with any ids | the second pass applies the `validate` tags, so a non-UUID id or an unsupported country is rejected | not executed; medium: rests on the per-type tag cache of go-playground validator v9, which is not part of this model | Validation.CachedValidateSkipsIdCheck | Validation.Validate |
