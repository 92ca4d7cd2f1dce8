/** The builder's two attribute groups and the rules `Validate` applies to them.
    The source attaches the rules to the fields as struct tags, keyed by a tag
    name: a country code selects that country's rules, "validate" selects the
    generic ones. Here the tags are an explicit table, a check is a predicate
    on the field's text, and each rule pass is a function returning the
    violations it finds. */
module Validation {
  import Countries
  import opened Transport
  import opened Accounts

  datatype Option<T> = None | Some(value: T)

  /** Identity and routing fields, checked by the country and generic passes. */
  datatype EssentialAttributes = EssentialAttributes(
    id: string,
    organizationID: string,
    country: string,
    bankIDCode: string,
    bankID: string,
    bic: string,
    iban: string)

  /** Descriptive fields, checked by the optional pass. */
  datatype OptionalAttributes = OptionalAttributes(
    versionIndex: int,
    accountNumber: string,
    baseCurrency: string,
    customerID: string,
    title: string,
    firstName: string,
    bankAccountName: string,
    altBankAccountNames: seq<string>,
    accountClassification: string,
    secondaryIdentification: string,
    jointAccount: bool,
    accountMatchingOptOut: bool)

  // ---------------------------------------------------------------------------
  // Checks and tags

  /** One check of a tag. Lengths count characters. */
  datatype Check = Len(n: nat) | Max(n: nat) | Eq(value: string) | Uuid | Required

  /** The checks of one tag entry, joined by `|`: the entry holds if any does. */
  type Alternatives = seq<Check>

  /** A tag: its entries, separated by `,`, are checked in order, and the
      first that does not hold is the one reported for the field. */
  type Tag = seq<Alternatives>

  predicate IsHexDigit(c: char)
  {
    '0' <= c <= '9' || 'a' <= c <= 'f' || 'A' <= c <= 'F'
  }

  /** The textual form of a UUID (section 3 of RFC 4122): 32 hexadecimal
      digits in groups of 8-4-4-4-12, separated by hyphens. */
  predicate IsUuid(s: string)
  {
    |s| == 36 &&
    forall i | 0 <= i < 36 ::
      if i == 8 || i == 13 || i == 18 || i == 23 then s[i] == '-' else IsHexDigit(s[i])
  }

  predicate Holds(c: Check, s: string)
  {
    match c
    case Len(n) => |s| == n
    case Max(n) => |s| <= n
    case Eq(v) => s == v
    case Uuid => IsUuid(s)
    case Required => s != ""
  }

  predicate AnyHolds(alternatives: Alternatives, s: string)
  {
    exists i | 0 <= i < |alternatives| :: Holds(alternatives[i], s)
  }

  predicate TagHolds(tag: Tag, s: string)
  {
    forall i | 0 <= i < |tag| :: AnyHolds(tag[i], s)
  }

  /** The first entry of the tag that the text fails, if any. */
  function FirstFailing(tag: Tag, s: string): (r: Option<Alternatives>)
    ensures r.None? <==> TagHolds(tag, s)
    ensures r.Some? ==> exists k | 0 <= k < |tag| ::
      r.value == tag[k] && !AnyHolds(tag[k], s) && forall j | 0 <= j < k :: AnyHolds(tag[j], s)
  {
    if tag == [] then None
    else if !AnyHolds(tag[0], s) then Some(tag[0])
    else
      var r := FirstFailing(tag[1..], s);
      assert forall j | 1 <= j < |tag| :: tag[j] == tag[1..][j - 1];
      r
  }

  /** The fields the validator can report; an alternative bank account name
      is reported by its position. */
  datatype Field =
    | ID | OrganizationID | Country | BankIDCode | BankID | Bic | Iban
    | Title | FirstName | BankAccountName | AltBankAccountNames | AltBankAccountName(index: nat)
    | AccountClassification | SecondaryIdentification

  /** A failed rule: the field and the tag entry it failed. */
  datatype Violation = Violation(field: Field, failed: Alternatives)

  /** What the validator reports for one text field: nothing if its tag
      holds, otherwise the first failing entry. */
  function FieldViolations(field: Field, value: string, tag: Tag): (r: seq<Violation>)
    ensures r == [] <==> TagHolds(tag, value)
    ensures |r| <= 1
    ensures forall v | v in r :: v.field == field && v.failed in tag && !AnyHolds(v.failed, value)
  {
    match FirstFailing(tag, value)
    case None => []
    case Some(failed) => [Violation(field, failed)]
  }

  // ---------------------------------------------------------------------------
  // The tag table of the essential attributes

  /** The tag name that selects the generic rules. */
  const GenericTagName: string := "validate"

  /** The essential fields in declaration order, which is the order of reporting. */
  const EssentialFields: seq<Field> := [ID, OrganizationID, Country, BankIDCode, BankID, Bic, Iban]

  function EssentialValue(e: EssentialAttributes, field: Field): string
  {
    match field
    case ID => e.id
    case OrganizationID => e.organizationID
    case Country => e.country
    case BankIDCode => e.bankIDCode
    case BankID => e.bankID
    case Bic => e.bic
    case Iban => e.iban
    case _ => ""
  }

  /** `uuid,required` */
  const UuidTag: Tag := [[Uuid], [Required]]

  /** The codes of the country field's `eq` entries, Spain listed twice as in the source. */
  const CountryTagCodes: seq<string> :=
    ["GB", "AU", "BE", "CA", "FR", "DE", "GR", "HK", "IT", "LU", "NL", "PL", "PT", "ES", "ES", "CH", "US"]

  /** `eq=c1|eq=c2|...`: text equal to one of the values. */
  function EqAny(values: seq<string>): Alternatives
  {
    seq(|values|, i requires 0 <= i < |values| => Eq(values[i]))
  }

  /** `eq=GB|eq=AU|...|eq=US` */
  const CountryTag: Tag := [EqAny(CountryTagCodes)]

  /** The bank id tag under a tag name: nothing, or one entry of exact
      lengths. */
  function BankIDTag(tagName: string): (r: Tag)
    ensures r == [] || (|r| == 1 && forall c | c in r[0] :: c.Len?)
  {
    match tagName
    case "GB" => [[Len(6)]]
    case "BE" => [[Len(3)]]
    case "FR" => [[Len(10)]]
    case "DE" => [[Len(8)]]
    case "GR" => [[Len(7)]]
    case "IT" => [[Len(10), Len(11)]]
    case "LU" => [[Len(3)]]
    case "NL" => [[Len(0)]]
    case "PL" => [[Len(8)]]
    case "PT" => [[Len(8)]]
    case "ES" => [[Len(8)]]
    case "CH" => [[Len(5)]]
    case "US" => [[Len(9)]]
    case _ => []
  }

  /** The BIC tag under a tag name: nothing, or 8 or 11 characters. */
  function BicTag(tagName: string): (r: Tag)
    ensures r == [] || r == [[Len(8), Len(11)]]
  {
    match tagName
    case "GB" => [[Len(8), Len(11)]]
    case "AU" => [[Len(8), Len(11)]]
    case "CA" => [[Len(8), Len(11)]]
    case "HK" => [[Len(8), Len(11)]]
    case "NL" => [[Len(8), Len(11)]]
    case "US" => [[Len(8), Len(11)]]
    case _ => []
  }

  /** The IBAN tag under a tag name: nothing, or the IBAN must be empty. */
  function IbanTag(tagName: string): (r: Tag)
    ensures r == [] || r == [[Len(0)]]
  {
    match tagName
    case "AU" => [[Len(0)]]
    case "CA" => [[Len(0)]]
    case "HK" => [[Len(0)]]
    case "US" => [[Len(0)]]
    case _ => []
  }

  /** The tag a field of the essential attributes carries under a tag name.
      The "validate" tags concern only the identifiers and the country, every
      other tag name only the bank id, the BIC and the IBAN. */
  function EssentialTag(tagName: string, field: Field): (r: Tag)
    ensures r != [] && tagName == GenericTagName ==> field in {ID, OrganizationID, Country}
    ensures r != [] && tagName != GenericTagName ==> field in {BankID, Bic, Iban}
  {
    match field
    case ID => if tagName == GenericTagName then UuidTag else []
    case OrganizationID => if tagName == GenericTagName then UuidTag else []
    case Country => if tagName == GenericTagName then CountryTag else []
    case BankID => BankIDTag(tagName)
    case Bic => BicTag(tagName)
    case Iban => IbanTag(tagName)
    case _ => []
  }

  /** The validator's walk over some essential fields, in order: each field
      whose tag fails is reported once, with the entry it failed, and nothing
      else is reported. */
  function ViolationsOver(tagName: string, e: EssentialAttributes, fields: seq<Field>): (r: seq<Violation>)
    ensures r == [] <==> AllFieldsPass(tagName, e, fields)
    ensures OverSound(tagName, e, fields, r) && OverComplete(tagName, e, fields, r)
  {
    if fields == [] then []
    else
      var head := FieldViolations(fields[0], EssentialValue(e, fields[0]), EssentialTag(tagName, fields[0]));
      var rest := ViolationsOver(tagName, e, fields[1..]);
      OverStep(tagName, e, fields, head, rest);
      head + rest
  }

  /** Every field passes its tag. */
  predicate AllFieldsPass(tagName: string, e: EssentialAttributes, fields: seq<Field>)
  {
    forall i | 0 <= i < |fields| :: TagHolds(EssentialTag(tagName, fields[i]), EssentialValue(e, fields[i]))
  }

  /** Each reported field is one of the fields and fails the entry reported. */
  predicate OverSound(tagName: string, e: EssentialAttributes, fields: seq<Field>, r: seq<Violation>)
  {
    forall v | v in r ::
      v.field in fields && v.failed in EssentialTag(tagName, v.field)
      && !AnyHolds(v.failed, EssentialValue(e, v.field))
  }

  /** Each field failing its tag is reported. */
  predicate OverComplete(tagName: string, e: EssentialAttributes, fields: seq<Field>, r: seq<Violation>)
  {
    forall i | 0 <= i < |fields| && !TagHolds(EssentialTag(tagName, fields[i]), EssentialValue(e, fields[i])) ::
      exists v | v in r :: v.field == fields[i]
  }

  /** Adding the first field's report to the report on the other fields. */
  lemma OverStep(tagName: string, e: EssentialAttributes, fields: seq<Field>, head: seq<Violation>, rest: seq<Violation>)
    requires fields != []
    requires head == FieldViolations(fields[0], EssentialValue(e, fields[0]), EssentialTag(tagName, fields[0]))
    requires rest == [] <==> AllFieldsPass(tagName, e, fields[1..])
    requires OverSound(tagName, e, fields[1..], rest) && OverComplete(tagName, e, fields[1..], rest)
    ensures head + rest == [] <==> AllFieldsPass(tagName, e, fields)
    ensures OverSound(tagName, e, fields, head + rest) && OverComplete(tagName, e, fields, head + rest)
  {
    OverStepPass(tagName, e, fields);
    OverStepSound(tagName, e, fields, head, rest);
    OverStepComplete(tagName, e, fields, head, rest);
  }

  /** The first field and the rest pass exactly when all fields pass. */
  lemma OverStepPass(tagName: string, e: EssentialAttributes, fields: seq<Field>)
    requires fields != []
    ensures AllFieldsPass(tagName, e, fields) <==>
      TagHolds(EssentialTag(tagName, fields[0]), EssentialValue(e, fields[0])) && AllFieldsPass(tagName, e, fields[1..])
  {
    assert forall i | 1 <= i < |fields| :: fields[i] == fields[1..][i - 1];
  }

  /** The first field's report and a sound report on the rest make a sound report. */
  lemma OverStepSound(tagName: string, e: EssentialAttributes, fields: seq<Field>, head: seq<Violation>, rest: seq<Violation>)
    requires fields != []
    requires head == FieldViolations(fields[0], EssentialValue(e, fields[0]), EssentialTag(tagName, fields[0]))
    requires OverSound(tagName, e, fields[1..], rest)
    ensures OverSound(tagName, e, fields, head + rest)
  {
    forall v | v in head + rest
      ensures v.field in fields && v.failed in EssentialTag(tagName, v.field)
      && !AnyHolds(v.failed, EssentialValue(e, v.field))
    {
      if v in rest {
        assert v.field in fields[1..];
      }
    }
  }

  /** The first field's report and a complete report on the rest make a complete report. */
  lemma OverStepComplete(tagName: string, e: EssentialAttributes, fields: seq<Field>, head: seq<Violation>, rest: seq<Violation>)
    requires fields != []
    requires head == FieldViolations(fields[0], EssentialValue(e, fields[0]), EssentialTag(tagName, fields[0]))
    requires OverComplete(tagName, e, fields[1..], rest)
    ensures OverComplete(tagName, e, fields, head + rest)
  {
    forall i | 0 <= i < |fields| && !TagHolds(EssentialTag(tagName, fields[i]), EssentialValue(e, fields[i]))
      ensures exists v | v in head + rest :: v.field == fields[i]
    {
      if i == 0 {
        assert head[0] in head + rest;
      } else {
        assert fields[i] == fields[1..][i - 1];
        var v :| v in rest && v.field == fields[1..][i - 1];
        assert v in head + rest;
      }
    }
  }

  /** One validation of the essential attributes under a tag name. */
  function EssentialViolations(tagName: string, e: EssentialAttributes): (r: seq<Violation>)
    ensures r == [] <==> forall f | f in EssentialFields :: TagHolds(EssentialTag(tagName, f), EssentialValue(e, f))
    ensures forall v | v in r ::
      v.field in EssentialFields && v.failed in EssentialTag(tagName, v.field)
      && !AnyHolds(v.failed, EssentialValue(e, v.field))
  {
    ViolationsOver(tagName, e, EssentialFields)
  }

  /** Under a tag name other than "validate" only the bank id, the BIC and
      the IBAN carry tags; under an unsupported country code none does. */
  lemma CountryTagsOnly(tagName: string, f: Field)
    requires tagName != GenericTagName
    ensures f !in {BankID, Bic, Iban} ==> EssentialTag(tagName, f) == []
    ensures Countries.Country(tagName) !in Countries.Supported ==> EssentialTag(tagName, f) == []
  {
    if Countries.Country(tagName) !in Countries.Supported {
      assert tagName !in {"GB", "AU", "BE", "CA", "FR", "DE", "GR", "HK", "IT", "LU", "NL", "PL", "PT", "ES", "CH", "US"};
    }
  }

  /** Under "validate" only the id, the organisation id and the country carry tags. */
  lemma GenericTagsOnly(f: Field)
    ensures f !in {ID, OrganizationID, Country} ==> EssentialTag(GenericTagName, f) == []
  {
    assert BankIDTag(GenericTagName) == [] && BicTag(GenericTagName) == [] && IbanTag(GenericTagName) == [];
  }

  /** The country pass: the tags named by the account's own country code.
      For any code other than "validate" it can only report the bank id, the
      BIC and the IBAN; for a code that is not supported it reports nothing. */
  function CountryViolations(e: EssentialAttributes): (r: seq<Violation>)
    ensures e.country != GenericTagName ==> forall v | v in r :: v.field in {BankID, Bic, Iban}
    ensures e.country != GenericTagName && Countries.Country(e.country) !in Countries.Supported ==> r == []
  {
    var r := EssentialViolations(e.country, e);
    if e.country == GenericTagName then r
    else
      assert forall v | v in r :: v.field in {BankID, Bic, Iban} by {
        forall v | v in r ensures v.field in {BankID, Bic, Iban} {
          CountryTagsOnly(e.country, v.field);
        }
      }
      assert Countries.Country(e.country) !in Countries.Supported ==> r == [] by {
        if Countries.Country(e.country) !in Countries.Supported {
          forall f | f in EssentialFields ensures EssentialTag(e.country, f) == [] {
            CountryTagsOnly(e.country, f);
          }
        }
      }
      r
  }

  /** The generic pass over the essential attributes: the `validate` tags,
      which concern the id, the organisation id and the country only. */
  function GenericViolations(e: EssentialAttributes): (r: seq<Violation>)
    ensures forall v | v in r :: v.field in {ID, OrganizationID, Country}
  {
    var r := EssentialViolations(GenericTagName, e);
    assert forall v | v in r :: v.field in {ID, OrganizationID, Country} by {
      forall v | v in r ensures v.field in {ID, OrganizationID, Country} {
        GenericTagsOnly(v.field);
      }
    }
    r
  }

  // ---------------------------------------------------------------------------
  // The reference profile of each country

  /** The lengths a field may have: any, or one of a set. */
  datatype LengthRule = AnyLength | LengthIn(lengths: set<nat>)

  predicate Permits(rule: LengthRule, s: string)
  {
    rule.AnyLength? || |s| in rule.lengths
  }

  /** The country-specific constraints on the bank id, the BIC and the IBAN. */
  datatype Profile = Profile(bankID: LengthRule, bic: LengthRule, iban: LengthRule)

  const BicEightOrEleven := LengthIn({8, 11})
  const Empty := LengthIn({0})

  /** The profile of each supported country, and none for any other code. */
  function ProfileFor(country: Countries.Country): (r: Option<Profile>)
    ensures r.Some? <==> country in Countries.Supported
  {
    match country.code
    case "GB" => Some(Profile(LengthIn({6}), BicEightOrEleven, AnyLength))
    case "AU" => Some(Profile(AnyLength, BicEightOrEleven, Empty))
    case "BE" => Some(Profile(LengthIn({3}), AnyLength, AnyLength))
    case "CA" => Some(Profile(AnyLength, BicEightOrEleven, Empty))
    case "FR" => Some(Profile(LengthIn({10}), AnyLength, AnyLength))
    case "DE" => Some(Profile(LengthIn({8}), AnyLength, AnyLength))
    case "GR" => Some(Profile(LengthIn({7}), AnyLength, AnyLength))
    case "HK" => Some(Profile(AnyLength, BicEightOrEleven, Empty))
    case "IT" => Some(Profile(LengthIn({10, 11}), AnyLength, AnyLength))
    case "LU" => Some(Profile(LengthIn({3}), AnyLength, AnyLength))
    case "NL" => Some(Profile(Empty, BicEightOrEleven, AnyLength))
    case "PL" => Some(Profile(LengthIn({8}), AnyLength, AnyLength))
    case "PT" => Some(Profile(LengthIn({8}), AnyLength, AnyLength))
    case "ES" => Some(Profile(LengthIn({8}), AnyLength, AnyLength))
    case "CH" => Some(Profile(LengthIn({5}), AnyLength, AnyLength))
    case "US" => Some(Profile(LengthIn({9}), BicEightOrEleven, Empty))
    case _ => None
  }

  predicate ProfileAccepts(p: Profile, e: EssentialAttributes)
  {
    Permits(p.bankID, e.bankID) && Permits(p.bic, e.bic) && Permits(p.iban, e.iban)
  }

  // ---------------------------------------------------------------------------
  // What the tags mean

  /** A tag of one entry holds exactly when the entry does. */
  lemma SingleEntry(alternatives: Alternatives, s: string)
    ensures TagHolds([alternatives], s) <==> AnyHolds(alternatives, s)
  {
    assert [alternatives][0] == alternatives;
  }

  /** An `eq` list holds exactly for the values it lists. */
  lemma {:induction false} EqAnyHolds(values: seq<string>, s: string)
    ensures AnyHolds(EqAny(values), s) <==> s in values
  {
    var alternatives := EqAny(values);
    if s in values {
      var i :| 0 <= i < |values| && values[i] == s;
      assert Holds(alternatives[i], s);
    }
  }

  /** `uuid,required` holds exactly for UUIDs. */
  lemma UuidTagHolds(s: string)
    ensures TagHolds(UuidTag, s) <==> IsUuid(s)
  {
    assert UuidTag[0] == [Uuid] && UuidTag[1] == [Required];
    assert [Uuid][0] == Uuid && [Required][0] == Required;
    if IsUuid(s) {
      assert AnyHolds(UuidTag[0], s) && AnyHolds(UuidTag[1], s);
    }
  }

  /** The country field's tag holds exactly for the supported codes. */
  lemma CountryTagHolds(s: string)
    ensures TagHolds(CountryTag, s) <==> Countries.Country(s) in Countries.Supported
  {
    SingleEntry(EqAny(CountryTagCodes), s);
    EqAnyHolds(CountryTagCodes, s);
  }

  /** `len=n` as a condition on the length. */
  lemma LenEntry(n: nat, s: string)
    ensures TagHolds([[Len(n)]], s) <==> |s| == n
  {
    assert [[Len(n)]][0] == [Len(n)] && [Len(n)][0] == Len(n);
  }

  /** `len=a|len=b` as a condition on the length. */
  lemma LenPairEntry(a: nat, b: nat, s: string)
    ensures TagHolds([[Len(a), Len(b)]], s) <==> |s| == a || |s| == b
  {
    assert [[Len(a), Len(b)]][0] == [Len(a), Len(b)];
    assert [Len(a), Len(b)][0] == Len(a) && [Len(a), Len(b)][1] == Len(b);
  }

  /** A field without a tag always passes. */
  lemma NoEntry(s: string)
    ensures TagHolds([], s)
  {
  }

  /** The bank id tag of a supported country says what its profile says. */
  lemma BankIDRuleMatchesProfile(c: string, s: string)
    requires Countries.Country(c) in Countries.Supported
    ensures TagHolds(BankIDTag(c), s) <==> Permits(ProfileFor(Countries.Country(c)).value.bankID, s)
  {
    if c in {"AU", "CA", "HK"} {
      BankIDRuleAnyLength(c, s);
    } else if c == "IT" {
      BankIDRuleTwoLengths(c, s);
    } else if c in {"GB", "BE", "GR", "LU", "NL", "CH"} {
      BankIDRuleShortLength(c, s);
    } else {
      BankIDRuleLongLength(c, s);
    }
  }

  /** Australia, Canada and Hong Kong put no rule on the bank id. */
  lemma BankIDRuleAnyLength(c: string, s: string)
    requires c in {"AU", "CA", "HK"}
    ensures TagHolds(BankIDTag(c), s) <==> Permits(ProfileFor(Countries.Country(c)).value.bankID, s)
  {
    NoEntry(s);
  }

  /** Italy accepts a bank id of 10 or 11 characters. */
  lemma BankIDRuleTwoLengths(c: string, s: string)
    requires c == "IT"
    ensures TagHolds(BankIDTag(c), s) <==> Permits(ProfileFor(Countries.Country(c)).value.bankID, s)
  {
    LenPairEntry(10, 11, s);
  }

  /** The countries whose bank id has one fixed length of at most 7
      characters; the Netherlands' is 0, so it must be empty. */
  lemma BankIDRuleShortLength(c: string, s: string)
    requires c in {"GB", "BE", "GR", "LU", "NL", "CH"}
    ensures TagHolds(BankIDTag(c), s) <==> Permits(ProfileFor(Countries.Country(c)).value.bankID, s)
  {
    if c == "GB" {
      LenEntry(6, s);
    } else if c == "BE" || c == "LU" {
      LenEntry(3, s);
    } else if c == "GR" {
      LenEntry(7, s);
    } else if c == "NL" {
      LenEntry(0, s);
    } else {
      assert c == "CH";
      LenEntry(5, s);
    }
  }

  /** The countries whose bank id has one fixed length of 8 or more characters. */
  lemma BankIDRuleLongLength(c: string, s: string)
    requires c in {"FR", "DE", "PL", "PT", "ES", "US"}
    ensures TagHolds(BankIDTag(c), s) <==> Permits(ProfileFor(Countries.Country(c)).value.bankID, s)
  {
    if c == "FR" {
      LenEntry(10, s);
    } else if c == "US" {
      LenEntry(9, s);
    } else {
      LenEntry(8, s);
    }
  }

  /** The BIC tag of a supported country says what its profile says. */
  lemma BicRuleMatchesProfile(c: string, s: string)
    requires Countries.Country(c) in Countries.Supported
    ensures TagHolds(BicTag(c), s) <==> Permits(ProfileFor(Countries.Country(c)).value.bic, s)
  {
    if c in {"GB", "AU", "CA", "HK", "NL", "US"} {
      BicRuleEightOrEleven(c, s);
    } else {
      BicRuleAnyLength(c, s);
    }
  }

  /** The UK, Australia, Canada, Hong Kong, the Netherlands and the US
      require a BIC of 8 or 11 characters. */
  lemma BicRuleEightOrEleven(c: string, s: string)
    requires c in {"GB", "AU", "CA", "HK", "NL", "US"}
    ensures TagHolds(BicTag(c), s) <==> Permits(ProfileFor(Countries.Country(c)).value.bic, s)
  {
    LenPairEntry(8, 11, s);
  }

  /** The other supported countries put no rule on the BIC. */
  lemma BicRuleAnyLength(c: string, s: string)
    requires c in {"BE", "FR", "DE", "GR", "IT", "LU", "PL", "PT", "ES", "CH"}
    ensures TagHolds(BicTag(c), s) <==> Permits(ProfileFor(Countries.Country(c)).value.bic, s)
  {
    NoEntry(s);
  }

  /** The IBAN tag of a supported country says what its profile says. */
  lemma IbanRuleMatchesProfile(c: string, s: string)
    requires Countries.Country(c) in Countries.Supported
    ensures TagHolds(IbanTag(c), s) <==> Permits(ProfileFor(Countries.Country(c)).value.iban, s)
  {
    if c in {"AU", "CA", "HK", "US"} {
      IbanRuleEmpty(c, s);
    } else {
      IbanRuleAnyLength(c, s);
    }
  }

  /** Australia, Canada, Hong Kong and the US require the IBAN to be empty. */
  lemma IbanRuleEmpty(c: string, s: string)
    requires c in {"AU", "CA", "HK", "US"}
    ensures TagHolds(IbanTag(c), s) <==> Permits(ProfileFor(Countries.Country(c)).value.iban, s)
  {
    LenEntry(0, s);
  }

  /** The other supported countries put no rule on the IBAN. */
  lemma IbanRuleAnyLength(c: string, s: string)
    requires c in {"GB", "BE", "FR", "DE", "GR", "IT", "LU", "NL", "PL", "PT", "ES", "CH"}
    ensures TagHolds(IbanTag(c), s) <==> Permits(ProfileFor(Countries.Country(c)).value.iban, s)
  {
    NoEntry(s);
  }

  /** The bank id, BIC and IBAN tags of a supported country say what its
      profile says. */
  lemma CountryTagsMatchProfile(e: EssentialAttributes)
    requires Countries.Country(e.country) in Countries.Supported
    ensures var p := ProfileFor(Countries.Country(e.country)).value;
      && (TagHolds(BankIDTag(e.country), e.bankID) <==> Permits(p.bankID, e.bankID))
      && (TagHolds(BicTag(e.country), e.bic) <==> Permits(p.bic, e.bic))
      && (TagHolds(IbanTag(e.country), e.iban) <==> Permits(p.iban, e.iban))
  {
    BankIDRuleMatchesProfile(e.country, e.bankID);
    BicRuleMatchesProfile(e.country, e.bic);
    IbanRuleMatchesProfile(e.country, e.iban);
  }

  /** The country pass of a supported country accepts exactly what the
      country's profile permits. */
  lemma CountryPassMatchesProfile(e: EssentialAttributes)
    requires Countries.Country(e.country) in Countries.Supported
    ensures CountryViolations(e) == [] <==> ProfileAccepts(ProfileFor(Countries.Country(e.country)).value, e)
  {
    CountryTagsMatchProfile(e);
    assert e.country != GenericTagName;
    forall f | f in EssentialFields && f !in {BankID, Bic, Iban} ensures EssentialTag(e.country, f) == [] {
      CountryTagsOnly(e.country, f);
    }
    assert EssentialFields[4] == BankID && EssentialFields[5] == Bic && EssentialFields[6] == Iban;
  }

  /** The generic pass accepts exactly two UUIDs and a supported country. */
  lemma GenericPassMeaning(e: EssentialAttributes)
    ensures GenericViolations(e) == [] <==>
      IsUuid(e.id) && IsUuid(e.organizationID) && Countries.Country(e.country) in Countries.Supported
  {
    UuidTagHolds(e.id);
    UuidTagHolds(e.organizationID);
    CountryTagHolds(e.country);
    forall f | f in EssentialFields ensures f !in {ID, OrganizationID, Country} ==> EssentialTag(GenericTagName, f) == [] {
      GenericTagsOnly(f);
    }
    assert EssentialFields[0] == ID && EssentialFields[1] == OrganizationID && EssentialFields[2] == Country;
  }

  // ---------------------------------------------------------------------------
  // The optional pass

  /** At most this many alternative bank account names. */
  const MaxAltNames: nat := 3

  /** The tags of the optional attributes; an alternative name is checked
      against the entry after `dive`. */
  function OptionalTag(field: Field): (r: Tag)
    ensures r != [] ==> |r| == 1 && (field == AccountClassification || (|r[0]| == 1 && r[0][0].Max?))
  {
    match field
    case Title => [[Max(40)]]
    case FirstName => [[Max(40)]]
    case BankAccountName => [[Max(140)]]
    case AltBankAccountName(_) => [[Max(140)]]
    case AccountClassification => [[Eq("Personal"), Eq("Business")]]
    case SecondaryIdentification => [[Max(140)]]
    case _ => []
  }

  /** `dive,max=140` over the names from a position on: every name longer
      than 140 characters is reported by its position, and nothing else. */
  function DiveViolations(names: seq<string>, from: nat): (r: seq<Violation>)
    requires from <= |names|
    decreases |names| - from
    ensures r == [] <==> forall k | from <= k < |names| :: |names[k]| <= 140
    ensures DiveSound(names, from, r) && DiveComplete(names, from, r)
  {
    if from == |names| then []
    else
      var head := FieldViolations(AltBankAccountName(from), names[from], OptionalTag(AltBankAccountName(from)));
      var rest := DiveViolations(names, from + 1);
      DiveStep(names, from, head, rest);
      head + rest
  }

  /** Each reported name is longer than 140 characters. */
  predicate DiveSound(names: seq<string>, from: nat, r: seq<Violation>)
  {
    forall v | v in r ::
      v.field.AltBankAccountName? && from <= v.field.index < |names|
      && |names[v.field.index]| > 140 && v.failed == [Max(140)]
  }

  /** Each name longer than 140 characters is reported. */
  predicate DiveComplete(names: seq<string>, from: nat, r: seq<Violation>)
  {
    forall k | from <= k < |names| && |names[k]| > 140 :: Violation(AltBankAccountName(k), [Max(140)]) in r
  }

  /** Adding the name at a position to the report on the names after it. */
  lemma DiveStep(names: seq<string>, from: nat, head: seq<Violation>, rest: seq<Violation>)
    requires from < |names|
    requires head == FieldViolations(AltBankAccountName(from), names[from], OptionalTag(AltBankAccountName(from)))
    requires rest == [] <==> forall k | from + 1 <= k < |names| :: |names[k]| <= 140
    requires DiveSound(names, from + 1, rest) && DiveComplete(names, from + 1, rest)
    ensures head + rest == [] <==> forall k | from <= k < |names| :: |names[k]| <= 140
    ensures DiveSound(names, from, head + rest) && DiveComplete(names, from, head + rest)
  {
    MaxEntry(140, names[from]);
    assert OptionalTag(AltBankAccountName(from)) == [[Max(140)]];
    assert |names[from]| > 140 ==> head == [Violation(AltBankAccountName(from), [Max(140)])];
    assert |names[from]| <= 140 ==> head == [];
  }

  /** Every alternative name is at most 140 characters long. */
  predicate NamesWithinLimit(names: seq<string>)
  {
    forall k | 0 <= k < |names| :: |names[k]| <= 140
  }

  /** `max=3,dive,max=140`: a list of more than three names is reported as a
      whole and its names are not looked at; otherwise each name is checked. */
  function AltNameViolations(names: seq<string>): (r: seq<Violation>)
    ensures r == [] <==> |names| <= MaxAltNames && NamesWithinLimit(names)
    ensures |names| > MaxAltNames ==> r == [Violation(AltBankAccountNames, [Max(MaxAltNames)])]
    ensures |names| <= MaxAltNames ==> forall v | v in r ::
      v.field.AltBankAccountName? && v.field.index < |names| && |names[v.field.index]| > 140
    ensures |names| <= MaxAltNames ==> forall k | 0 <= k < |names| && |names[k]| > 140 ::
      Violation(AltBankAccountName(k), [Max(140)]) in r
  {
    if |names| > MaxAltNames then [Violation(AltBankAccountNames, [Max(MaxAltNames)])]
    else DiveViolations(names, 0)
  }

  /** `max=n` as a condition on the length. */
  lemma MaxEntry(n: nat, s: string)
    ensures TagHolds([[Max(n)]], s) <==> |s| <= n
  {
    assert [[Max(n)]][0] == [Max(n)] && [Max(n)][0] == Max(n);
  }

  /** `eq=Personal|eq=Business` */
  lemma ClassificationEntry(s: string)
    ensures TagHolds(OptionalTag(AccountClassification), s) <==> s in {"Personal", "Business"}
  {
    var entry := [Eq("Personal"), Eq("Business")];
    assert OptionalTag(AccountClassification) == [entry];
    SingleEntry(entry, s);
    if s == "Personal" {
      assert Holds(entry[0], s);
    } else if s == "Business" {
      assert Holds(entry[1], s);
    }
  }

  /** The limits the optional attributes must respect. */
  predicate OptionalAcceptable(o: OptionalAttributes)
  {
    && |o.title| <= 40
    && |o.firstName| <= 40
    && |o.bankAccountName| <= 140
    && |o.altBankAccountNames| <= MaxAltNames
    && NamesWithinLimit(o.altBankAccountNames)
    && o.accountClassification in {"Personal", "Business"}
    && |o.secondaryIdentification| <= 140
  }

  /** The optional fields break the limit a violation reports. */
  predicate OptionalJustified(v: Violation, o: OptionalAttributes)
  {
    match v.field
    case Title => |o.title| > 40
    case FirstName => |o.firstName| > 40
    case BankAccountName => |o.bankAccountName| > 140
    case AltBankAccountNames => |o.altBankAccountNames| > MaxAltNames
    case AltBankAccountName(k) => k < |o.altBankAccountNames| && |o.altBankAccountNames[k]| > 140
    case AccountClassification => o.accountClassification !in {"Personal", "Business"}
    case SecondaryIdentification => |o.secondaryIdentification| > 140
    case _ => false
  }

  /** A text field against its `max` limit: reported exactly when it is
      longer than the limit. */
  function LimitViolations(field: Field, value: string, limit: nat): (r: seq<Violation>)
    requires OptionalTag(field) == [[Max(limit)]]
    ensures r == [] <==> |value| <= limit
    ensures forall v | v in r :: v.field == field && |value| > limit
    ensures |value| > limit ==> r == [Violation(field, [Max(limit)])]
  {
    MaxEntry(limit, value);
    FieldViolations(field, value, OptionalTag(field))
  }

  /** Every violation of the list is justified. */
  predicate AllJustified(vs: seq<Violation>, o: OptionalAttributes)
  {
    forall v | v in vs :: OptionalJustified(v, o)
  }

  lemma AllJustifiedConcat(a: seq<Violation>, b: seq<Violation>, o: OptionalAttributes)
    ensures AllJustified(a + b, o) <==> AllJustified(a, o) && AllJustified(b, o)
  {
    assert forall v | v in a + b :: v in a || v in b;
  }

  /** Each of the title, first name and account name that is over its
      limit is reported. */
  predicate NamesComplete(o: OptionalAttributes, r: seq<Violation>)
  {
    && (|o.title| > 40 ==> Violation(Title, [Max(40)]) in r)
    && (|o.firstName| > 40 ==> Violation(FirstName, [Max(40)]) in r)
    && (|o.bankAccountName| > 140 ==> Violation(BankAccountName, [Max(140)]) in r)
  }

  /** Too many alternative names, each over-long name of an allowed list, a
      classification that is neither value and an over-long secondary
      identification are each reported. */
  predicate OthersComplete(o: OptionalAttributes, r: seq<Violation>)
  {
    var names := o.altBankAccountNames;
    && (|names| > MaxAltNames ==> Violation(AltBankAccountNames, [Max(MaxAltNames)]) in r)
    && (|names| <= MaxAltNames ==> forall k | 0 <= k < |names| && |names[k]| > 140 ::
         Violation(AltBankAccountName(k), [Max(140)]) in r)
    && (o.accountClassification !in {"Personal", "Business"} ==>
         Violation(AccountClassification, [Eq("Personal"), Eq("Business")]) in r)
    && (|o.secondaryIdentification| > 140 ==> Violation(SecondaryIdentification, [Max(140)]) in r)
  }

  /** Every optional field that breaks its rule is reported. */
  predicate OptionalComplete(o: OptionalAttributes, r: seq<Violation>)
  {
    NamesComplete(o, r) && OthersComplete(o, r)
  }

  /** The title, first name and account name against their limits. */
  function NameViolations(o: OptionalAttributes): (r: seq<Violation>)
    ensures r == [] <==> |o.title| <= 40 && |o.firstName| <= 40 && |o.bankAccountName| <= 140
    ensures AllJustified(r, o)
    ensures NamesComplete(o, r)
  {
    var title := LimitViolations(Title, o.title, 40);
    var firstName := LimitViolations(FirstName, o.firstName, 40);
    var accountName := LimitViolations(BankAccountName, o.bankAccountName, 140);
    assert AllJustified(title, o) && AllJustified(firstName, o) && AllJustified(accountName, o);
    AllJustifiedConcat(title, firstName, o);
    AllJustifiedConcat(title + firstName, accountName, o);
    title + firstName + accountName
  }

  /** The alternative names, the classification and the secondary
      identification against their rules. */
  function OtherOptionalViolations(o: OptionalAttributes): (r: seq<Violation>)
    ensures r == [] <==>
      && |o.altBankAccountNames| <= MaxAltNames && NamesWithinLimit(o.altBankAccountNames)
      && o.accountClassification in {"Personal", "Business"}
      && |o.secondaryIdentification| <= 140
    ensures AllJustified(r, o)
    ensures OthersComplete(o, r)
  {
    var altNames := AltNameViolations(o.altBankAccountNames);
    var classification := FieldViolations(AccountClassification, o.accountClassification, OptionalTag(AccountClassification));
    var secondary := LimitViolations(SecondaryIdentification, o.secondaryIdentification, 140);
    AltNamesJustified(o);
    ClassificationJustified(o);
    AllJustifiedConcat(altNames, classification, o);
    AllJustifiedConcat(altNames + classification, secondary, o);
    altNames + classification + secondary
  }

  /** Every violation of the alternative names breaks a limit. */
  lemma AltNamesJustified(o: OptionalAttributes)
    ensures AllJustified(AltNameViolations(o.altBankAccountNames), o)
  {
    var names := o.altBankAccountNames;
    if |names| <= MaxAltNames {
      var r := DiveViolations(names, 0);
      assert AltNameViolations(names) == r;
      forall v | v in r ensures OptionalJustified(v, o) {
        assert v.field.AltBankAccountName? && v.field.index < |names| && |names[v.field.index]| > 140;
      }
    }
  }

  /** The classification is reported exactly when it is neither "Personal" nor "Business". */
  lemma ClassificationJustified(o: OptionalAttributes)
    ensures var r := FieldViolations(AccountClassification, o.accountClassification, OptionalTag(AccountClassification));
      && (r == [] <==> o.accountClassification in {"Personal", "Business"}) && AllJustified(r, o)
      && (o.accountClassification !in {"Personal", "Business"} ==>
           r == [Violation(AccountClassification, [Eq("Personal"), Eq("Business")])])
  {
    ClassificationEntry(o.accountClassification);
  }

  /** The optional pass: the `validate` tags of the optional attributes, in
      declaration order. The version, account number, customer id, base
      currency and the two flags are not checked. */
  function OptionalViolations(o: OptionalAttributes): (r: seq<Violation>)
    ensures r == [] <==> OptionalAcceptable(o)
    ensures forall v | v in r :: OptionalJustified(v, o)
    ensures OptionalComplete(o, r)
  {
    var names := NameViolations(o);
    var others := OtherOptionalViolations(o);
    AllJustifiedConcat(names, others, o);
    names + others
  }

  // ---------------------------------------------------------------------------
  // Validate

  /** The attributes a new builder for a country starts from. */
  function NewEssential(country: Countries.Country): EssentialAttributes
  {
    EssentialAttributes("", "", country.Code(), country.BankIDCode(), "", "", "")
  }

  /** A new builder's optional attributes: the classification defaults to
      Personal, everything else is empty, zero or false. */
  const NewOptional: OptionalAttributes :=
    OptionalAttributes(0, "", "", "", "", "", "", [], "Personal", "", false, false)

  /** The essential attributes a builder cast from an account starts from. */
  function EssentialOf(a: Account): EssentialAttributes
  {
    EssentialAttributes(a.ID(), a.OrganizationID(), a.Country(), a.BankIDCode(), a.BankID(), a.Bic(), a.Iban())
  }

  /** The optional attributes a builder cast from an account starts from. */
  function OptionalOf(a: Account): OptionalAttributes
  {
    OptionalAttributes(
      a.Version(), a.AccountNumber(), a.BaseCurrency(), a.CustomerID(), a.Title(), a.FirstName(),
      a.BankAccountName(), a.AltBankAccountNames(), a.AccountClassification(),
      a.SecondaryIdentification(), a.IsJointAccount(), a.IsAccountMatchingOptOut())
  }

  /** The account a successful validation returns: every builder field as
      it is, the version from the version index, and no time stamps. Casting
      it back to builder attributes gives the same attributes. */
  function AccountOf(e: EssentialAttributes, o: OptionalAttributes): (r: Account)
    ensures EssentialOf(r) == e && OptionalOf(r) == o
    ensures r.CreatedOn() == Zero && r.ModifiedOn() == Zero
  {
    Account(
      e.id, o.versionIndex, Zero, Zero, e.organizationID, e.country, o.baseCurrency,
      e.bankID, e.bankIDCode, o.accountNumber, e.bic, e.iban, o.customerID, o.title, o.firstName,
      o.bankAccountName, o.altBankAccountNames, o.accountClassification, o.jointAccount,
      o.accountMatchingOptOut, o.secondaryIdentification)
  }

  /** What validation yields: an account, or the violations of the first
      pass that failed. */
  datatype Outcome = Built(account: Account) | Rejected(violations: seq<Violation>)

  /** The attributes make a legal account: a supported country whose profile
      the bank id, BIC and IBAN respect, two UUIDs, and optional attributes
      within their limits. */
  predicate Acceptable(e: EssentialAttributes, o: OptionalAttributes)
  {
    match ProfileFor(Countries.Country(e.country))
    case None => false
    case Some(p) => ProfileAccepts(p, e) && IsUuid(e.id) && IsUuid(e.organizationID) && OptionalAcceptable(o)
  }

  /** A reported violation names a field that really breaks its rule. */
  predicate Justified(v: Violation, e: EssentialAttributes, o: OptionalAttributes)
  {
    var profile := ProfileFor(Countries.Country(e.country));
    match v.field
    case ID => !IsUuid(e.id)
    case OrganizationID => !IsUuid(e.organizationID)
    case Country => Countries.Country(e.country) !in Countries.Supported
    case BankIDCode => false
    case BankID => profile.Some? && !Permits(profile.value.bankID, e.bankID)
    case Bic => profile.Some? && !Permits(profile.value.bic, e.bic)
    case Iban => profile.Some? && !Permits(profile.value.iban, e.iban)
    case _ => OptionalJustified(v, o)
  }

  /** The country pass either matches the profile or there is no profile. */
  lemma CountryPassOfSupported(e: EssentialAttributes)
    ensures Countries.Country(e.country) in Countries.Supported ==>
      (CountryViolations(e) == [] <==> ProfileAccepts(ProfileFor(Countries.Country(e.country)).value, e))
  {
    if Countries.Country(e.country) in Countries.Supported {
      CountryPassMatchesProfile(e);
    }
  }

  /** Every violation of the country pass is justified. */
  lemma CountryViolationsJustified(e: EssentialAttributes, o: OptionalAttributes)
    ensures forall v | v in CountryViolations(e) :: Justified(v, e, o)
  {
    var r := CountryViolations(e);
    if e.country == GenericTagName {
      GenericViolationsJustified(e, o);
    } else if Countries.Country(e.country) in Countries.Supported {
      forall v | v in r ensures Justified(v, e, o) {
        assert v in EssentialViolations(e.country, e);
        CountryViolationJustified(e, o, v);
      }
    }
  }

  /** A violation of a supported country's own tags is justified. */
  lemma CountryViolationJustified(e: EssentialAttributes, o: OptionalAttributes, v: Violation)
    requires Countries.Country(e.country) in Countries.Supported && e.country != GenericTagName
    requires v.field in {BankID, Bic, Iban}
    requires v.failed in EssentialTag(e.country, v.field) && !AnyHolds(v.failed, EssentialValue(e, v.field))
    ensures Justified(v, e, o)
  {
    CountryTagsMatchProfile(e);
    var tag := EssentialTag(e.country, v.field);
    var k :| 0 <= k < |tag| && tag[k] == v.failed;
    assert !TagHolds(tag, EssentialValue(e, v.field));
  }

  /** Every violation of the generic pass is justified. */
  lemma GenericViolationsJustified(e: EssentialAttributes, o: OptionalAttributes)
    ensures forall v | v in GenericViolations(e) :: Justified(v, e, o)
  {
    UuidTagHolds(e.id);
    UuidTagHolds(e.organizationID);
    CountryTagHolds(e.country);
    forall v | v in GenericViolations(e) ensures Justified(v, e, o) {
      var tag := EssentialTag(GenericTagName, v.field);
      var k :| 0 <= k < |tag| && tag[k] == v.failed;
      assert !TagHolds(tag, EssentialValue(e, v.field));
    }
  }

  /** The outcome of `Validate` on a builder's attributes. The country pass
      runs first, then the generic pass, then the optional pass; the first
      that reports anything decides the outcome and the later ones are not
      run. An account is built exactly when the attributes are acceptable. */
  function Validate(e: EssentialAttributes, o: OptionalAttributes): (r: Outcome)
    ensures r.Built? <==> Acceptable(e, o)
    ensures r.Built? ==> r.account == AccountOf(e, o)
    ensures r.Rejected? ==> r.violations != [] && forall v | v in r.violations :: Justified(v, e, o)
    ensures r.Rejected? ==>
      || r.violations == CountryViolations(e)
      || (CountryViolations(e) == [] && r.violations == GenericViolations(e))
      || (CountryViolations(e) == [] && GenericViolations(e) == [] && r.violations == OptionalViolations(o))
  {
    GenericPassMeaning(e);
    CountryViolationsJustified(e, o);
    GenericViolationsJustified(e, o);
    CountryPassOfSupported(e);
    var country := CountryViolations(e);
    if country != [] then Rejected(country)
    else
      var generic := GenericViolations(e);
      if generic != [] then Rejected(generic)
      else
        var optional := OptionalViolations(o);
        if optional != [] then Rejected(optional)
        else Built(AccountOf(e, o))
  }

  // ---------------------------------------------------------------------------
  // Properties of Validate

  /** Casting a validated account back to builder attributes and validating
      again gives the same account. */
  lemma CastRoundTrip(e: EssentialAttributes, o: OptionalAttributes)
    requires Validate(e, o).Built?
    ensures var a := Validate(e, o).account;
      Validate(EssentialOf(a), OptionalOf(a)) == Built(a)
  {
  }

  /** Casting any account to builder attributes and building from them
      loses only its time stamps. */
  lemma CastThenBuild(a: Account)
    ensures AccountOf(EssentialOf(a), OptionalOf(a)) == a.(createdOn := Zero, modifiedOn := Zero)
  {
  }

  /** A field of the essential attributes that fails its tag is reported by
      the pass. */
  lemma FailingFieldReported(tagName: string, e: EssentialAttributes, i: nat)
    requires i < |EssentialFields|
    requires !TagHolds(EssentialTag(tagName, EssentialFields[i]), EssentialValue(e, EssentialFields[i]))
    ensures exists v | v in EssentialViolations(tagName, e) :: v.field == EssentialFields[i]
  {
    var r := ViolationsOver(tagName, e, EssentialFields);
    assert exists v | v in r :: v.field == EssentialFields[i];
  }

  /** The country tags of the UK. */
  lemma UnitedKingdomTags()
    ensures EssentialTag("GB", BankID) == [[Len(6)]]
    ensures EssentialTag("GB", Bic) == [[Len(8), Len(11)]]
    ensures EssentialTag("GB", Iban) == []
  {
  }

  /** The country pass of a UK account whose bank id is not six characters
      long and whose BIC is well formed reports the bank id alone. */
  lemma BadBankIDCountryPass(e: EssentialAttributes)
    requires e.country == "GB" && |e.bankID| != 6 && |e.bic| in {8, 11}
    ensures CountryViolations(e) != []
    ensures forall v | v in CountryViolations(e) :: v == Violation(BankID, [Len(6)])
  {
    LenEntry(6, e.bankID);
    FailingFieldReported(e.country, e, 4);
    BadBankIDOnly(e);
  }

  /** With a well-formed BIC, only the bank id of a UK account can be reported. */
  lemma BadBankIDOnly(e: EssentialAttributes)
    requires e.country == "GB" && |e.bic| in {8, 11}
    ensures forall v | v in EssentialViolations(e.country, e) :: v == Violation(BankID, [Len(6)])
  {
    forall v | v in EssentialViolations(e.country, e) ensures v == Violation(BankID, [Len(6)]) {
      UnitedKingdomViolation(e, v);
    }
  }

  /** A UK violation with a well-formed BIC is a bank id violation. */
  lemma UnitedKingdomViolation(e: EssentialAttributes, v: Violation)
    requires e.country == "GB" && |e.bic| in {8, 11}
    requires v.failed in EssentialTag(e.country, v.field) && !AnyHolds(v.failed, EssentialValue(e, v.field))
    ensures v == Violation(BankID, [Len(6)])
  {
    UnitedKingdomTags();
    CountryTagsOnly(e.country, v.field);
    if v.field == Bic {
      LenPairEntry(8, 11, e.bic);
      SingleEntry([Len(8), Len(11)], e.bic);
    }
  }

  /** A failing country pass hides the later passes: a UK account whose bank
      id is not six characters long is reported for its bank id alone,
      whatever its ids and optional attributes. */
  lemma BadBankIDReportedAlone(e: EssentialAttributes, o: OptionalAttributes)
    requires e.country == "GB" && |e.bankID| != 6 && |e.bic| in {8, 11}
    ensures Validate(e, o).Rejected?
    ensures forall v | v in Validate(e, o).violations :: v == Violation(BankID, [Len(6)])
  {
    BadBankIDCountryPass(e);
  }

  /** A UK builder's BIC starts empty: with a bank id that is not six
      characters long as well, both fields are reported together. */
  lemma BadBankIDAndEmptyBicReported(e: EssentialAttributes, o: OptionalAttributes)
    requires e.country == "GB" && |e.bankID| != 6 && e.bic == ""
    ensures Validate(e, o).Rejected?
    ensures exists v | v in Validate(e, o).violations :: v.field == BankID
    ensures exists v | v in Validate(e, o).violations :: v.field == Bic
  {
    LenEntry(6, e.bankID);
    FailingFieldReported(e.country, e, 4);
    EmptyBicRejected(e, o);
  }

  /** The UK, Australia, Canada, Hong Kong, the Netherlands and the US do
      not accept an empty BIC. */
  lemma EmptyBicRejected(e: EssentialAttributes, o: OptionalAttributes)
    requires e.country in {"GB", "AU", "CA", "HK", "NL", "US"} && e.bic == ""
    ensures Validate(e, o).Rejected?
    ensures exists v | v in Validate(e, o).violations :: v.field == Bic
  {
    LenPairEntry(8, 11, e.bic);
    FailingFieldReported(e.country, e, 5);
  }

  /** A code outside the supported set passes the country pass, which has no
      rules for it, and is rejected by the generic pass for its country field. */
  lemma UnsupportedCountryRejected(e: EssentialAttributes, o: OptionalAttributes)
    requires Countries.Country(e.country) !in Countries.Supported && e.country != GenericTagName
    ensures Validate(e, o).Rejected?
    ensures Validate(e, o).violations == GenericViolations(e)
    ensures exists v | v in Validate(e, o).violations :: v.field == Country
  {
    UnsupportedCountryReported(e);
  }

  /** The generic pass reports an unsupported country. */
  lemma UnsupportedCountryReported(e: EssentialAttributes)
    requires Countries.Country(e.country) !in Countries.Supported
    ensures exists v | v in GenericViolations(e) :: v.field == Country
  {
    CountryTagHolds(e.country);
    FailingFieldReported(GenericTagName, e, 2);
    assert GenericViolations(e) == EssentialViolations(GenericTagName, e);
  }

  /** A Belgian account with a three-character bank id, two UUIDs and
      acceptable optional attributes validates. */
  lemma BelgianAccountValidates(e: EssentialAttributes, o: OptionalAttributes)
    requires e.country == "BE" && |e.bankID| == 3 && IsUuid(e.id) && IsUuid(e.organizationID)
    requires OptionalAcceptable(o)
    ensures Validate(e, o).Built?
  {
    BelgianAcceptable(e, o);
  }

  /** The attributes of such a Belgian account are acceptable. */
  lemma BelgianAcceptable(e: EssentialAttributes, o: OptionalAttributes)
    requires e.country == "BE" && |e.bankID| == 3 && IsUuid(e.id) && IsUuid(e.organizationID)
    requires OptionalAcceptable(o)
    ensures Acceptable(e, o)
  {
    assert ProfileFor(Countries.Country(e.country)) == Some(Profile(LengthIn({3}), AnyLength, AnyLength));
  }

  /** A UK account with a six-character bank id, a BIC of 8 or 11
      characters, two UUIDs and acceptable optional attributes validates. */
  lemma UnitedKingdomAccountValidates(e: EssentialAttributes, o: OptionalAttributes)
    requires e.country == "GB" && |e.bankID| == 6 && |e.bic| in {8, 11} && IsUuid(e.id) && IsUuid(e.organizationID)
    requires OptionalAcceptable(o)
    ensures Validate(e, o).Built?
  {
    UnitedKingdomAcceptable(e, o);
  }

  /** The attributes of such a UK account are acceptable. */
  lemma UnitedKingdomAcceptable(e: EssentialAttributes, o: OptionalAttributes)
    requires e.country == "GB" && |e.bankID| == 6 && |e.bic| in {8, 11} && IsUuid(e.id) && IsUuid(e.organizationID)
    requires OptionalAcceptable(o)
    ensures Acceptable(e, o)
  {
    assert ProfileFor(Countries.Country(e.country)) == Some(Profile(LengthIn({6}), BicEightOrEleven, AnyLength));
  }

  /** The optional attributes of a new builder are acceptable. */
  lemma NewOptionalAcceptable()
    ensures OptionalAcceptable(NewOptional)
  {
  }

  /** A US account with an empty BIC and a non-empty IBAN is reported for
      both: within one pass every failing field is reported. */
  lemma UnitedStatesBicAndIbanRejected(e: EssentialAttributes, o: OptionalAttributes)
    requires e.country == "US" && e.bic == "" && e.iban != ""
    ensures Validate(e, o).Rejected?
    ensures exists v | v in Validate(e, o).violations :: v.field == Bic
    ensures exists v | v in Validate(e, o).violations :: v.field == Iban
  {
    EmptyBicRejected(e, o);
    NonEmptyIbanReported(e);
  }

  /** Australia, Canada, Hong Kong and the US report a non-empty IBAN. */
  lemma NonEmptyIbanReported(e: EssentialAttributes)
    requires e.country in {"AU", "CA", "HK", "US"} && e.iban != ""
    ensures exists v | v in CountryViolations(e) :: v.field == Iban
  {
    EmptyIbanRequired(e.country, e.iban);
    FailingFieldReported(e.country, e, 6);
    assert CountryViolations(e) == EssentialViolations(e.country, e);
  }

  /** The IBAN tag of Australia, Canada, Hong Kong and the US rejects a
      non-empty IBAN. */
  lemma EmptyIbanRequired(t: string, iban: string)
    requires t in {"AU", "CA", "HK", "US"} && iban != ""
    ensures !TagHolds(EssentialTag(t, EssentialFields[6]), iban)
  {
    assert EssentialFields[6] == Iban;
    assert IbanTag(t) == [[Len(0)]];
    LenEntry(0, iban);
  }

  /** A Belgian business account whose essential attributes are valid and
      whose first name has 41 characters is reported for the first name
      alone. */
  lemma FirstNameTooLongRejected(e: EssentialAttributes, o: OptionalAttributes)
    requires e.country == "BE" && |e.bankID| == 3 && IsUuid(e.id) && IsUuid(e.organizationID)
    requires o == NewOptional.(accountClassification := "Business", firstName := o.firstName) && |o.firstName| == 41
    ensures Validate(e, o).Rejected?
    ensures forall v | v in Validate(e, o).violations :: v.field == FirstName
  {
    BelgianPassesEssential(e);
    assert !OptionalAcceptable(o);
    forall v | v in OptionalViolations(o) ensures v.field == FirstName {
      assert OptionalJustified(v, o);
    }
  }

  /** Such a Belgian account passes the country and generic passes. */
  lemma BelgianPassesEssential(e: EssentialAttributes)
    requires e.country == "BE" && |e.bankID| == 3 && IsUuid(e.id) && IsUuid(e.organizationID)
    ensures CountryViolations(e) == [] && GenericViolations(e) == []
  {
    GenericPassMeaning(e);
    BelgianPassesCountry(e);
  }

  /** A Belgian account with a three-character bank id passes the country pass. */
  lemma BelgianPassesCountry(e: EssentialAttributes)
    requires e.country == "BE" && |e.bankID| == 3
    ensures CountryViolations(e) == []
  {
    assert ProfileFor(Countries.Country(e.country)) == Some(Profile(LengthIn({3}), AnyLength, AnyLength));
    CountryPassMatchesProfile(e);
  }

  // ---------------------------------------------------------------------------
  // Validate under the validator's tag cache

  /** `Validate` as the code behaves with a validator that parses the tags
      of a struct type once, under the tag name in force when it first
      validates a value of that type, and keeps them for its lifetime:
      renaming the tags afterwards does not clear them. A builder's essential
      attributes are first validated under the country code (builder.go:160-161),
      so the second validation of them (builder.go:164-165) applies the
      country's tags again and the "validate" tags are never read. The
      optional attributes are first validated under "validate". */
  function CachedValidate(e: EssentialAttributes, o: OptionalAttributes): (r: Outcome)
    ensures r.Built? <==> CountryViolations(e) == [] && OptionalAcceptable(o)
    ensures r.Built? ==> r.account == AccountOf(e, o)
    ensures r.Rejected? ==> r.violations == CountryViolations(e) || r.violations == OptionalViolations(o)
  {
    var parsedUnder := e.country;
    var country := EssentialViolations(parsedUnder, e);
    if country != [] then Rejected(country)
    else
      var generic := EssentialViolations(parsedUnder, e);
      if generic != [] then Rejected(generic)
      else
        var optional := OptionalViolations(o);
        if optional != [] then Rejected(optional)
        else Built(AccountOf(e, o))
  }

  /** Under the tag cache the identifiers are never checked: a UK account
      with a well-formed bank id and BIC whose id is not a UUID, such as "x",
      is built, where `Validate` rejects it for its id. */
  lemma CachedValidateSkipsIdCheck(e: EssentialAttributes, o: OptionalAttributes)
    requires e.country == "GB" && |e.bankID| == 6 && |e.bic| in {8, 11} && !IsUuid(e.id)
    requires OptionalAcceptable(o)
    ensures CachedValidate(e, o).Built?
    ensures Validate(e, o).Rejected?
    ensures exists v | v in Validate(e, o).violations :: v.field == ID
  {
    UnitedKingdomPassesCountry(e);
    UuidTagHolds(e.id);
    FailingFieldReported(GenericTagName, e, 0);
    assert GenericViolations(e) == EssentialViolations(GenericTagName, e);
  }

  /** A UK account with a well-formed bank id and BIC passes the country pass. */
  lemma UnitedKingdomPassesCountry(e: EssentialAttributes)
    requires e.country == "GB" && |e.bankID| == 6 && |e.bic| in {8, 11}
    ensures CountryViolations(e) == []
  {
    assert ProfileFor(Countries.Country(e.country)) == Some(Profile(LengthIn({6}), BicEightOrEleven, AnyLength));
    CountryPassMatchesProfile(e);
  }

  /** Under the tag cache an unsupported country code, such as "XX", is
      never rejected: its country pass has no rules, and neither has the
      repeated one. `Validate` rejects it. */
  lemma CachedValidateAcceptsUnsupportedCountry(e: EssentialAttributes, o: OptionalAttributes)
    requires Countries.Country(e.country) !in Countries.Supported && e.country != GenericTagName
    requires OptionalAcceptable(o)
    ensures CachedValidate(e, o).Built?
    ensures Validate(e, o).Rejected?
  {
  }
}
