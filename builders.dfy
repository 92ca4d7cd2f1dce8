/** The mutable account builder: it holds the essential and the optional
    attributes, its setters overwrite one attribute each without checking
    it, and Validate applies the three rule passes in order and makes an
    account only when all of them pass. */
module Builders {
  import Countries
  import opened Accounts
  import opened Validation

  class Builder {
    var essential: EssentialAttributes
    var optional: OptionalAttributes
    /** The tag name the builder's validator currently reads. */
    var tagName: string

    /** A builder over the given attributes, with a fresh validator, which
        reads the "validate" tags. */
    constructor(essential: EssentialAttributes, optional: OptionalAttributes)
      ensures this.essential == essential && this.optional == optional
      ensures tagName == GenericTagName
    {
      this.essential := essential;
      this.optional := optional;
      tagName := GenericTagName;
    }

    method SetID(id: string) returns (self: Builder)
      modifies this
      ensures self == this
      ensures essential == old(essential).(id := id)
      ensures optional == old(optional) && tagName == old(tagName)
    {
      essential := essential.(id := id);
      self := this;
    }

    method SetOrganizationID(id: string) returns (self: Builder)
      modifies this
      ensures self == this
      ensures essential == old(essential).(organizationID := id)
      ensures optional == old(optional) && tagName == old(tagName)
    {
      essential := essential.(organizationID := id);
      self := this;
    }

    method SetBankID(bankID: string) returns (self: Builder)
      modifies this
      ensures self == this
      ensures essential == old(essential).(bankID := bankID)
      ensures optional == old(optional) && tagName == old(tagName)
    {
      essential := essential.(bankID := bankID);
      self := this;
    }

    method SetBic(bic: string) returns (self: Builder)
      modifies this
      ensures self == this
      ensures essential == old(essential).(bic := bic)
      ensures optional == old(optional) && tagName == old(tagName)
    {
      essential := essential.(bic := bic);
      self := this;
    }

    method SetIban(iban: string) returns (self: Builder)
      modifies this
      ensures self == this
      ensures essential == old(essential).(iban := iban)
      ensures optional == old(optional) && tagName == old(tagName)
    {
      essential := essential.(iban := iban);
      self := this;
    }

    /** The three passes in order: the country's own tags, then the
        "validate" tags of the essential and of the optional attributes.
        The first pass that reports anything ends validation with its
        report; the attributes are never changed, and the validator is left
        reading the country's tags if the first pass failed and the
        "validate" tags otherwise. */
    method Validate() returns (r: Outcome)
      modifies this
      ensures r == Validation.Validate(essential, optional)
      ensures essential == old(essential) && optional == old(optional)
      ensures tagName == if CountryViolations(essential) != [] then essential.country else GenericTagName
    {
      tagName := essential.country;
      var errors := EssentialViolations(tagName, essential);
      if errors != [] {
        return Rejected(errors);
      }
      tagName := GenericTagName;
      errors := EssentialViolations(tagName, essential);
      if errors != [] {
        return Rejected(errors);
      }
      errors := OptionalViolations(optional);
      if errors != [] {
        return Rejected(errors);
      }
      return Built(AccountOf(essential, optional));
    }

    /** The setters of the optional attributes, all writing to this builder. */
    method SetOptionalAttribute() returns (opt: OptionalSetters)
      ensures fresh(opt) && opt.builder == this
    {
      opt := new OptionalSetters(this);
    }
  }

  /** The setters of the optional attributes. Each overwrites one optional
      attribute of its builder, checks nothing, and returns the builder. */
  class OptionalSetters {
    const builder: Builder

    constructor(builder: Builder)
      ensures this.builder == builder
    {
      this.builder := builder;
    }

    method SetVersion(version: int) returns (b: Builder)
      modifies builder
      ensures b == builder
      ensures builder.optional == old(builder.optional).(versionIndex := version)
      ensures builder.essential == old(builder.essential) && builder.tagName == old(builder.tagName)
    {
      builder.optional := builder.optional.(versionIndex := version);
      b := builder;
    }

    method SetAccountNumber(accountNumber: string) returns (b: Builder)
      modifies builder
      ensures b == builder
      ensures builder.optional == old(builder.optional).(accountNumber := accountNumber)
      ensures builder.essential == old(builder.essential) && builder.tagName == old(builder.tagName)
    {
      builder.optional := builder.optional.(accountNumber := accountNumber);
      b := builder;
    }

    /** The currency is given by its ISO 4217 code. */
    method SetBaseCurrency(unit: string) returns (b: Builder)
      modifies builder
      ensures b == builder
      ensures builder.optional == old(builder.optional).(baseCurrency := unit)
      ensures builder.essential == old(builder.essential) && builder.tagName == old(builder.tagName)
    {
      builder.optional := builder.optional.(baseCurrency := unit);
      b := builder;
    }

    method SetCustomerID(customerID: string) returns (b: Builder)
      modifies builder
      ensures b == builder
      ensures builder.optional == old(builder.optional).(customerID := customerID)
      ensures builder.essential == old(builder.essential) && builder.tagName == old(builder.tagName)
    {
      builder.optional := builder.optional.(customerID := customerID);
      b := builder;
    }

    method SetTitle(title: string) returns (b: Builder)
      modifies builder
      ensures b == builder
      ensures builder.optional == old(builder.optional).(title := title)
      ensures builder.essential == old(builder.essential) && builder.tagName == old(builder.tagName)
    {
      builder.optional := builder.optional.(title := title);
      b := builder;
    }

    method SetFirstName(firstName: string) returns (b: Builder)
      modifies builder
      ensures b == builder
      ensures builder.optional == old(builder.optional).(firstName := firstName)
      ensures builder.essential == old(builder.essential) && builder.tagName == old(builder.tagName)
    {
      builder.optional := builder.optional.(firstName := firstName);
      b := builder;
    }

    method SetBankAccountName(accountName: string) returns (b: Builder)
      modifies builder
      ensures b == builder
      ensures builder.optional == old(builder.optional).(bankAccountName := accountName)
      ensures builder.essential == old(builder.essential) && builder.tagName == old(builder.tagName)
    {
      builder.optional := builder.optional.(bankAccountName := accountName);
      b := builder;
    }

    /** Replaces the whole list of alternative names, however long. */
    method SetAltBankAccountNames(names: seq<string>) returns (b: Builder)
      modifies builder
      ensures b == builder
      ensures builder.optional == old(builder.optional).(altBankAccountNames := names)
      ensures builder.essential == old(builder.essential) && builder.tagName == old(builder.tagName)
    {
      builder.optional := builder.optional.(altBankAccountNames := names);
      b := builder;
    }

    method SetAccountClassification(accountClassification: string) returns (b: Builder)
      modifies builder
      ensures b == builder
      ensures builder.optional == old(builder.optional).(accountClassification := accountClassification)
      ensures builder.essential == old(builder.essential) && builder.tagName == old(builder.tagName)
    {
      builder.optional := builder.optional.(accountClassification := accountClassification);
      b := builder;
    }

    method SetJointAccount(isJointAccount: bool) returns (b: Builder)
      modifies builder
      ensures b == builder
      ensures builder.optional == old(builder.optional).(jointAccount := isJointAccount)
      ensures builder.essential == old(builder.essential) && builder.tagName == old(builder.tagName)
    {
      builder.optional := builder.optional.(jointAccount := isJointAccount);
      b := builder;
    }

    method SetAccountMatchingOptOut(isAccountMatching: bool) returns (b: Builder)
      modifies builder
      ensures b == builder
      ensures builder.optional == old(builder.optional).(accountMatchingOptOut := isAccountMatching)
      ensures builder.essential == old(builder.essential) && builder.tagName == old(builder.tagName)
    {
      builder.optional := builder.optional.(accountMatchingOptOut := isAccountMatching);
      b := builder;
    }

    method SetSecondaryIdentification(secondaryID: string) returns (b: Builder)
      modifies builder
      ensures b == builder
      ensures builder.optional == old(builder.optional).(secondaryIdentification := secondaryID)
      ensures builder.essential == old(builder.essential) && builder.tagName == old(builder.tagName)
    {
      builder.optional := builder.optional.(secondaryIdentification := secondaryID);
      b := builder;
    }
  }

  /** A builder for a country: the country's code and default bank-id-code,
      the "Personal" classification, and every other attribute empty, zero
      or false. Any country is accepted here, supported or not. */
  method NewBuilder(country: Countries.Country) returns (b: Builder)
    ensures fresh(b)
    ensures b.essential == NewEssential(country) && b.optional == NewOptional
    ensures b.essential.country == country.Code() && b.essential.bankIDCode == country.BankIDCode()
    ensures b.optional.accountClassification == "Personal"
    ensures b.tagName == GenericTagName
  {
    b := new Builder(NewEssential(country), NewOptional);
  }

  /** A builder holding every attribute of an existing account. */
  method CastBuilderFrom(account: Account) returns (b: Builder)
    ensures fresh(b)
    ensures b.essential == EssentialOf(account) && b.optional == OptionalOf(account)
    ensures b.tagName == GenericTagName
  {
    b := new Builder(EssentialOf(account), OptionalOf(account));
  }

  /** Casting an account that validation produced into a new builder and
      validating again gives the same account. */
  method Revalidate(b: Builder) returns (first: Outcome, second: Outcome)
    modifies b
    ensures first == Validation.Validate(old(b.essential), old(b.optional))
    ensures first.Built? ==> second == first
  {
    first := b.Validate();
    second := first;
    if first.Built? {
      CastRoundTrip(b.essential, b.optional);
      var copy := CastBuilderFrom(first.account);
      second := copy.Validate();
    }
  }

  /** A Belgian account built with the setters, with a three-character bank
      id and two UUIDs, validates; its bank-id-code is the Belgian default. */
  method BuildBelgianAccount(id: string, organizationID: string) returns (r: Outcome)
    requires IsUuid(id) && IsUuid(organizationID)
    ensures r.Built?
    ensures r.account.ID() == id && r.account.OrganizationID() == organizationID
    ensures r.account.Country() == "BE" && r.account.BankIDCode() == "BE" && r.account.BankID() == "123"
  {
    var b := NewBuilder(Countries.Belgium);
    b := b.SetID(id);
    b := b.SetOrganizationID(organizationID);
    b := b.SetBankID("123");
    NewOptionalAcceptable();
    BelgianAccountValidates(b.essential, b.optional);
    r := b.Validate();
  }

  /** A UK account needs a BIC: with two UUIDs and a six-character bank id
      it is rejected for its empty BIC, and validates once the BIC is set,
      carrying the UK sort-code scheme as its bank-id-code. */
  method BuildUnitedKingdomAccount(id: string, organizationID: string) returns (before: Outcome, after: Outcome)
    requires IsUuid(id) && IsUuid(organizationID)
    ensures before.Rejected? && exists v | v in before.violations :: v.field == Bic
    ensures after.Built? && after.account.BankIDCode() == "GBDSC" && after.account.Bic() == "NWBKGB22"
  {
    var b := NewBuilder(Countries.UnitedKingdom);
    b := b.SetID(id);
    b := b.SetOrganizationID(organizationID);
    b := b.SetBankID("123456");
    EmptyBicRejected(b.essential, b.optional);
    before := b.Validate();
    b := b.SetBic("NWBKGB22");
    NewOptionalAcceptable();
    UnitedKingdomAccountValidates(b.essential, b.optional);
    after := b.Validate();
  }

  /** Four alternative names are one too many, whatever else is set. */
  method TooManyAlternativeNames(b: Builder, names: seq<string>) returns (r: Outcome)
    requires |names| == 4
    modifies b
    ensures r.Rejected?
  {
    var opt := b.SetOptionalAttribute();
    var same := opt.SetAltBankAccountNames(names);
    r := same.Validate();
  }
}
