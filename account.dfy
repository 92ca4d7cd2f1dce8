/** The immutable account record, its read-only accessors, and its conversion
    to and from the transport records. */
module Accounts {
  import opened Transport

  /** The value of `type` in every account resource sent to the service. */
  const ResourceType: string := "accounts"

  /** An account. A datatype value has no mutators: the accessors below read
      its fields and nothing writes them. */
  datatype Account = Account(
    id: string,
    versionIndex: int,
    createdOn: Time,
    modifiedOn: Time,
    organizationID: string,
    country: string,
    baseCurrency: string,
    bankID: string,
    bankIDCode: string,
    accountNumber: string,
    bic: string,
    iban: string,
    customerID: string,
    title: string,
    firstName: string,
    bankAccountName: string,
    altBankAccountNames: seq<string>,
    accountClassification: string,
    jointAccount: bool,
    accountMatchingOptOut: bool,
    secondaryIdentification: string)
  {
    function ID(): string { id }
    function Version(): int { versionIndex }
    function ModifiedOn(): Time { modifiedOn }
    function CreatedOn(): Time { createdOn }
    function OrganizationID(): string { organizationID }
    function Country(): string { country }
    function BaseCurrency(): string { baseCurrency }
    function BankID(): string { bankID }
    function BankIDCode(): string { bankIDCode }
    function AccountNumber(): string { accountNumber }
    function Bic(): string { bic }
    function Iban(): string { iban }
    function CustomerID(): string { customerID }
    function Title(): string { title }
    function FirstName(): string { firstName }
    function BankAccountName(): string { bankAccountName }
    function AltBankAccountNames(): seq<string> { altBankAccountNames }
    function AccountClassification(): string { accountClassification }
    function IsJointAccount(): bool { jointAccount }
    function IsAccountMatchingOptOut(): bool { accountMatchingOptOut }
    function SecondaryIdentification(): string { secondaryIdentification }

    /** The attributes object sent to the service: every attribute field,
        and none of id, organisation id, version or the time stamps. Nothing
        is lost: the envelope and the attributes together give back the
        account. */
    function Attributes(): (r: AccountAttributes)
      ensures Account(id, versionIndex, createdOn, modifiedOn, organizationID,
                      r.country, r.baseCurrency, r.bankID, r.bankIDCode, r.accountNumber, r.bic, r.iban,
                      r.customerID, r.title, r.firstName, r.bankAccountName, r.altBankAccountNames,
                      r.accountClassification, r.jointAccount, r.accountMatchingOptOut,
                      r.secondaryIdentification) == this
    {
      AccountAttributes(
        Country(), BaseCurrency(), BankID(), BankIDCode(), AccountNumber(), Bic(), Iban(),
        CustomerID(), Title(), FirstName(), BankAccountName(), AltBankAccountNames(),
        AccountClassification(), IsJointAccount(), IsAccountMatchingOptOut(),
        SecondaryIdentification())
    }
  }

  /** The account described by a received resource. Nothing is checked: any
      resource, whatever its country or bank id, gives an account, and its
      attributes are exactly the resource's. */
  function AccountFrom(response: TransportData): (r: Account)
    ensures r.Attributes() == response.attributes
    ensures r.ID() == response.id && r.OrganizationID() == response.organizationID
    ensures r.Version() == response.version
    ensures r.CreatedOn() == response.createdOn && r.ModifiedOn() == response.modifiedOn
  {
    Account(
      response.id, response.version, response.createdOn, response.modifiedOn,
      response.organizationID,
      response.attributes.country, response.attributes.baseCurrency,
      response.attributes.bankID, response.attributes.bankIDCode,
      response.attributes.accountNumber, response.attributes.bic, response.attributes.iban,
      response.attributes.customerID, response.attributes.title, response.attributes.firstName,
      response.attributes.bankAccountName, response.attributes.altBankAccountNames,
      response.attributes.accountClassification, response.attributes.jointAccount,
      response.attributes.accountMatchingOptOut, response.attributes.secondaryIdentification)
  }

  /** The request body that creates an account: it carries no time stamps
      (those are the service's), and reading it back gives the same account
      with its time stamps unset. */
  function CreateTransportData(account: Account): (r: RestTransport)
    ensures r.data.resourceType == ResourceType
    ensures r.data.createdOn == Zero && r.data.modifiedOn == Zero
    ensures AccountFrom(r.data) == account.(createdOn := Zero, modifiedOn := Zero)
  {
    RestTransport(
      TransportData(ResourceType, account.id, account.organizationID, account.versionIndex,
                    Zero, Zero, account.Attributes()),
      Links("", "", "", ""))
  }

  /** Converting a received resource to an account and back loses only the
      resource type and the time stamps. */
  lemma TransportRoundTrip(response: TransportData)
    ensures CreateTransportData(AccountFrom(response)).data
         == response.(resourceType := ResourceType, createdOn := Zero, modifiedOn := Zero)
  {
  }

  /** The attributes object does not depend on the identity, version or time
      stamps of the account. */
  lemma AttributesExcludeEnvelope(a: Account, id: string, org: string, version: int, created: Time, modified: Time)
    ensures a.(id := id, organizationID := org, versionIndex := version,
               createdOn := created, modifiedOn := modified).Attributes()
         == a.Attributes()
  {
  }
}
