/** The transport records exchanged with the accounts service, as plain data.
    Field names follow the source's structs; the JSON encoding is not modelled. */
module Transport {

  /** A time stamp set by the service. Its only property of interest here is
      whether it is the zero value (unset). */
  datatype Time = Zero | At(instant: int)

  /** The `attributes` object of an account resource: the 16 attribute fields. */
  datatype AccountAttributes = AccountAttributes(
    country: string,
    baseCurrency: string,
    bankID: string,
    bankIDCode: string,
    accountNumber: string,
    bic: string,
    iban: string,
    customerID: string,
    title: string,
    firstName: string,
    bankAccountName: string,
    altBankAccountNames: seq<string>,
    accountClassification: string,
    jointAccount: bool,
    accountMatchingOptOut: bool,
    secondaryIdentification: string)

  /** One account resource: its envelope fields and its attributes. */
  datatype TransportData = TransportData(
    resourceType: string,
    id: string,
    organizationID: string,
    version: int,
    createdOn: Time,
    modifiedOn: Time,
    attributes: AccountAttributes)

  /** Pagination links of a response. */
  datatype Links = Links(first: string, last: string, next: string, self: string)

  /** A request or response carrying one account. */
  datatype RestTransport = RestTransport(data: TransportData, links: Links)

  /** A response carrying a list of accounts. */
  datatype RestTransportList = RestTransportList(data: seq<TransportData>, links: Links)
}
