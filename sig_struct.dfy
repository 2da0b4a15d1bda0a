/**
 * The signature records both serialisers read and the signature table of the
 * controller holds (SignatureInformation and SignatureReferenceInformation).
 */
module SigStruct {

  /** How a reference is digested: an element of the signature document itself, a binary stream or an XML stream. */
  datatype ReferenceType = SameDocument | BinaryStream | XmlStream

  /** One digested object: its kind, its URI (fragment id or package path) and its digest value. */
  datatype ReferenceInformation = ReferenceInformation(kind: ReferenceType, uri: string, digestValue: string)

  /** A point in time. The model never looks inside it; it is only handed to the ISO-8601 formatter. */
  datatype DateTime = DateTime(ticks: int)

  /**
   * One signature. `dateTimeText` is the timestamp exactly as it was read from
   * an existing signature ("" for a new one); `dateTime` is the structured time.
   * `status` is the SecurityOperationStatus code the signing or verifying engine
   * reported; the model treats it as an opaque number.
   */
  datatype SignatureInformation = SignatureInformation(
    securityId: int,
    status: int,
    signatureId: string,
    propertyId: string,
    descriptionPropertyId: string,
    signatureValue: string,
    issuerName: string,
    serialNumber: string,
    certificate: string,
    certDigest: string,
    dateTimeText: string,
    dateTime: DateTime,
    description: string,
    references: seq<ReferenceInformation>)

  /** SecurityOperationStatus_UNKNOWN, the status of a record nobody has signed or verified yet. */
  const STATUS_UNKNOWN: int := 0

  /** The record `SignatureInformation(nId)` constructs: the id, and everything else empty. */
  function BlankSignature(id: int): (r: SignatureInformation)
    ensures r.securityId == id && r.status == STATUS_UNKNOWN
    ensures r.references == [] && r.signatureId == "" && r.description == "" && r.dateTimeText == ""
  {
    SignatureInformation(id, STATUS_UNKNOWN, "", "", "", "", "", "", "", "", "", DateTime(0), "", [])
  }
}
