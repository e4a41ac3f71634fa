/** BSIPKIHeader: the PKI header used for the smart-meter PKI request
    messages of BSI TR-03109. It is built with the CMP version and two NULL
    names, encodes as the bsiCertReqMsgs object identifier alone, and each of
    its accessors logs a warning before returning the inherited value. */
module BsiHeaders {
  import opened Pkix

  /** bsiCertReqMsgs, 0.4.0.127.0.7.4.1.1.1 (BSI TR-03109). */
  const OidBsiCertReqMsgs: Oid := [0, 4, 0, 127, 0, 7, 4, 1, 1, 1]

  /** PKIHeader.CMP_2000: protocol version 2 (section 5.1.1 of RFC 4210). */
  const Cmp2000: nat := 2

  /** PKIHeader.NULL_NAME: a directory name holding the empty distinguished name. */
  const NullName: GeneralName := GeneralName(TagDirectoryName, "")

  /** The fields of a PKIHeader (section 5.1.1 of RFC 4210), in declaration order. */
  datatype HeaderField =
    | Pvno | Sender | Recipient | MessageTime | ProtectionAlg | SenderKid
    | RecipKid | TransactionId | SenderNonce | RecipNonce | FreeText | GeneralInfo

  datatype FieldValue = Version(n: nat) | NameValue(name: GeneralName) | Absent

  /** A PKIHeader as the three-argument superclass constructor leaves it:
      version, sender and recipient set, every optional field absent. */
  datatype PkiHeader = PkiHeader(pvno: nat, sender: GeneralName, recipient: GeneralName)

  /** The value the superclass accessor returns for a field. */
  function Inherited(h: PkiHeader, field: HeaderField): FieldValue {
    match field
    case Pvno => Version(h.pvno)
    case Sender => NameValue(h.sender)
    case Recipient => NameValue(h.recipient)
    case _ => Absent
  }

  /** The name of the accessor of a field, as the warning spells it. */
  function AccessorName(field: HeaderField): string {
    match field
    case Pvno => "getPvno"
    case Sender => "getSender"
    case Recipient => "getRecipient"
    case MessageTime => "getMessageTime"
    case ProtectionAlg => "getProtectionAlg"
    case SenderKid => "getSenderKID"
    case RecipKid => "getRecipKID"
    case TransactionId => "getTransactionID"
    case SenderNonce => "getSenderNonce"
    case RecipNonce => "getRecipNonce"
    case FreeText => "getFreeText"
    case GeneralInfo => "getGeneralInfo"
  }

  /** new BSIPKIHeader(). */
  function NewBsiPkiHeader(): (h: PkiHeader)
    ensures h.pvno == Cmp2000
    ensures h.sender == NullName && h.recipient == NullName
  {
    PkiHeader(Cmp2000, NullName, NullName)
  }

  /** An accessor's result together with the warning it logs. */
  datatype Logged<T> = Logged(value: T, warning: string)

  /** Every overridden accessor: the inherited value, plus one warning naming
      the accessor. */
  function Get(h: PkiHeader, field: HeaderField): (r: Logged<FieldValue>)
    ensures r.value == Inherited(h, field)
    ensures r.warning == "called function `" + AccessorName(field) + "` from PKIHeader"
  {
    Logged(Inherited(h, field), "called function `" + AccessorName(field) + "` from PKIHeader")
  }

  /** toASN1Primitive: the header encodes as the request-messages OID alone. */
  function ToAsn1Primitive(h: PkiHeader): (oid: Oid)
    ensures oid == OidBsiCertReqMsgs
  {
    OidBsiCertReqMsgs
  }

  /** The accessors of a fresh header report the constructor's arguments and
      nothing for every optional field. */
  lemma FreshHeaderAccessors(field: HeaderField)
    ensures Get(NewBsiPkiHeader(), field).value ==
      match field
      case Pvno => Version(2)
      case Sender => NameValue(GeneralName(4, ""))
      case Recipient => NameValue(GeneralName(4, ""))
      case _ => Absent
  {
  }

  /** Each accessor warns under its own name. */
  lemma AccessorNamesDistinct(f1: HeaderField, f2: HeaderField)
    ensures f1 != f2 ==> AccessorName(f1) != AccessorName(f2)
  {
  }
}
