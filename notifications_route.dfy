/** `app/api/notifications/route.ts`: the input checks of `POST`, the sender
    default and the mail it hands to the transport. The store write and the
    mail attempt are `Store.Portal.SendNotification`. */
module NotificationsRoute {
  import opened Common
  import opened Records

  const MsgRequired := "applicantId and message are required"
  const MsgInvalidId := "Invalid applicantId"
  const MsgNotFound := "Applicant not found"
  const MsgFailed := "Failed to create notification"
  const MailSubject := "Notifikasi Magang Radar Cirebon"
  const DefaultSender := "Admin"

  /** A mail handed to the transport: recipient, subject, and the sender
      label and message the HTML body shows. The envelope's sender is the
      configured mail account and is not modelled. */
  datatype Mail = Mail(to: string, subject: string, senderLabel: string, message: string)

  /** `sender || "Admin"`. */
  function SenderLabel(sender: string): (s: string)
    ensures s != ""
    ensures sender != "" ==> s == sender
    ensures sender == "" ==> s == DefaultSender
  {
    if sender == "" then DefaultSender else sender
  }

  /** The numeric id: a number as given, a string through `parseInt`. */
  function NumericId(applicantId: JsonId): (r: JsNumber)
    ensures applicantId.Number? ==> r == Int(applicantId.n)
    ensures applicantId.Text? ==> r == ParseInt(applicantId.s)
  {
    match applicantId
    case Number(n) => Int(n)
    case Text(s) => ParseInt(s)
    case Absent => NaN
  }

  /** The checks before the applicant lookup: both fields present (the
      message is not trimmed), then a numeric id. `Ok` carries the id. */
  function ValidateNotification(applicantId: JsonId, message: string): (r: Reply<int>)
    ensures r.Ok? <==> applicantId.Truthy() && message != "" && NumericId(applicantId).Int?
    ensures r.Ok? ==> NumericId(applicantId) == Int(r.value)
    ensures !applicantId.Truthy() || message == "" ==> r == Fail(400, MsgRequired)
    ensures applicantId.Truthy() && message != "" && NumericId(applicantId).NaN? ==> r == Fail(400, MsgInvalidId)
  {
    if !applicantId.Truthy() || message == "" then Fail(400, MsgRequired)
    else match NumericId(applicantId)
      case NaN => Fail(400, MsgInvalidId)
      case Int(n) => Ok(n)
  }

  /** A message of white space only is accepted. */
  lemma BlankMessageAccepted(n: int)
    requires n != 0
    ensures ValidateNotification(Number(n), " ") == Ok(n)
  {
  }

  /** The id written as a string is read as the same number. */
  lemma TextIdAccepted(n: int, message: string)
    requires n != 0 && message != ""
    ensures ValidateNotification(Text(IntString(n)), message) == Ok(n)
  {
    ParseIntRoundTrip(n);
    assert IntString(n) != "";
  }
}
