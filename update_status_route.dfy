/** `app/api/update-status/route.ts`: the validation of a status change and
    the fixed message written for each status. The two store writes are
    `Store.Portal.UpdateStatus`. */
module UpdateStatusRoute {
  import opened Common
  import opened Records

  const MsgMissing := "ID dan status harus diisi"
  const MsgInvalidStatus := "Status tidak valid"
  const MsgFailed := "Gagal memperbarui status"

  /** The three notification texts. Each is written as a few short pieces;
      joined, they are the texts the route writes. */
  const AcceptedText := "Selamat! Lamaran kamu diterima. " + "Tim kami akan menghubungi Anda segera."
  const RejectedText :=
    "Terima kasih atas permohonan Anda. " + "Maaf, pada kesempatan kali ini " + "kami tidak dapat menerima "
    + "lamaran Anda. Kami berharap " + "dapat bekerja sama di masa depan."
  const UpdatedText := "Status lamaran Anda telah diperbarui."

  /** The text of the notification a status change writes. */
  function StatusMessage(st: Status): (m: string)
    ensures st == Accepted ==> m == AcceptedText
    ensures st == Rejected ==> m == RejectedText
    ensures st == Pending ==> m == UpdatedText
  {
    if st == Accepted then AcceptedText
    else if st == Rejected then RejectedText
    else UpdatedText
  }

  /** The three statuses get three different texts. */
  lemma StatusMessageInjective(a: Status, b: Status)
    ensures StatusMessage(a) == StatusMessage(b) <==> a == b
  {
    assert |AcceptedText| != |RejectedText| && |AcceptedText| != |UpdatedText| && |RejectedText| != |UpdatedText|;
  }

  /** The request checks, in order: both fields present (so id 0 and the
      empty status are refused), then the status one of the three names.
      `Ok` carries the status the request names. */
  function ValidateStatusUpdate(id: JsonId, status: string): (r: Reply<Status>)
    ensures r.Ok? <==> id.Truthy() && ParseStatus(status).Some?
    ensures r.Ok? ==> StatusName(r.value) == status
    ensures !id.Truthy() || status == "" ==> r == Fail(400, MsgMissing)
    ensures id.Truthy() && status != "" && ParseStatus(status).None? ==> r == Fail(400, MsgInvalidStatus)
  {
    if !id.Truthy() || status == "" then Fail(400, MsgMissing)
    else match ParseStatus(status)
      case None => Fail(400, MsgInvalidStatus)
      case Some(st) => Ok(st)
  }
}
