/** `app/components/ApplicationForm.tsx`: the applicant's form. The phone
    input is filtered as it is typed and annotated with a warning, a chosen
    file is checked for type and size, and submission runs its own checks in
    its own order before it builds the request `POST /api/apply` receives. */
module ApplicationFormComponent {
  import opened Common
  import opened Records
  import opened ApplyRoute
  import opened Browser

  /** The form state. `file` is `null` until a file passes the file checks. */
  datatype FormFields = FormFields(
    name: string,
    email: string,
    phone: string,
    educationLevel: string,
    universityName: string,
    schoolName: string,
    kelas: string,
    prodi: string,
    jurusan: string,
    semester: string,
    position: string,
    file: Option<Upload>)

  const EmptyForm := FormFields("", "", "", "", "", "", "", "", "", "", "", None)

  const PdfType := "application/pdf"
  const MaxFileSize := 5 * 1024 * 1024
  const MsgNotPdf := "File harus berformat PDF"
  const MsgTooLarge := "Ukuran file maksimal 5MB"
  const MsgChooseFile := "Silakan pilih file PDF"
  const MsgSendFailed := "Gagal mengirim aplikasi"
  const MsgNetwork := "Terjadi kesalahan. Silakan coba lagi."

  // ---------------------------------------------------------------------
  // The phone warning

  /** The warnings under the phone input. */
  datatype PhoneHint = NoHint | BadChars | TooShort(digits: nat) | TooLong(digits: nat) | ValidNumber

  /** The text of a warning: empty for none, a check mark first for a valid
      number and a warning sign first for every problem (the form colours
      the text by these two signs). */
  function HintText(h: PhoneHint): (t: string)
    ensures t == "" <==> h == NoHint
    ensures t != "" ==> (t[0] == '\U{2713}' <==> h == ValidNumber)
    ensures t != "" ==> (t[0] == '\U{26A0}' <==> h != ValidNumber)
  {
    match h
    case NoHint => ""
    case BadChars => "\U{26A0} Hanya angka dan simbol + yang dibolehkan"
    case TooShort(n) => "\U{26A0} Minimal 10 angka (" + DecimalString(n) + " angka)"
    case TooLong(n) => "\U{26A0} Maksimal 15 angka (" + DecimalString(n) + " angka)"
    case ValidNumber => "\U{2713} Format nomor telpon valid"
  }

  /** The warning chosen by the number of digits: none for no digit, then
      too short, valid, too long. */
  function LengthHint(n: nat): (h: PhoneHint)
    ensures h == NoHint <==> n == 0
    ensures h.TooShort? <==> 1 <= n < MinPhoneDigits
    ensures h == ValidNumber <==> MinPhoneDigits <= n <= MaxPhoneDigits
    ensures h.TooLong? <==> n > MaxPhoneDigits
    ensures h != BadChars
  {
    if 0 < n < 10 then TooShort(n)
    else if n > 15 then TooLong(n)
    else if 10 <= n <= 15 then ValidNumber
    else NoHint
  }

  /** The valid-number warning shows exactly when the server's length check
      would pass. */
  lemma LengthHintMatchesServer(phone: string)
    ensures LengthHint(|DigitsOf(phone)|) == ValidNumber <==> PhoneDigitCountOk(phone)
  {
  }

  // ---------------------------------------------------------------------
  // The file check

  /** A file is taken only when it is a PDF of at most 5 MiB. */
  function FileCheck(f: Upload): (m: Option<string>)
    ensures m.None? <==> f.mimeType == PdfType && |f.content| <= MaxFileSize
    ensures f.mimeType != PdfType ==> m == Some(MsgNotPdf)
    ensures f.mimeType == PdfType && |f.content| > MaxFileSize ==> m == Some(MsgTooLarge)
  {
    if f.mimeType != "application/pdf" then Some(MsgNotPdf)
    else if |f.content| > 5 * 1024 * 1024 then Some(MsgTooLarge)
    else None
  }

  // ---------------------------------------------------------------------
  // The submit checks

  /** Every check of the submit handler passes. */
  predicate SubmittableForm(f: FormFields)
  {
    && f.file.Some?
    && f.name != "" && f.email != "" && f.phone != ""
    && PhoneDigitCountOk(f.phone)
    && f.educationLevel != ""
    && LevelFieldsPresent(f.educationLevel, f.universityName, f.prodi, f.semester, f.schoolName, f.jurusan, f.kelas)
    && f.position != ""
  }

  /** The submit checks in their order: file, the three required fields,
      the phone's digit count, the level, the level's fields, the position.
      There is no character check: the input filter already keeps only digits
      and plus signs. */
  function SubmitCheck(f: FormFields): (m: Option<string>)
    ensures m.None? <==> SubmittableForm(f)
    ensures f.file.None? ==> m == Some(MsgChooseFile)
    ensures f.file.Some? && (f.name == "" || f.email == "" || f.phone == "") ==> m == Some(MsgRequired)
    ensures f.file.Some? && f.name != "" && f.email != "" && f.phone != "" && !PhoneDigitCountOk(f.phone)
            ==> m == Some(MsgPhoneLength)
    ensures f.file.Some? && f.name != "" && f.email != "" && f.phone != "" && PhoneDigitCountOk(f.phone)
              && f.educationLevel == ""
            ==> m == Some(MsgChooseLevel)
    ensures var earlier := f.file.Some? && f.name != "" && f.email != "" && f.phone != ""
                           && PhoneDigitCountOk(f.phone) && f.educationLevel != "";
            && (earlier && f.educationLevel == "Mahasiswa"
                  && (f.universityName == "" || f.prodi == "" || f.semester == "")
                ==> m == Some(MsgUniversityFields))
            && (earlier && f.educationLevel == "SMK"
                  && (f.schoolName == "" || f.jurusan == "" || f.kelas == "")
                ==> m == Some(MsgSchoolFields))
            && (earlier && LevelFieldsPresent(f.educationLevel, f.universityName, f.prodi, f.semester,
                                              f.schoolName, f.jurusan, f.kelas)
                ==> m == (if f.position == "" then Some(MsgChoosePosition) else None))
  {
    if f.file.None? then Some(MsgChooseFile)
    else if f.name == "" || f.email == "" || f.phone == "" then Some(MsgRequired)
    else if |DigitsOf(f.phone)| < 10 || |DigitsOf(f.phone)| > 15 then Some(MsgPhoneLength)
    else if f.educationLevel == "" then Some(MsgChooseLevel)
    else if f.educationLevel == "Mahasiswa" && (f.universityName == "" || f.prodi == "" || f.semester == "") then
      Some(MsgUniversityFields)
    else if f.educationLevel == "SMK" && (f.schoolName == "" || f.jurusan == "" || f.kelas == "") then
      Some(MsgSchoolFields)
    else if f.position == "" then Some(MsgChoosePosition)
    else None
  }

  /** The multipart request the form sends. */
  function ToRequest(f: FormFields, userId: Option<string>): (r: ApplyRequest)
    ensures r.name == f.name && r.email == f.email && r.phone == f.phone && r.file == f.file
    ensures r.educationLevel == f.educationLevel && r.kelas == f.kelas
    ensures r.universityName == f.universityName && r.prodi == f.prodi && r.semester == f.semester
    ensures r.schoolName == f.schoolName && r.jurusan == f.jurusan
    ensures r.position == f.position && r.userId == userId
  {
    ApplyRequest(f.name, f.email, f.phone, f.educationLevel, f.universityName, f.schoolName,
                 f.prodi, f.jurusan, f.semester, f.kelas, f.position, f.file, userId)
  }

  /** The client and the server accept the same forms, as long as the phone
      holds only digits and plus signs (which the input filter keeps true):
      the same 10 to 15 digits, the same fields per level. */
  lemma ClientMirrorsServer(f: FormFields, userId: Option<string>)
    requires forall i :: 0 <= i < |f.phone| ==> IsPhoneChar(f.phone[i])
    ensures SubmitCheck(f).None? <==> ValidateApplication(ToRequest(f, userId)).None?
  {
  }

  /** The two orders differ: a form with a short phone and no level gets the
      phone message from the browser but the level message from the server. */
  lemma ClientServerOrderDiffers(u: Upload)
    ensures var f := FormFields("Ani", "ani@mail.id", "0812", "", "", "", "", "", "", "", "Fotografi", Some(u));
            && SubmitCheck(f) == Some(MsgPhoneLength)
            && ValidateApplication(ToRequest(f, None)) == Some(MsgChooseLevel)
  {
    var f := FormFields("Ani", "ani@mail.id", "0812", "", "", "", "", "", "", "", "Fotografi", Some(u));
    assert DigitsOf(f.phone) == "0812";
  }

  /** `String(user.id)` when the stored account has a truthy id; nothing when
      there is no account, no id, id 0, or the stored text does not parse. */
  function UserIdField(stored: Option<StoredUser>): (r: Option<string>)
    ensures r.Some? <==> stored.Some? && stored.value.Json? && stored.value.user.id.Some?
                         && stored.value.user.id.value != 0
    ensures r.Some? ==> LinkedUserId(r) == stored.value.user.id
  {
    match stored
    case Some(Json(u)) =>
      if u.id.Some? && u.id.value != 0 then
        LinkedUserIdOfString(u.id.value);
        Some(IntString(u.id.value))
      else None
    case _ => None
  }

  /** How the request ended: a JSON reply with `success` (and the created
      applicant's id), a JSON reply without it (and its message, "" when
      absent), or an exception from the network or the JSON parser. */
  datatype SubmitOutcome = Created(applicantId: int) | Refused(message: string) | NetworkError

  // ---------------------------------------------------------------------
  // The text inputs

  /** The inputs and selects other than the phone and the file, each written
      by its own `onChange` as `setForm({ ...form, field: value })`. */
  datatype TextField =
    | NameField | EmailField | LevelField | UniversityField | ProdiField
    | SemesterField | SchoolField | JurusanField | KelasField | PositionField

  function FieldValue(f: FormFields, k: TextField): string
  {
    match k
    case NameField => f.name
    case EmailField => f.email
    case LevelField => f.educationLevel
    case UniversityField => f.universityName
    case ProdiField => f.prodi
    case SemesterField => f.semester
    case SchoolField => f.schoolName
    case JurusanField => f.jurusan
    case KelasField => f.kelas
    case PositionField => f.position
  }

  /** `{ ...form, field: value }`: the one field takes the value, and every
      other field, the phone and the file stay as they were. */
  function WithField(f: FormFields, k: TextField, v: string): (g: FormFields)
    ensures FieldValue(g, k) == v
    ensures forall j :: j != k ==> FieldValue(g, j) == FieldValue(f, j)
    ensures g.phone == f.phone && g.file == f.file
  {
    match k
    case NameField => f.(name := v)
    case EmailField => f.(email := v)
    case LevelField => f.(educationLevel := v)
    case UniversityField => f.(universityName := v)
    case ProdiField => f.(prodi := v)
    case SemesterField => f.(semester := v)
    case SchoolField => f.(schoolName := v)
    case JurusanField => f.(jurusan := v)
    case KelasField => f.(kelas := v)
    case PositionField => f.(position := v)
  }

  // ---------------------------------------------------------------------
  // The component

  class ApplicationForm {
    var form: FormFields
    var error: string
    var phoneWarning: string
    var success: bool

    /** The phone only ever holds digits and plus signs. */
    ghost predicate Valid()
      reads this
    {
      forall i :: 0 <= i < |form.phone| ==> IsPhoneChar(form.phone[i])
    }

    constructor ()
      ensures Valid()
      ensures form == EmptyForm && error == "" && phoneWarning == "" && !success
    {
      form := EmptyForm;
      error := "";
      phoneWarning := "";
      success := false;
    }

    /** The `onChange` of a text input or select other than the phone. */
    method SetField(k: TextField, value: string)
      requires Valid()
      modifies this
      ensures Valid()
      ensures form == WithField(old(form), k, value)
      ensures error == old(error) && phoneWarning == old(phoneWarning) && success == old(success)
    {
      form := WithField(form, k, value);
    }

    /** `handlePhoneChange`. The character warning is set first but the
        length warning always overwrites it, so the warning that stays depends
        on the digit count alone. */
    method HandlePhoneChange(value: string)
      modifies this
      ensures Valid()
      ensures form == old(form).(phone := KeepPhoneChars(value))
      ensures phoneWarning == HintText(LengthHint(|DigitsOf(value)|))
      ensures error == old(error) && success == old(success)
    {
      var filtered := KeepPhoneChars(value);
      if value != filtered {
        phoneWarning := HintText(BadChars);
      } else {
        phoneWarning := HintText(NoHint);
      }
      var digits := DigitsOf(filtered);
      DigitsOfKeepPhoneChars(value);
      if |digits| > 0 && |digits| < 10 {
        phoneWarning := HintText(TooShort(|digits|));
      } else if |digits| > 15 {
        phoneWarning := HintText(TooLong(|digits|));
      } else if |digits| >= 10 && |digits| <= 15 {
        phoneWarning := HintText(ValidNumber);
      } else {
        phoneWarning := HintText(NoHint);
      }
      form := form.(phone := filtered);
    }

    /** `handleFileChange`. A rejected file sets the error and leaves the
        form as it was; no file at all changes nothing. */
    method HandleFileChange(file: Option<Upload>)
      requires Valid()
      modifies this
      ensures Valid()
      ensures file.None? ==> form == old(form) && error == old(error)
      ensures file.Some? && FileCheck(file.value).Some? ==>
                form == old(form) && error == FileCheck(file.value).value
      ensures file.Some? && FileCheck(file.value).None? ==> form == old(form).(file := file) && error == ""
      ensures phoneWarning == old(phoneWarning) && success == old(success)
    {
      if file.Some? {
        var check := FileCheck(file.value);
        if check.Some? {
          error := check.value;
          return;
        }
        error := "";
        form := form.(file := file);
      }
    }

    /** The checks of `handleSubmit` and the request it sends. A failing
        check sets its message and sends nothing; otherwise the error is
        cleared and the request carries the stored account's id. What is sent
        always passes the server's checks. */
    method Submit(storage: Storage) returns (request: Option<ApplyRequest>)
      requires Valid()
      modifies this
      ensures Valid()
      ensures SubmitCheck(old(form)).Some? ==> request.None? && error == SubmitCheck(old(form)).value
      ensures SubmitCheck(old(form)).None? ==>
                request == Some(ToRequest(old(form), UserIdField(storage.user))) && error == ""
      ensures request.Some? ==> ValidateApplication(request.value).None?
      ensures form == old(form) && phoneWarning == old(phoneWarning) && success == old(success)
    {
      var check := SubmitCheck(form);
      if check.Some? {
        error := check.value;
        return None;
      }
      error := "";
      var uid := UserIdField(storage.user);
      ClientMirrorsServer(form, uid);
      request := Some(ToRequest(form, uid));
    }

    /** The end of `handleSubmit`. On success the applicant id is stored for
        the notification widget and every field is reset; otherwise the
        server's message, or the fallback, becomes the error. */
    method Finish(storage: Storage, outcome: SubmitOutcome)
      requires Valid()
      modifies this, storage
      ensures Valid()
      ensures storage.user == old(storage.user)
      ensures outcome.Created? ==>
                && form == EmptyForm && success
                && storage.applicantId == (if outcome.applicantId != 0 then Some(IntString(outcome.applicantId))
                                           else old(storage.applicantId))
                && error == old(error)
      ensures outcome.Refused? ==>
                && error == (if outcome.message != "" then outcome.message else MsgSendFailed)
                && form == old(form) && success == old(success) && storage.applicantId == old(storage.applicantId)
      ensures outcome.NetworkError? ==>
                && error == MsgNetwork
                && form == old(form) && success == old(success) && storage.applicantId == old(storage.applicantId)
      ensures phoneWarning == old(phoneWarning)
    {
      match outcome
      case Created(id) =>
        if id != 0 {
          storage.applicantId := Some(IntString(id));
        }
        success := true;
        form := EmptyForm;
      case Refused(message) =>
        error := if message != "" then message else MsgSendFailed;
      case NetworkError =>
        error := MsgNetwork;
    }
  }
}
