/** `app/api/apply/route.ts`: the guard chain that `POST` runs on a submitted
    application before it looks at the store, the parsing of the optional
    account link, and the newest-first order of `GET`. The store effects of
    `POST` are `Store.Portal.Apply`. */
module ApplyRoute {
  import opened Common
  import opened Records

  /** The multipart form of a submission. A text field that is absent and one
      that is empty are both the empty string (both are falsy to the route);
      `userId` keeps the difference because the route tests it on its own. */
  datatype ApplyRequest = ApplyRequest(
    name: string,
    email: string,
    phone: string,
    educationLevel: string,
    universityName: string,
    schoolName: string,
    prodi: string,
    jurusan: string,
    semester: string,
    kelas: string,
    position: string,
    file: Option<Upload>,
    userId: Option<string>)

  const MsgRequired := "Semua field harus diisi"
  const MsgChooseLevel := "Silakan pilih tingkat pendidikan"
  const MsgUniversityFields := "Silakan lengkapi nama universitas, prodi, dan semester"
  const MsgSchoolFields := "Silakan lengkapi nama sekolah dan jurusan"
  const MsgChoosePosition := "Silakan pilih posisi di Radar Cirebon"
  const MsgPhoneLength := "Nomor telepon harus antara 10-15 angka"
  const MsgPhoneChars := "Nomor telepon hanya boleh berisi angka dan simbol +"
  const MsgDuplicateEmail := "Email sudah mendaftar!"
  const MsgInternal := "Terjadi kesalahan saat memproses aplikasi"

  const MinPhoneDigits := 10
  const MaxPhoneDigits := 15

  // ---------------------------------------------------------------------
  // The conditions the guard chain checks, each stated on its own

  predicate RequiredPresent(r: ApplyRequest)
  {
    r.name != "" && r.email != "" && r.phone != "" && r.file.Some?
  }

  /** The fields a given education level requires are all filled in. */
  predicate LevelFieldsPresent(level: string, university: string, prodi: string, semester: string,
                               school: string, jurusan: string, kelas: string)
  {
    && (level == "Mahasiswa" ==> university != "" && prodi != "" && semester != "")
    && (level == "SMK" ==> school != "" && jurusan != "" && kelas != "")
  }

  /** Between 10 and 15 decimal digits, whatever else the number holds. */
  predicate PhoneDigitCountOk(phone: string)
  {
    MinPhoneDigits <= |DigitsOf(phone)| <= MaxPhoneDigits
  }

  /** `/^[0-9+]+$/`: non-empty, digits and plus signs only, a plus sign anywhere. */
  predicate PhoneCharsOk(phone: string)
  {
    phone != [] && forall i :: 0 <= i < |phone| ==> IsPhoneChar(phone[i])
  }

  /** The conjunction of every check of the chain: a reference definition of
      an acceptable submission, independent of the order of the checks. */
  predicate AcceptableRequest(r: ApplyRequest)
  {
    && RequiredPresent(r)
    && r.educationLevel != ""
    && LevelFieldsPresent(r.educationLevel, r.universityName, r.prodi, r.semester,
                          r.schoolName, r.jurusan, r.kelas)
    && r.position != ""
    && PhoneDigitCountOk(r.phone)
    && PhoneCharsOk(r.phone)
  }

  // ---------------------------------------------------------------------
  // The guard chain

  /** The phone checks, length first: a number failing both gets the length
      message. */
  function CheckPhone(phone: string): (m: Option<string>)
    ensures m.None? <==> PhoneDigitCountOk(phone) && PhoneCharsOk(phone)
    ensures !PhoneDigitCountOk(phone) ==> m == Some(MsgPhoneLength)
    ensures PhoneDigitCountOk(phone) && !PhoneCharsOk(phone) ==> m == Some(MsgPhoneChars)
  {
    var digits := DigitsOf(phone);
    if |digits| < 10 || |digits| > 15 then Some(MsgPhoneLength)
    else if !(phone != [] && forall i :: 0 <= i < |phone| ==> IsPhoneChar(phone[i])) then Some(MsgPhoneChars)
    else None
  }

  /** The checks of `POST` in their order; the first that fails decides the
      message, and `None` means every check passed. */
  function ValidateApplication(r: ApplyRequest): (m: Option<string>)
    ensures m.None? <==> AcceptableRequest(r)
    ensures !RequiredPresent(r) ==> m == Some(MsgRequired)
    ensures RequiredPresent(r) && r.educationLevel == "" ==> m == Some(MsgChooseLevel)
    ensures RequiredPresent(r) && r.educationLevel == "Mahasiswa"
              && (r.universityName == "" || r.prodi == "" || r.semester == "")
            ==> m == Some(MsgUniversityFields)
    ensures RequiredPresent(r) && r.educationLevel == "SMK"
              && (r.schoolName == "" || r.jurusan == "" || r.kelas == "")
            ==> m == Some(MsgSchoolFields)
    ensures RequiredPresent(r) && r.educationLevel != ""
              && LevelFieldsPresent(r.educationLevel, r.universityName, r.prodi, r.semester,
                                    r.schoolName, r.jurusan, r.kelas)
            ==> m == (if r.position == "" then Some(MsgChoosePosition) else CheckPhone(r.phone))
  {
    if r.name == "" || r.email == "" || r.phone == "" || r.file.None? then Some(MsgRequired)
    else if r.educationLevel == "" then Some(MsgChooseLevel)
    else if r.educationLevel == "Mahasiswa" && (r.universityName == "" || r.prodi == "" || r.semester == "") then
      Some(MsgUniversityFields)
    else if r.educationLevel == "SMK" && (r.schoolName == "" || r.jurusan == "" || r.kelas == "") then
      Some(MsgSchoolFields)
    else if r.position == "" then Some(MsgChoosePosition)
    else CheckPhone(r.phone)
  }

  /** A level other than the two named ones requires none of the level fields. */
  lemma OtherLevelNeedsNoFields(r: ApplyRequest)
    requires RequiredPresent(r) && r.educationLevel != ""
    requires r.educationLevel != "Mahasiswa" && r.educationLevel != "SMK"
    requires r.position != ""
    ensures ValidateApplication(r) == CheckPhone(r.phone)
  {
  }

  /** A plus sign may stand anywhere: inserting one at any position of a
      number made of digits and plus signs never changes the verdict. */
  lemma PlusAcceptedAnywhere(a: string, b: string)
    requires forall i :: 0 <= i < |a + b| ==> IsPhoneChar((a + b)[i])
    ensures CheckPhone(a + "+" + b) == CheckPhone(a + b)
  {
    DigitsOfAppend(a, "+");
    DigitsOfAppend(a + "+", b);
    DigitsOfAppend(a, b);
    assert DigitsOf("+") == [];
    var s := a + "+" + b;
    assert forall i :: 0 <= i < |s| ==> IsPhoneChar(s[i]) by {
      forall i | 0 <= i < |s| ensures IsPhoneChar(s[i]) {
        if i < |a| { assert s[i] == (a + b)[i]; }
        else if i > |a| { assert s[i] == (a + b)[i - 1]; }
      }
    }
  }

  lemma {:induction false} DigitsOfAppend(a: string, b: string)
    ensures DigitsOf(a + b) == DigitsOf(a) + DigitsOf(b)
  {
    if a != [] {
      DigitsOfAppend(a[1..], b);
      assert (a + b)[1..] == a[1..] + b;
    } else {
      assert a + b == b;
    }
  }

  // ---------------------------------------------------------------------
  // The account link

  /** `userId` is linked only when the field is a non-empty string that
      `parseInt` reads as a number. */
  function LinkedUserId(raw: Option<string>): (r: Option<int>)
    ensures r.Some? <==> raw.Some? && raw.value != "" && ParseInt(raw.value).Int?
    ensures r.Some? ==> ParseInt(raw.value) == Int(r.value)
  {
    match raw
    case None => None
    case Some(s) =>
      if s == "" then None
      else match ParseInt(s)
        case Int(n) => Some(n)
        case NaN => None
  }

  /** The id the form sends, written with `String`, links to that very account. */
  lemma LinkedUserIdOfString(id: int)
    ensures LinkedUserId(Some(IntString(id))) == Some(id)
  {
    ParseIntRoundTrip(id);
  }

  // ---------------------------------------------------------------------
  // GET: all applicants, newest first

  predicate NewestFirstOrder(s: seq<Applicant>)
  {
    forall i, j :: 0 <= i < j < |s| ==> s[i].createdAt >= s[j].createdAt
  }

  /** A record no older than the head of a newest-first list can go in front. */
  lemma PrependNewest(x: Applicant, s: seq<Applicant>)
    requires NewestFirstOrder(s)
    requires s == [] || x.createdAt >= s[0].createdAt
    ensures NewestFirstOrder([x] + s)
  {
    var r := [x] + s;
    forall i, j | 0 <= i < j < |r| ensures r[i].createdAt >= r[j].createdAt {
      if i == 0 {
        assert r[j] == s[j - 1];
        assert s[0].createdAt >= s[j - 1].createdAt;
      } else {
        assert r[i] == s[i - 1] && r[j] == s[j - 1];
      }
    }
  }

  /** Puts `a` into a newest-first list, before the first record that is not newer. */
  function InsertByDate(a: Applicant, s: seq<Applicant>): (r: seq<Applicant>)
    requires NewestFirstOrder(s)
    ensures NewestFirstOrder(r)
    ensures multiset(r) == multiset(s) + multiset{a}
    ensures r[0] == a || (s != [] && r[0] == s[0])
  {
    if s == [] then [a]
    else if s[0].createdAt <= a.createdAt then
      PrependNewest(a, s);
      [a] + s
    else
      var rest := InsertByDate(a, s[1..]);
      assert s == [s[0]] + s[1..];
      PrependNewest(s[0], rest);
      [s[0]] + rest
  }

  /** The `GET` listing: every stored applicant, each once, ordered by
      creation time, newest first. */
  function ListApplicants(store: seq<Applicant>): (r: seq<Applicant>)
    ensures NewestFirstOrder(r)
    ensures multiset(r) == multiset(store)
    ensures |r| == |store|
  {
    if store == [] then []
    else
      assert store == [store[0]] + store[1..];
      InsertByDate(store[0], ListApplicants(store[1..]))
  }
}
