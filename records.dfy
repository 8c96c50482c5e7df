/** The three record kinds the portal stores (applicants, notifications,
    user accounts), the status enumeration, and the JSON shapes in which the
    browser receives them. */
module Records {
  import opened Common

  type Byte = b: int | 0 <= b < 256

  /** The review status of an application. */
  datatype Status = Pending | Accepted | Rejected

  /** The name under which a status is stored and sent as JSON. */
  function StatusName(s: Status): string
  {
    match s
    case Pending => "PENDING"
    case Accepted => "ACCEPTED"
    case Rejected => "REJECTED"
  }

  /** `["PENDING", "ACCEPTED", "REJECTED"].includes(s)`, returning the status named. */
  function ParseStatus(s: string): (r: Option<Status>)
    ensures r.Some? ==> StatusName(r.value) == s
  {
    if s == "PENDING" then Some(Pending)
    else if s == "ACCEPTED" then Some(Accepted)
    else if s == "REJECTED" then Some(Rejected)
    else None
  }

  /** Every status name parses back to its status, and only the three names parse. */
  lemma ParseStatusName(st: Status, s: string)
    ensures ParseStatus(StatusName(st)) == Some(st)
    ensures ParseStatus(s).Some? <==> s in {"PENDING", "ACCEPTED", "REJECTED"}
  {
  }

  /** An uploaded file: its name, MIME type and bytes (`size` is their count). */
  datatype Upload = Upload(name: string, mimeType: string, content: seq<Byte>)

  /** An application as stored. Optional text fields the form left out are
      stored as the empty string. */
  datatype Applicant = Applicant(
    id: int,
    name: string,
    email: string,
    phone: string,
    educationLevel: string,
    universityName: string,
    schoolName: string,
    semester: string,
    kelas: string,
    prodi: string,
    jurusan: string,
    position: string,
    fileName: string,
    fileData: seq<Byte>,
    status: Status,
    userId: Option<int>,
    createdAt: int)

  /** A message to an applicant. `sender` is absent for the messages the
      status change writes. */
  datatype Notification = Notification(
    id: int,
    applicantId: int,
    message: string,
    sender: Option<string>,
    createdAt: int)

  /** A password hash as produced by the hashing library. */
  datatype Digest = Digest(text: string)

  /** An account. `password` holds the hash, never the password itself. */
  datatype User = User(id: int, name: string, email: string, password: Digest, role: string)

  /** The account fields the authentication routes send back: no password. */
  datatype PublicUser = PublicUser(id: int, name: string, email: string, role: string)

  function PublicOf(u: User): (p: PublicUser)
    ensures p.id == u.id && p.name == u.name && p.email == u.email && p.role == u.role
  {
    PublicUser(u.id, u.name, u.email, u.role)
  }

  /** The password hashing library as a pair of functions (salted bcrypt with
      10 rounds in the source). */
  datatype Hasher = Hasher(hash: string -> Digest, compare: (string, Digest) -> bool)

  /** A hash always matches the password it was made from. */
  ghost predicate Sound(h: Hasher)
  {
    forall p :: h.compare(p, h.hash(p))
  }

  /** The UTF-8 encoding of one character. */
  function Utf8Char(c: char): (b: seq<Byte>)
    ensures 1 <= |b| <= 4
    ensures |b| == 1 <==> c as int < 0x80
  {
    var n := c as int;
    if n < 0x80 then [n]
    else if n < 0x800 then [0xC0 + n / 64, 0x80 + n % 64]
    else if n < 0x10000 then [0xE0 + n / 4096, 0x80 + (n / 64) % 64, 0x80 + n % 64]
    else [0xF0 + n / 262144, 0x80 + (n / 4096) % 64, 0x80 + (n / 64) % 64, 0x80 + n % 64]
  }

  /** The UTF-8 encoding of a string: at least one byte per character. */
  function Utf8(s: string): (b: seq<Byte>)
    ensures |b| >= |s|
  {
    if s == [] then [] else Utf8Char(s[0]) + Utf8(s[1..])
  }

  /** Encoding distributes over joining strings. */
  lemma {:induction false} Utf8Append(x: string, y: string)
    ensures Utf8(x + y) == Utf8(x) + Utf8(y)
  {
    if x != [] {
      AppendSplit(x, y);
      Utf8Append(x[1..], y);
      AppendAssociative(Utf8Char(x[0]), Utf8(x[1..]), Utf8(y));
    } else {
      assert x + y == y;
    }
  }

  /** bcrypt reads at most this many bytes of a password. */
  const BcryptKeyBytes := 72

  /** The part of a password bcrypt reads: the first 72 bytes of its UTF-8
      encoding. */
  function BcryptKey(p: string): (k: seq<Byte>)
    ensures |k| <= BcryptKeyBytes
    ensures |k| <= |Utf8(p)| && k == Utf8(p)[..|k|]
    ensures |k| < BcryptKeyBytes ==> k == Utf8(p)
  {
    var b := Utf8(p);
    if |b| <= BcryptKeyBytes then b else b[..BcryptKeyBytes]
  }

  /** Once a password fills bcrypt's 72 bytes, whatever follows it is not read. */
  lemma BcryptKeyIgnoresTail(p: string, tail: string)
    requires |Utf8(p)| >= BcryptKeyBytes
    ensures BcryptKey(p + tail) == BcryptKey(p)
  {
    Utf8Append(p, tail);
    assert (Utf8(p) + Utf8(tail))[..BcryptKeyBytes] == Utf8(p)[..BcryptKeyBytes];
  }

  /** A hash matches only passwords that agree with the hashed one on the
      bytes bcrypt reads (hash collisions beyond that are ignored). This is
      meant for passwords without the NUL character: bcrypt ends the key
      with a NUL and repeats it, so a NUL inside a password can make two
      different keys hash alike. */
  ghost predicate Exact(h: Hasher)
  {
    forall p, q :: h.compare(p, h.hash(q)) ==> BcryptKey(p) == BcryptKey(q)
  }

  /** The comparison reads only the first 72 bytes of the password, as
      bcrypt does. */
  ghost predicate Truncating(h: Hasher)
  {
    forall p, q, d :: BcryptKey(p) == BcryptKey(q) ==> h.compare(p, d) == h.compare(q, d)
  }

  /** An applicant as the browser receives it from `GET /api/apply`: the
      status as a string and the linked account's id, if any. */
  datatype ApplicantView = ApplicantView(
    id: int,
    name: string,
    email: string,
    status: string,
    linkedUserId: Option<int>,
    createdAt: int)

  function ViewOf(a: Applicant): (v: ApplicantView)
    ensures v.id == a.id && v.email == a.email && v.linkedUserId == a.userId
    ensures ParseStatus(v.status) == Some(a.status)
  {
    ApplicantView(a.id, a.name, a.email, StatusName(a.status), a.userId, a.createdAt)
  }

  function ViewsOf(s: seq<Applicant>): (r: seq<ApplicantView>)
    ensures |r| == |s|
    ensures forall i :: 0 <= i < |s| ==> r[i] == ViewOf(s[i])
  {
    if s == [] then [] else [ViewOf(s[0])] + ViewsOf(s[1..])
  }
}
