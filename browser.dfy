/** The browser's `localStorage` as the pages use it: the signed-in account
    under the key `user` (as JSON) and the applicant id under `applicantId`
    (as the decimal string `String(id)` writes). */
module Browser {
  import opened Common
  import opened Records

  /** The account object the pages keep: what the authentication routes
      return, or the fallback the home page builds from its form (no id). */
  datatype SessionUser = SessionUser(id: Option<int>, name: string, email: string, role: string)

  /** The value under `user`: JSON of an account, or text `JSON.parse` rejects. */
  datatype StoredUser = Json(user: SessionUser) | Corrupt

  /** The account the authentication routes send back, as the pages keep it. */
  function SessionOf(p: PublicUser): (u: SessionUser)
    ensures u.id == Some(p.id) && u.name == p.name && u.email == p.email && u.role == p.role
  {
    SessionUser(Some(p.id), p.name, p.email, p.role)
  }

  class Storage {
    var user: Option<StoredUser>
    var applicantId: Option<string>

    constructor ()
      ensures user == None && applicantId == None
    {
      user := None;
      applicantId := None;
    }
  }
}
