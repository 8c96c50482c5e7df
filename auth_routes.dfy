/** `app/api/auth/register/route.ts` and `app/api/auth/login/route.ts`: the
    account store keyed by email. Registration's store write is
    `Store.Portal.Register`; login only reads. */
module AuthRoutes {
  import opened Common
  import opened Records

  const MsgEmailTaken := "Email sudah terdaftar!"
  const MsgUnknownEmail := "Email tidak ditemukan"
  const MsgWrongPassword := "Password salah"

  /** The account store after registering a new account: the password is
      stored hashed and the role exactly as given. */
  function WithAccount(users: map<string, User>, id: int, name: string, email: string,
                       password: string, role: string, h: Hasher): (r: map<string, User>)
    ensures r.Keys == users.Keys + {email}
    ensures r[email] == User(id, name, email, h.hash(password), role)
    ensures forall e :: e in users && e != email ==> r[e] == users[e]
  {
    users[email := User(id, name, email, h.hash(password), role)]
  }

  /** `POST /api/auth/login`: look the email up, compare the password with the
      stored hash, and answer with the account without its password. */
  function Login(users: map<string, User>, email: string, password: string, h: Hasher): (r: Reply<PublicUser>)
    ensures email !in users ==> r == Fail(400, MsgUnknownEmail)
    ensures email in users && !h.compare(password, users[email].password) ==> r == Fail(400, MsgWrongPassword)
    ensures r.Ok? <==> email in users && h.compare(password, users[email].password)
    ensures r.Ok? ==> r.value == PublicOf(users[email])
  {
    if email !in users then Fail(400, MsgUnknownEmail)
    else if !h.compare(password, users[email].password) then Fail(400, MsgWrongPassword)
    else Ok(PublicOf(users[email]))
  }

  /** Logging in with the password given at registration succeeds and returns
      the registered account, whatever else the store holds. */
  lemma LoginAfterRegister(users: map<string, User>, id: int, name: string, email: string,
                           password: string, role: string, h: Hasher)
    requires Sound(h)
    ensures Login(WithAccount(users, id, name, email, password, role, h), email, password, h)
            == Ok(PublicUser(id, name, email, role))
  {
    var u := WithAccount(users, id, name, email, password, role, h);
    assert h.compare(password, h.hash(password));
    assert u[email].password == h.hash(password);
  }

  /** A password that differs from the registered one within bcrypt's first
      72 bytes is refused. */
  lemma LoginOtherPasswordFails(users: map<string, User>, id: int, name: string, email: string,
                                password: string, other: string, role: string, h: Hasher)
    requires Exact(h) && BcryptKey(other) != BcryptKey(password)
    ensures Login(WithAccount(users, id, name, email, password, role, h), email, other, h)
            == Fail(400, MsgWrongPassword)
  {
    var u := WithAccount(users, id, name, email, password, role, h);
    assert u[email].password == h.hash(password);
  }

  /** A password that agrees with the registered one on its first 72 bytes
      signs in too: once the registered password fills those bytes, anything
      appended to it is accepted. */
  lemma LoginIgnoresTail(users: map<string, User>, id: int, name: string, email: string,
                         password: string, tail: string, role: string, h: Hasher)
    requires Sound(h) && Truncating(h)
    requires |Utf8(password)| >= BcryptKeyBytes
    ensures Login(WithAccount(users, id, name, email, password, role, h), email, password + tail, h)
            == Ok(PublicUser(id, name, email, role))
  {
    var u := WithAccount(users, id, name, email, password, role, h);
    BcryptKeyIgnoresTail(password, tail);
    assert u[email].password == h.hash(password);
    assert h.compare(password, h.hash(password));
    assert h.compare(password + tail, h.hash(password)) == h.compare(password, h.hash(password));
  }

  /** Registering one account does not change how any other email logs in. */
  lemma LoginOtherAccountUnaffected(users: map<string, User>, id: int, name: string, email: string,
                                    password: string, role: string, h: Hasher, e: string, p: string)
    requires e != email
    ensures Login(WithAccount(users, id, name, email, password, role, h), e, p, h) == Login(users, e, p, h)
  {
  }
}
