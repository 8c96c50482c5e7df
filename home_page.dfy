/** `app/page.tsx`: the landing page. On load it restores the signed-in
    account and the applicant id from storage, looking the applicant up by
    account when no id is stored; its dialog signs in or registers and then
    redirects by role; and it shows the applicant's bell only to a USER
    with an applicant id. */
module HomePageComponent {
  import opened Common
  import opened Records
  import opened AuthRoutes
  import opened Browser
  import opened NotificationsWidgetComponent

  // ---------------------------------------------------------------------
  // The dialog

  /** The three modes of the dialog. */
  datatype AuthMode = SignIn | RegisterUser | RegisterAdmin

  const LoginUrl := "/api/auth/login"
  const RegisterUrl := "/api/auth/register"
  const LoginSuccess := "LOGIN_SUCCESS"

  /** The route the dialog posts to. */
  function Endpoint(mode: AuthMode): (url: string)
    ensures url == LoginUrl <==> mode == SignIn
    ensures url == RegisterUrl <==> mode != SignIn
  {
    if mode == SignIn then LoginUrl else RegisterUrl
  }

  /** The role the dialog sends (sign-in sends one too, and the route ignores it). */
  function RoleFor(mode: AuthMode): (role: string)
    ensures role == "ADMIN" <==> mode == RegisterAdmin
    ensures role == "USER" <==> mode != RegisterAdmin
  {
    if mode == RegisterAdmin then "ADMIN" else "USER"
  }

  /** Where the page goes after a successful sign-in or registration. */
  function RedirectTarget(role: string): (target: string)
    ensures target == "/admin" <==> role == "ADMIN"
    ensures target == "/" <==> role != "ADMIN"
  {
    if role == "ADMIN" then "/admin" else "/"
  }

  /** Whoever registers as an administrator and then signs in with the same
      password lands on the review page; whoever registers as a user lands
      on the home page. */
  lemma RegisterThenSignInRedirect(users: map<string, User>, id: int, name: string, email: string,
                                   password: string, mode: AuthMode, h: Hasher)
    requires Sound(h)
    ensures var r := Login(WithAccount(users, id, name, email, password, RoleFor(mode), h), email, password, h);
            && r.Ok?
            && (RedirectTarget(SessionOf(r.value).role) == "/admin" <==> mode == RegisterAdmin)
  {
    LoginAfterRegister(users, id, name, email, password, RoleFor(mode), h);
  }

  /** The dialog's `form` state. */
  datatype Form = Form(name: string, email: string, password: string)

  const EmptyForm := Form("", "", "")

  /** What the authentication route answered: success (with or without the
      account) or failure with a message. */
  datatype AuthReply = Success(user: Option<SessionUser>) | Failure(message: string)

  // ---------------------------------------------------------------------
  // Finding the applicant of an account

  /** The test `checkAuth` applies to each applicant: by account id when both
      ids are present and non-zero, otherwise by email. */
  predicate Matches(a: ApplicantView, u: SessionUser): (r: bool)
    ensures u.id.Some? && u.id.value != 0 && a.linkedUserId == u.id ==> r
    ensures r ==> a.linkedUserId == u.id || a.email == u.email
  {
    if a.linkedUserId.Some? && a.linkedUserId.value != 0 && u.id.Some? && u.id.value != 0
    then a.linkedUserId.value == u.id.value
    else a.email == u.email
  }

  /** `applicants.find`: the position of the first applicant that matches. */
  function FirstMatch(list: seq<ApplicantView>, u: SessionUser): (r: Option<nat>)
    ensures r.Some? ==> r.value < |list| && Matches(list[r.value], u)
    ensures r.Some? ==> forall j :: 0 <= j < r.value ==> !Matches(list[j], u)
    ensures r.None? <==> forall j :: 0 <= j < |list| ==> !Matches(list[j], u)
  {
    if list == [] then None
    else if Matches(list[0], u) then Some(0)
    else match FirstMatch(list[1..], u)
      case None => None
      case Some(k) => Some(k + 1)
  }

  /** An applicant linked to the account is matched by id even when it was
      filed under another email, and an applicant linked to another account
      is not matched even when it was filed under the account's email. */
  lemma MatchPrefersLink(a: ApplicantView, u: SessionUser)
    requires a.linkedUserId.Some? && a.linkedUserId.value != 0 && u.id.Some? && u.id.value != 0
    ensures Matches(a, u) <==> a.linkedUserId == u.id
  {
  }

  /** The bell is shown to a USER whose applicant id is a non-zero number:
      exactly when the id passes the bell's own fetch test. */
  predicate ShowsWidget(role: Option<string>, id: Option<JsNumber>): (r: bool)
    ensures r <==> role == Some("USER") && id.Some? && ShouldFetch(id.value)
  {
    role == Some("USER") && id.Some? && id.value.Int? && id.value.n != 0
  }

  /** Whenever the page shows the bell, the bell has an id to fetch for. */
  lemma ShownWidgetFetches(role: Option<string>, id: Option<JsNumber>, stored: Option<string>)
    requires ShowsWidget(role, id)
    ensures ShouldFetch(ResolveId(id, stored))
    ensures ResolveId(id, stored) == id.value
  {
  }

  // ---------------------------------------------------------------------
  // The page

  class HomePage {
    var showLogin: bool
    var mode: AuthMode
    var form: Form
    var popup: Option<string>
    var isLoggedIn: bool
    var userName: Option<string>
    var userRole: Option<string>
    var applicantId: Option<JsNumber>
    /** The location the two-second timer will send the browser to. */
    var redirect: Option<string>

    constructor ()
      ensures !showLogin && mode == SignIn && form == EmptyForm
      ensures popup == None && !isLoggedIn && userName == None && userRole == None
      ensures applicantId == None && redirect == None
    {
      showLogin := false;
      mode := SignIn;
      form := EmptyForm;
      popup := None;
      isLoggedIn := false;
      userName := None;
      userRole := None;
      applicantId := None;
      redirect := None;
    }

    /** The first half of `checkAuth`: unreadable stored JSON signs the
        page out, a stored account signs it in, and no entry changes
        nothing. The readable account is returned. */
    method RestoreAccount(storage: Storage) returns (user: Option<SessionUser>)
      modifies this
      ensures storage.user == Some(Corrupt) ==> !isLoggedIn && userName == old(userName) && userRole == old(userRole)
      ensures storage.user == None ==> isLoggedIn == old(isLoggedIn) && userName == old(userName) && userRole == old(userRole)
      ensures user.Some? <==> storage.user.Some? && storage.user.value.Json?
      ensures user.Some? ==> user.value == storage.user.value.user
                             && isLoggedIn && userName == Some(user.value.name) && userRole == Some(user.value.role)
      ensures applicantId == old(applicantId) && showLogin == old(showLogin) && mode == old(mode)
      ensures form == old(form) && popup == old(popup) && redirect == old(redirect)
    {
      user := None;
      if storage.user.Some? {
        match storage.user.value
        case Corrupt =>
          isLoggedIn := false;
        case Json(u) =>
          user := Some(u);
          isLoggedIn := true;
          userName := Some(u.name);
          userRole := Some(u.role);
      }
    }

    /** `checkAuth`. After the account is restored (unreadable JSON ends it
        there), a stored applicant id is read with `parseInt`; without one,
        a USER's account is returned so that the applicant list can be
        fetched and searched. */
    method CheckAuth(storage: Storage) returns (lookup: Option<SessionUser>)
      modifies this
      ensures storage.user == Some(Corrupt) ==>
                !isLoggedIn && lookup == None && applicantId == old(applicantId)
                && userName == old(userName) && userRole == old(userRole)
      ensures storage.user != Some(Corrupt) ==>
                var hasId := storage.applicantId.Some? && storage.applicantId.value != "";
                && (hasId ==> applicantId == Some(ParseInt(storage.applicantId.value)) && lookup == None)
                && (!hasId ==> applicantId == old(applicantId))
                && (!hasId && storage.user.Some? && storage.user.value.user.role == "USER" ==>
                      lookup == Some(storage.user.value.user))
                && (!hasId && (storage.user.None? || storage.user.value.user.role != "USER") ==> lookup == None)
      ensures storage.user == None ==> isLoggedIn == old(isLoggedIn) && userName == old(userName) && userRole == old(userRole)
      ensures (storage.user.Some? && storage.user.value.Json?) ==>
                isLoggedIn && userName == Some(storage.user.value.user.name)
                && userRole == Some(storage.user.value.user.role)
      ensures showLogin == old(showLogin) && mode == old(mode) && form == old(form)
      ensures popup == old(popup) && redirect == old(redirect)
    {
      lookup := None;
      var user := RestoreAccount(storage);
      if storage.user == Some(Corrupt) {
        return;
      }
      if storage.applicantId.Some? && storage.applicantId.value != "" {
        applicantId := Some(ParseInt(storage.applicantId.value));
      } else if user.Some? && user.value.role == "USER" {
        lookup := user;
      }
    }

    /** The end of `checkAuth`'s lookup: the first matching applicant with a
        non-zero id is stored and shown; a failed fetch or no match changes
        nothing. */
    method MatchStoredUser(storage: Storage, u: SessionUser, response: Option<seq<ApplicantView>>)
      modifies this, storage
      ensures var k := if response.Some? then FirstMatch(response.value, u) else None;
              && (k.Some? && response.value[k.value].id != 0 ==>
                    var id := response.value[k.value].id;
                    storage.applicantId == Some(IntString(id)) && applicantId == Some(Int(id)))
              && (!(k.Some? && response.value[k.value].id != 0) ==>
                    storage.applicantId == old(storage.applicantId) && applicantId == old(applicantId))
      ensures storage.user == old(storage.user)
      ensures isLoggedIn == old(isLoggedIn) && userName == old(userName) && userRole == old(userRole)
      ensures showLogin == old(showLogin) && mode == old(mode) && popup == old(popup) && redirect == old(redirect)
      ensures form == old(form)
    {
      if response.None? {
        return;
      }
      var k := FirstMatch(response.value, u);
      if k.Some? && response.value[k.value].id != 0 {
        var id := response.value[k.value].id;
        storage.applicantId := Some(IntString(id));
        applicantId := Some(Int(id));
      }
    }

    /** The request `handleSubmit` posts: the route and the role for the
        current mode. */
    method Submit() returns (url: string, role: string)
      ensures url == Endpoint(mode) && role == RoleFor(mode)
      ensures (url == RegisterUrl && role == "ADMIN") <==> mode == RegisterAdmin
    {
      url := Endpoint(mode);
      role := RoleFor(mode);
    }

    /** The end of `handleSubmit`. On success the account (or, when the route
        sent none, one made from the form and the mode) is stored and shown,
        the dialog closes, the form clears, and the redirect by role is
        scheduled; on failure the route's message is shown. */
    method ReceiveAuthReply(storage: Storage, reply: AuthReply)
      modifies this, storage
      ensures reply.Failure? ==>
                popup == Some(reply.message) && storage.user == old(storage.user)
                && isLoggedIn == old(isLoggedIn) && userName == old(userName) && userRole == old(userRole)
                && showLogin == old(showLogin) && redirect == old(redirect)
                && form == old(form)
      ensures reply.Success? ==>
                var u := if reply.user.Some? then reply.user.value
                         else SessionUser(None, old(form).name, old(form).email, RoleFor(old(mode)));
                && storage.user == Some(Json(u))
                && isLoggedIn && userName == Some(u.name) && userRole == Some(u.role)
                && !showLogin && form == EmptyForm
                && popup == Some(LoginSuccess) && redirect == Some(RedirectTarget(u.role))
      ensures storage.applicantId == old(storage.applicantId)
      ensures mode == old(mode) && applicantId == old(applicantId)
    {
      match reply
      case Failure(message) =>
        popup := Some(message);
      case Success(user) =>
        var u := if user.Some? then user.value else SessionUser(None, form.name, form.email, RoleFor(mode));
        storage.user := Some(Json(u));
        isLoggedIn := true;
        userName := Some(u.name);
        userRole := Some(u.role);
        showLogin := false;
        form := EmptyForm;
        popup := Some(LoginSuccess);
        redirect := Some(RedirectTarget(u.role));
    }

    /** `handleLogout`: both stored entries and the signed-in state go. */
    method HandleLogout(storage: Storage)
      modifies this, storage
      ensures storage.user == None && storage.applicantId == None
      ensures !isLoggedIn && userName == None && userRole == None && applicantId == None
      ensures !ShowsWidget(userRole, applicantId)
      ensures showLogin == old(showLogin) && mode == old(mode) && popup == old(popup) && redirect == old(redirect)
      ensures form == old(form)
    {
      storage.user := None;
      storage.applicantId := None;
      isLoggedIn := false;
      userName := None;
      userRole := None;
      applicantId := None;
    }
  }
}
