/** The portal's three record stores in memory and the four server routes that
    write them: `POST /api/apply`, `POST /api/update-status`,
    `POST /api/notifications` and `POST /api/auth/register`. Identifiers are
    handed out by counters starting at 1, as an auto-increment column does;
    `now` is the clock reading the store stamps on a new row. */
module Store {
  import opened Common
  import opened Records
  import opened ApplyRoute
  import opened UpdateStatusRoute
  import opened NotificationsRoute
  import opened AuthRoutes

  // ---------------------------------------------------------------------
  // Queries on the applicant table

  predicate IdUsed(s: seq<Applicant>, id: int)
  {
    exists i :: 0 <= i < |s| && s[i].id == id
  }

  /** `findFirst({ where: { email } })` finds a row. */
  predicate EmailTaken(s: seq<Applicant>, email: string)
  {
    exists i :: 0 <= i < |s| && s[i].email == email
  }

  predicate UserIdExists(users: map<string, User>, id: int)
  {
    exists e :: e in users && users[e].id == id
  }

  /** The account link names an existing account, or there is none. */
  predicate LinkResolves(users: map<string, User>, uid: Option<int>)
  {
    uid.None? || UserIdExists(users, uid.value)
  }

  /** `findUnique({ where: { id } })`. */
  function Lookup(s: seq<Applicant>, id: int): (r: Option<Applicant>)
    ensures r.Some? <==> IdUsed(s, id)
    ensures r.Some? ==> r.value in s && r.value.id == id
  {
    if s == [] then None
    else if s[0].id == id then Some(s[0])
    else
      var r := Lookup(s[1..], id);
      assert IdUsed(s, id) ==> s[0].id == id || IdUsed(s[1..], id) by {
        if IdUsed(s, id) {
          var i :| 0 <= i < |s| && s[i].id == id;
          if i > 0 { assert s[1..][i - 1].id == id; }
        }
      }
      assert IdUsed(s[1..], id) ==> IdUsed(s, id) by {
        if IdUsed(s[1..], id) {
          var i :| 0 <= i < |s[1..]| && s[1..][i].id == id;
          assert s[i + 1].id == id;
        }
      }
      r
  }

  /** `update({ where: { id }, data: { status } })`: the status of the row with
      that id becomes `st`; every other field and every other row stays. */
  function SetStatus(s: seq<Applicant>, id: int, st: Status): (r: seq<Applicant>)
    ensures |r| == |s|
    ensures forall i :: 0 <= i < |s| && s[i].id == id ==> r[i] == s[i].(status := st)
    ensures forall i :: 0 <= i < |s| && s[i].id != id ==> r[i] == s[i]
  {
    if s == [] then []
    else [if s[0].id == id then s[0].(status := st) else s[0]] + SetStatus(s[1..], id, st)
  }

  /** Two status changes in a row leave the second status: the last write wins,
      whatever the first one was. */
  lemma SetStatusLastWriteWins(s: seq<Applicant>, id: int, a: Status, b: Status)
    ensures SetStatus(SetStatus(s, id, a), id, b) == SetStatus(s, id, b)
  {
    var x := SetStatus(SetStatus(s, id, a), id, b);
    var y := SetStatus(s, id, b);
    assert |x| == |y|;
    forall i | 0 <= i < |x| ensures x[i] == y[i] {
    }
  }

  /** A status change is seen by the next lookup of that id, with the new
      status and nothing else changed, and by no lookup of another id. */
  lemma {:induction false} LookupAfterSetStatus(s: seq<Applicant>, id: int, st: Status, other: int)
    ensures Lookup(SetStatus(s, id, st), id)
            == (if Lookup(s, id).Some? then Some(Lookup(s, id).value.(status := st)) else None)
    ensures other != id ==> Lookup(SetStatus(s, id, st), other) == Lookup(s, other)
  {
    if s != [] {
      LookupAfterSetStatus(s[1..], id, st, other);
      var r := SetStatus(s, id, st);
      assert r[1..] == SetStatus(s[1..], id, st);
    }
  }

  /** A status change keeps every row's id, email and account link, so it
      keeps the table's keys and links. */
  lemma SetStatusKeepsKeys(s: seq<Applicant>, id: int, st: Status)
    ensures forall i :: 0 <= i < |s| ==>
              && SetStatus(s, id, st)[i].id == s[i].id
              && SetStatus(s, id, st)[i].email == s[i].email
              && SetStatus(s, id, st)[i].userId == s[i].userId
    ensures forall x :: IdUsed(SetStatus(s, id, st), x) <==> IdUsed(s, x)
  {
    var r := SetStatus(s, id, st);
    forall x ensures IdUsed(r, x) <==> IdUsed(s, x) {
      if IdUsed(r, x) {
        var i :| 0 <= i < |r| && r[i].id == x;
        assert s[i].id == x;
      }
      if IdUsed(s, x) {
        var i :| 0 <= i < |s| && s[i].id == x;
        assert r[i].id == x;
      }
    }
  }

  /** Appending a row keeps every id that was in use. */
  lemma IdUsedAppend(s: seq<Applicant>, a: Applicant)
    ensures forall x :: IdUsed(s, x) ==> IdUsed(s + [a], x)
  {
    forall x | IdUsed(s, x) ensures IdUsed(s + [a], x) {
      var i :| 0 <= i < |s| && s[i].id == x;
      assert (s + [a])[i].id == x;
    }
  }

  /** The row `POST /api/apply` creates from an accepted submission. */
  function NewApplicant(r: ApplyRequest, id: int, now: int): (a: Applicant)
    requires r.file.Some?
    ensures a.status == Pending
    ensures a.fileName == r.file.value.name && a.fileData == r.file.value.content
    ensures a.userId == LinkedUserId(r.userId)
    ensures a.id == id && a.name == r.name && a.email == r.email && a.phone == r.phone
    ensures a.educationLevel == r.educationLevel && a.kelas == r.kelas
    ensures a.universityName == r.universityName && a.prodi == r.prodi && a.semester == r.semester
    ensures a.schoolName == r.schoolName && a.jurusan == r.jurusan
    ensures a.position == r.position && a.createdAt == now
  {
    Applicant(id, r.name, r.email, r.phone, r.educationLevel, r.universityName, r.schoolName,
              r.semester, r.kelas, r.prodi, r.jurusan, r.position,
              r.file.value.name, r.file.value.content, Pending, LinkedUserId(r.userId), now)
  }

  // ---------------------------------------------------------------------
  // The invariants of the stores

  /** Applicant ids are distinct and in `[1, next)`, emails are unique, and
      every account link points at an existing account. */
  ghost predicate ApplicantsOk(apps: seq<Applicant>, users: map<string, User>, next: int)
  {
    && (forall i :: 0 <= i < |apps| ==> 1 <= apps[i].id < next)
    && (forall i, j :: 0 <= i < j < |apps| ==> apps[i].id != apps[j].id)
    && (forall i, j :: 0 <= i < j < |apps| ==> apps[i].email != apps[j].email)
    && (forall i :: 0 <= i < |apps| ==> LinkResolves(users, apps[i].userId))
  }

  /** Notification ids are distinct and in `[1, next)`, and each one names an
      existing applicant. */
  ghost predicate NotificationsOk(notes: seq<Notification>, apps: seq<Applicant>, next: int)
  {
    && (forall i :: 0 <= i < |notes| ==> 1 <= notes[i].id < next && IdUsed(apps, notes[i].applicantId))
    && (forall i, j :: 0 <= i < j < |notes| ==> notes[i].id != notes[j].id)
  }

  /** Accounts are keyed by their own email and carry distinct ids in `[1, next)`. */
  ghost predicate UsersOk(users: map<string, User>, next: int)
  {
    && (forall e :: e in users ==> users[e].email == e && 1 <= users[e].id < next)
    && (forall e, f :: e in users && f in users && e != f ==> users[e].id != users[f].id)
  }

  /** A status change keeps the applicant invariant and every notification's link. */
  lemma StatusChangeKeepsInvariant(apps: seq<Applicant>, users: map<string, User>, notes: seq<Notification>,
                                   na: int, nn: int, id: int, st: Status)
    requires ApplicantsOk(apps, users, na) && NotificationsOk(notes, apps, nn)
    ensures ApplicantsOk(SetStatus(apps, id, st), users, na)
    ensures NotificationsOk(notes, SetStatus(apps, id, st), nn)
  {
    SetStatusKeepsKeys(apps, id, st);
  }

  /** A notification for an existing applicant, numbered by the counter,
      keeps the notification invariant. */
  lemma NewNotificationKeepsInvariant(notes: seq<Notification>, apps: seq<Applicant>, nn: int, n: Notification)
    requires NotificationsOk(notes, apps, nn) && nn >= 1
    requires n.id == nn && IdUsed(apps, n.applicantId)
    ensures NotificationsOk(notes + [n], apps, nn + 1)
  {
  }

  /** A new applicant numbered by the counter, with an unused email and a
      resolvable link, keeps the applicant invariant, and every notification
      keeps its link. */
  lemma NewApplicantKeepsInvariant(apps: seq<Applicant>, users: map<string, User>, notes: seq<Notification>,
                                   na: int, nn: int, a: Applicant)
    requires ApplicantsOk(apps, users, na) && NotificationsOk(notes, apps, nn) && na >= 1
    requires a.id == na && !EmailTaken(apps, a.email) && LinkResolves(users, a.userId)
    ensures ApplicantsOk(apps + [a], users, na + 1)
    ensures NotificationsOk(notes, apps + [a], nn)
  {
    IdUsedAppend(apps, a);
  }

  /** A new account with a free email, numbered by the counter, keeps the
      account invariant and every applicant's link. */
  lemma NewAccountKeepsInvariant(users: map<string, User>, apps: seq<Applicant>, na: int, nu: int, u: User)
    requires UsersOk(users, nu) && ApplicantsOk(apps, users, na) && nu >= 1
    requires u.id == nu && u.email !in users
    ensures UsersOk(users[u.email := u], nu + 1)
    ensures ApplicantsOk(apps, users[u.email := u], na)
  {
    var after := users[u.email := u];
    forall i | 0 <= i < |apps| ensures LinkResolves(after, apps[i].userId) {
      if apps[i].userId.Some? {
        var e :| e in users && users[e].id == apps[i].userId.value;
        assert after[e] == users[e];
      }
    }
  }

  // ---------------------------------------------------------------------
  // The stores

  class Portal {
    var applicants: seq<Applicant>
    var notifications: seq<Notification>
    var users: map<string, User>
    /** The mails handed to the transport, delivered or not. */
    var outbox: seq<Mail>
    var nextApplicantId: int
    var nextNotificationId: int
    var nextUserId: int

    ghost predicate Valid()
      reads this
    {
      && nextApplicantId >= 1 && nextNotificationId >= 1 && nextUserId >= 1
      && ApplicantsOk(applicants, users, nextApplicantId)
      && NotificationsOk(notifications, applicants, nextNotificationId)
      && UsersOk(users, nextUserId)
    }

    constructor ()
      ensures Valid()
      ensures applicants == [] && notifications == [] && users == map[] && outbox == []
    {
      applicants, notifications, users, outbox := [], [], map[], [];
      nextApplicantId, nextNotificationId, nextUserId := 1, 1, 1;
    }

    /** `POST /api/apply`. The guard chain first, then the duplicate-email
        check, then one insert with status PENDING. Nothing but the applicant
        table changes, and it changes only on success. */
    method Apply(req: ApplyRequest, now: int) returns (r: Reply<Applicant>)
      requires Valid()
      modifies this
      ensures Valid()
      ensures notifications == old(notifications) && users == old(users) && outbox == old(outbox)
      ensures ValidateApplication(req).Some? ==> r == Fail(400, ValidateApplication(req).value)
      ensures ValidateApplication(req).None? && EmailTaken(old(applicants), req.email)
              ==> r == Fail(400, MsgDuplicateEmail)
      ensures ValidateApplication(req).None? && !EmailTaken(old(applicants), req.email)
              && !LinkResolves(old(users), LinkedUserId(req.userId))
              ==> r == Fail(500, MsgInternal)
      ensures r.Ok? <==> ValidateApplication(req).None? && !EmailTaken(old(applicants), req.email)
                         && LinkResolves(old(users), LinkedUserId(req.userId))
      ensures r.Fail? ==> applicants == old(applicants)
      ensures nextApplicantId == old(nextApplicantId) + (if r.Ok? then 1 else 0)
      ensures nextNotificationId == old(nextNotificationId) && nextUserId == old(nextUserId)
      ensures r.Ok? ==> req.file.Some? && r.value == NewApplicant(req, old(nextApplicantId), now)
                        && applicants == old(applicants) + [r.value]
    {
      var invalid := ValidateApplication(req);
      if invalid.Some? {
        return Fail(400, invalid.value);
      }
      if EmailTaken(applicants, req.email) {
        return Fail(400, MsgDuplicateEmail);
      }
      var uid := LinkedUserId(req.userId);
      if !LinkResolves(users, uid) {
        // the store refuses a link to an account that does not exist
        return Fail(500, MsgInternal);
      }
      var a := NewApplicant(req, nextApplicantId, now);
      NewApplicantKeepsInvariant(applicants, users, notifications, nextApplicantId, nextNotificationId, a);
      applicants := applicants + [a];
      nextApplicantId := nextApplicantId + 1;
      r := Ok(a);
    }

    /** `applicant.update`: the row with id `n` takes status `st`. */
    method ChangeStatus(n: int, st: Status)
      requires Valid() && IdUsed(applicants, n)
      modifies this
      ensures Valid()
      ensures applicants == SetStatus(old(applicants), n, st)
      ensures notifications == old(notifications) && users == old(users) && outbox == old(outbox)
      ensures nextApplicantId == old(nextApplicantId) && nextNotificationId == old(nextNotificationId)
      ensures nextUserId == old(nextUserId)
    {
      StatusChangeKeepsInvariant(applicants, users, notifications, nextApplicantId, nextNotificationId, n, st);
      applicants := SetStatus(applicants, n, st);
    }

    /** `notification.create`: one notification for an existing applicant,
        numbered by the counter. */
    method CreateNotification(applicantId: int, message: string, sender: Option<string>, now: int)
      returns (note: Notification)
      requires Valid() && IdUsed(applicants, applicantId)
      modifies this
      ensures Valid()
      ensures note == Notification(old(nextNotificationId), applicantId, message, sender, now)
      ensures notifications == old(notifications) + [note]
      ensures applicants == old(applicants) && users == old(users) && outbox == old(outbox)
      ensures nextNotificationId == old(nextNotificationId) + 1
      ensures nextApplicantId == old(nextApplicantId) && nextUserId == old(nextUserId)
    {
      note := Notification(nextNotificationId, applicantId, message, sender, now);
      NewNotificationKeepsInvariant(notifications, applicants, nextNotificationId, note);
      notifications := notifications + [note];
      nextNotificationId := nextNotificationId + 1;
    }

    /** `POST /api/update-status`. After validation, the status of the row is
        overwritten whatever it was, then exactly one notification with the
        status's fixed text is appended. An unknown or non-numeric id fails in
        the store: nothing is written. */
    method UpdateStatus(id: JsonId, status: string, now: int) returns (r: Reply<Applicant>)
      requires Valid()
      modifies this
      ensures Valid()
      ensures users == old(users) && outbox == old(outbox)
      ensures ValidateStatusUpdate(id, status).Fail? ==>
                r == Fail(ValidateStatusUpdate(id, status).code, ValidateStatusUpdate(id, status).message)
      ensures ValidateStatusUpdate(id, status).Ok? && !(id.Number? && IdUsed(old(applicants), id.n))
              ==> r == Fail(500, UpdateStatusRoute.MsgFailed)
      ensures r.Ok? <==> ValidateStatusUpdate(id, status).Ok? && id.Number? && IdUsed(old(applicants), id.n)
      ensures r.Fail? ==> applicants == old(applicants) && notifications == old(notifications)
      ensures nextNotificationId == old(nextNotificationId) + (if r.Ok? then 1 else 0)
      ensures nextApplicantId == old(nextApplicantId) && nextUserId == old(nextUserId)
      ensures r.Ok? ==>
                var st := ValidateStatusUpdate(id, status).value;
                && applicants == SetStatus(old(applicants), id.n, st)
                && r.value == Lookup(old(applicants), id.n).value.(status := st)
                && notifications == old(notifications)
                     + [Notification(old(nextNotificationId), id.n, StatusMessage(st), None, now)]
    {
      var checked := ValidateStatusUpdate(id, status);
      if checked.Fail? {
        return Fail(checked.code, checked.message);
      }
      var st := checked.value;
      if !id.Number? || Lookup(applicants, id.n).None? {
        // the store rejects a string id or an id with no row
        return Fail(500, UpdateStatusRoute.MsgFailed);
      }
      var n := id.n;
      var updated := Lookup(applicants, n).value.(status := st);
      ChangeStatus(n, st);
      var _ := CreateNotification(n, StatusMessage(st), None, now);
      r := Ok(updated);
    }

    /** `POST /api/notifications`. After validation and the applicant lookup,
        one notification is appended and a mail to the applicant's address is
        handed to the transport. When the transport fails the reply is a
        failure, but the notification stays. */
    method SendNotification(applicantId: JsonId, message: string, sender: string,
                            mailDelivered: bool, now: int) returns (r: Reply<Notification>)
      requires Valid()
      modifies this
      ensures Valid()
      ensures applicants == old(applicants) && users == old(users)
      ensures nextApplicantId == old(nextApplicantId) && nextUserId == old(nextUserId)
      ensures nextNotificationId == old(nextNotificationId) + (if |notifications| > |old(notifications)| then 1 else 0)
      ensures ValidateNotification(applicantId, message).Fail? ==>
                r == Fail(ValidateNotification(applicantId, message).code,
                          ValidateNotification(applicantId, message).message)
                && notifications == old(notifications) && outbox == old(outbox)
      ensures ValidateNotification(applicantId, message).Ok?
              && !IdUsed(old(applicants), ValidateNotification(applicantId, message).value) ==>
                r == Fail(404, MsgNotFound)
                && notifications == old(notifications) && outbox == old(outbox)
      ensures ValidateNotification(applicantId, message).Ok?
              && IdUsed(old(applicants), ValidateNotification(applicantId, message).value) ==>
                var id := ValidateNotification(applicantId, message).value;
                var note := Notification(old(nextNotificationId), id, message, Some(SenderLabel(sender)), now);
                && notifications == old(notifications) + [note]
                && outbox == old(outbox) + [Mail(Lookup(old(applicants), id).value.email, MailSubject,
                                                 SenderLabel(sender), message)]
                && r == (if mailDelivered then Ok(note) else Fail(500, NotificationsRoute.MsgFailed))
    {
      var checked := ValidateNotification(applicantId, message);
      if checked.Fail? {
        return Fail(checked.code, checked.message);
      }
      var id := checked.value;
      var found := Lookup(applicants, id);
      if found.None? {
        return Fail(404, MsgNotFound);
      }
      var note := CreateNotification(id, message, Some(SenderLabel(sender)), now);
      // the mail is attempted only after the row is written
      outbox := outbox + [Mail(found.value.email, MailSubject, SenderLabel(sender), message)];
      if !mailDelivered {
        return Fail(500, NotificationsRoute.MsgFailed);
      }
      r := Ok(note);
    }

    /** `POST /api/auth/register`. A taken email is refused; otherwise the
        account is stored with the hashed password and the role as given, and
        the reply leaves the password out. */
    method Register(name: string, email: string, password: string, role: string, h: Hasher)
      returns (r: Reply<PublicUser>)
      requires Valid()
      modifies this
      ensures Valid()
      ensures applicants == old(applicants) && notifications == old(notifications) && outbox == old(outbox)
      ensures nextUserId == old(nextUserId) + (if r.Ok? then 1 else 0)
      ensures nextApplicantId == old(nextApplicantId) && nextNotificationId == old(nextNotificationId)
      ensures email in old(users) ==> r == Fail(400, MsgEmailTaken) && users == old(users)
      ensures email !in old(users) ==>
                && users == WithAccount(old(users), old(nextUserId), name, email, password, role, h)
                && r == Ok(PublicUser(old(nextUserId), name, email, role))
    {
      if email in users {
        return Fail(400, MsgEmailTaken);
      }
      var id := nextUserId;
      NewAccountKeepsInvariant(users, applicants, nextApplicantId, id,
                               User(id, name, email, h.hash(password), role));
      users := WithAccount(users, id, name, email, password, role, h);
      nextUserId := nextUserId + 1;
      r := Ok(PublicOf(users[email]));
    }
  }
}
