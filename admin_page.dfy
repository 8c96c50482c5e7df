/** `app/admin/page.tsx`: the review page. It admits only a stored account
    with role ADMIN, lists the applicants under a status filter with counts
    and colours, offers the accept/reject decision for pending applications,
    and sends free-text notifications. */
module AdminPageComponent {
  import opened Common
  import opened Records
  import opened Browser

  // ---------------------------------------------------------------------
  // The list, its filter and its counts

  /** The applicants whose status is exactly `name`, in list order. */
  function WithStatus(list: seq<ApplicantView>, name: string): (r: seq<ApplicantView>)
    ensures |r| <= |list|
  {
    if list == [] then []
    else (if list[0].status == name then [list[0]] else []) + WithStatus(list[1..], name)
  }

  /** The filtered list holds exactly the applicants of the list with that
      status. */
  lemma {:induction false} WithStatusMembers(list: seq<ApplicantView>, name: string)
    ensures forall i :: 0 <= i < |WithStatus(list, name)| ==>
              WithStatus(list, name)[i].status == name && WithStatus(list, name)[i] in list
    ensures forall x :: x in list && x.status == name ==> x in WithStatus(list, name)
  {
    if list != [] {
      WithStatusMembers(list[1..], name);
      var r := WithStatus(list, name);
      var rest := WithStatus(list[1..], name);
      if list[0].status == name {
        assert r == [list[0]] + rest;
        forall i | 0 <= i < |r| ensures r[i].status == name && r[i] in list {
          if i > 0 { assert r[i] == rest[i - 1]; assert rest[i - 1] in list[1..]; }
        }
      } else {
        assert r == rest;
        forall i | 0 <= i < |r| ensures r[i].status == name && r[i] in list {
          assert r[i] in list[1..];
        }
      }
      forall x | x in list && x.status == name ensures x in r {
        if x != list[0] {
          assert x in list[1..];
        }
      }
    }
  }

  /** Filtering keeps the order: filtering a concatenation concatenates the
      filtered parts. */
  lemma {:induction false} WithStatusAppend(a: seq<ApplicantView>, b: seq<ApplicantView>, name: string)
    ensures WithStatus(a + b, name) == WithStatus(a, name) + WithStatus(b, name)
  {
    if a == [] {
      assert a + b == b;
    } else {
      WithStatusAppend(a[1..], b, name);
      AppendSplit(a, b);
      var h := if a[0].status == name then [a[0]] else [];
      AppendAssociative(h, WithStatus(a[1..], name), WithStatus(b, name));
    }
  }

  /** The filter buttons: everything, or one status. */
  datatype Filter = ShowAll | ShowStatus(status: Status)

  /** `filteredApplicants`. */
  function FilteredApplicants(list: seq<ApplicantView>, f: Filter): (r: seq<ApplicantView>)
    ensures f.ShowAll? ==> r == list
    ensures f.ShowStatus? ==> forall i :: 0 <= i < |r| ==> ParseStatus(r[i].status) == Some(f.status)
    ensures f.ShowStatus? ==> forall x :: x in list && x.status == StatusName(f.status) ==> x in r
    ensures f.ShowStatus? ==> r == WithStatus(list, StatusName(f.status))
  {
    match f
    case ShowAll => list
    case ShowStatus(st) =>
      ParseStatusName(st, "");
      WithStatusMembers(list, StatusName(st));
      WithStatus(list, StatusName(st))
  }

  datatype Stats = Stats(total: nat, pending: nat, accepted: nat, rejected: nat)

  /** `stats`: the list length and one count per status. */
  function StatsOf(list: seq<ApplicantView>): (s: Stats)
    ensures s.total == |list|
    ensures s.pending == |WithStatus(list, "PENDING")|
    ensures s.accepted == |WithStatus(list, "ACCEPTED")|
    ensures s.rejected == |WithStatus(list, "REJECTED")|
  {
    Stats(|list|, |WithStatus(list, "PENDING")|, |WithStatus(list, "ACCEPTED")|, |WithStatus(list, "REJECTED")|)
  }

  /** The three counts never exceed the total, and add up to it when every
      status is one of the three names. */
  lemma {:induction false} StatsSum(list: seq<ApplicantView>)
    ensures StatsOf(list).pending + StatsOf(list).accepted + StatsOf(list).rejected <= |list|
    ensures (forall i :: 0 <= i < |list| ==> ParseStatus(list[i].status).Some?) ==>
              StatsOf(list).pending + StatsOf(list).accepted + StatsOf(list).rejected == |list|
  {
    if list != [] {
      StatsSum(list[1..]);
      assert list == [list[0]] + list[1..];
      WithStatusAppend([list[0]], list[1..], "PENDING");
      WithStatusAppend([list[0]], list[1..], "ACCEPTED");
      WithStatusAppend([list[0]], list[1..], "REJECTED");
      if forall i :: 0 <= i < |list| ==> ParseStatus(list[i].status).Some? {
        assert ParseStatus(list[0].status).Some?;
        assert forall i :: 0 <= i < |list[1..]| ==> ParseStatus(list[1..][i].status).Some? by {
          forall i | 0 <= i < |list[1..]| ensures ParseStatus(list[1..][i].status).Some? {
            assert list[1..][i] == list[i + 1];
          }
        }
      }
    }
  }

  /** The list the server sends always adds up. */
  lemma StatsOfStore(store: seq<Applicant>)
    ensures var s := StatsOf(ViewsOf(store)); s.pending + s.accepted + s.rejected == s.total
  {
    StatsSum(ViewsOf(store));
  }

  /** `getStatusColor`: the gray default exactly for a text that names no
      status. */
  function StatusColor(status: string): (c: string)
    ensures c == DefaultColor <==> ParseStatus(status).None?
  {
    match status
    case "PENDING" => "bg-yellow-100 text-yellow-800 border-yellow-300"
    case "ACCEPTED" => "bg-green-100 text-green-800 border-green-300"
    case "REJECTED" => "bg-red-100 text-red-800 border-red-300"
    case _ => "bg-gray-100 text-gray-800 border-gray-300"
  }

  const DefaultColor := "bg-gray-100 text-gray-800 border-gray-300"

  /** Each status has its own colour, and any other text gets the gray default. */
  lemma StatusColorDistinct(a: Status, b: Status, other: string)
    ensures StatusColor(StatusName(a)) == StatusColor(StatusName(b)) <==> a == b
    ensures StatusColor(StatusName(a)) != DefaultColor
    ensures ParseStatus(other).None? ==> StatusColor(other) == DefaultColor
  {
    // the four class strings have four different lengths
    assert |StatusColor("PENDING")| == 47 && |StatusColor("ACCEPTED")| == 44;
    assert |StatusColor("REJECTED")| == 38 && |DefaultColor| == 41;
  }

  /** The accept and reject buttons are shown for a pending application only. */
  predicate DecisionOffered(a: ApplicantView)
  {
    a.status == "PENDING"
  }

  lemma DecisionOfferedForPending(a: Applicant)
    ensures DecisionOffered(ViewOf(a)) <==> a.status == Pending
  {
  }

  // ---------------------------------------------------------------------
  // The guard

  datatype Gate = Admit(adminName: string) | Refuse(alert: bool)

  const MsgAccessDenied := "Akses ditolak. Halaman ini hanya untuk admin."

  /** The guard on mount: no stored account, text that does not parse, or
      a role other than ADMIN sends the browser home (with an alert for the
      wrong role). */
  function AdminGate(stored: Option<StoredUser>): (g: Gate)
    ensures g.Admit? <==> stored.Some? && stored.value.Json? && stored.value.user.role == "ADMIN"
    ensures g.Admit? ==> g.adminName == stored.value.user.name
    ensures g.Refuse? ==> (g.alert <==> stored.Some? && stored.value.Json?)
  {
    match stored
    case None => Refuse(false)
    case Some(Corrupt) => Refuse(false)
    case Some(Json(u)) => if u.role != "ADMIN" then Refuse(true) else Admit(u.name)
  }

  // ---------------------------------------------------------------------
  // The component

  const MsgEmptyNotification := "Isi pesan notifikasi terlebih dahulu"
  const MsgNotificationSent := "Notifikasi terkirim ke peserta"
  const MsgNotificationFailedPrefix := "Gagal mengirim notifikasi: "
  const MsgNotificationError := "Terjadi kesalahan saat mengirim notifikasi"

  /** What a request to a route brought back: a JSON reply with `success`,
      a JSON reply without it (its message, "" when absent), or an exception. */
  datatype Outcome = Succeeded | Refused(message: string) | Failed

  class AdminPage {
    var applicants: seq<ApplicantView>
    var filter: Filter
    var selected: Option<ApplicantView>
    var notifMessage: string
    var adminName: Option<string>
    /** Where the page sent the browser, if anywhere. */
    var location: Option<string>
    /** The alert dialogs shown, in order. */
    var alerts: seq<string>

    constructor ()
      ensures applicants == [] && filter == ShowAll && selected == None && notifMessage == ""
      ensures adminName == None && location == None && alerts == []
    {
      applicants, filter, selected, notifMessage := [], ShowAll, None, "";
      adminName, location, alerts := None, None, [];
    }

    /** The mount effect. The list is fetched only when the guard admits. */
    method Mount(storage: Storage) returns (fetchList: bool)
      modifies this
      ensures fetchList <==> AdminGate(storage.user).Admit?
      ensures AdminGate(storage.user).Admit? ==>
                adminName == Some(AdminGate(storage.user).adminName) && location == old(location)
                && alerts == old(alerts)
      ensures AdminGate(storage.user).Refuse? ==>
                && location == Some("/") && adminName == old(adminName)
                && alerts == old(alerts) + (if AdminGate(storage.user).alert then [MsgAccessDenied] else [])
      ensures applicants == old(applicants) && selected == old(selected) && notifMessage == old(notifMessage)
      ensures filter == old(filter)
    {
      var gate := AdminGate(storage.user);
      match gate
      case Refuse(alert) =>
        if alert {
          alerts := alerts + [MsgAccessDenied];
        }
        location := Some("/");
        return false;
      case Admit(name) =>
        adminName := Some(name);
        return true;
    }

    /** `getApplicants`: a list replaces the previous one; an error keeps it. */
    method ReceiveApplicants(response: Option<seq<ApplicantView>>)
      modifies this
      ensures applicants == (if response.Some? then response.value else old(applicants))
      ensures selected == old(selected) && notifMessage == old(notifMessage) && filter == old(filter)
      ensures adminName == old(adminName) && location == old(location) && alerts == old(alerts)
    {
      if response.Some? {
        applicants := response.value;
      }
    }

    /** The accept or reject button (there is no button for PENDING): the id
        and status `updateStatus` posts. The buttons exist only while the
        selected application is pending. */
    method Decide(decision: Status) returns (request: Option<(int, string)>)
      requires decision != Pending
      ensures request.Some? <==> selected.Some? && DecisionOffered(selected.value)
      ensures request.Some? ==> request.value == (selected.value.id, StatusName(decision))
    {
      if selected.Some? && DecisionOffered(selected.value) {
        request := Some((selected.value.id, StatusName(decision)));
      } else {
        request := None;
      }
    }

    /** The end of `updateStatus`: on success the detail closes and the list
        is fetched again. */
    method DecisionFinished(outcome: Outcome) returns (refetch: bool)
      modifies this
      ensures refetch <==> outcome.Succeeded?
      ensures selected == (if outcome.Succeeded? then None else old(selected))
      ensures applicants == old(applicants) && notifMessage == old(notifMessage) && filter == old(filter)
      ensures adminName == old(adminName) && location == old(location) && alerts == old(alerts)
    {
      if outcome.Succeeded? {
        selected := None;
        return true;
      }
      return false;
    }

    /** The checks of `sendNotification`: nothing without a selected
        application, an alert for a message that is blank after trimming;
        otherwise the id and the message as typed, untrimmed. */
    method SendNotification() returns (request: Option<(int, string)>)
      modifies this
      ensures request.Some? <==> selected.Some? && !IsBlank(notifMessage)
      ensures request.Some? ==> request.value == (selected.value.id, notifMessage)
      ensures alerts == old(alerts) + (if selected.Some? && IsBlank(notifMessage) then [MsgEmptyNotification] else [])
      ensures applicants == old(applicants) && selected == old(selected) && notifMessage == old(notifMessage)
      ensures filter == old(filter) && adminName == old(adminName) && location == old(location)
    {
      if selected.None? {
        return None;
      }
      if IsBlank(notifMessage) {
        alerts := alerts + [MsgEmptyNotification];
        return None;
      }
      request := Some((selected.value.id, notifMessage));
    }

    /** The end of `sendNotification`: an alert for each outcome, and the
        message box is cleared on success only. */
    method NotificationFinished(outcome: Outcome)
      modifies this
      ensures outcome.Succeeded? ==> alerts == old(alerts) + [MsgNotificationSent] && notifMessage == ""
      ensures outcome.Refused? ==>
                alerts == old(alerts) + [MsgNotificationFailedPrefix + outcome.message]
                && notifMessage == old(notifMessage)
      ensures outcome.Failed? ==> alerts == old(alerts) + [MsgNotificationError] && notifMessage == old(notifMessage)
      ensures applicants == old(applicants) && selected == old(selected) && filter == old(filter)
      ensures adminName == old(adminName) && location == old(location)
    {
      match outcome
      case Succeeded =>
        alerts := alerts + [MsgNotificationSent];
        notifMessage := "";
      case Refused(message) =>
        alerts := alerts + [MsgNotificationFailedPrefix + message];
      case Failed =>
        alerts := alerts + [MsgNotificationError];
    }

    /** `handleLogout`: only the `user` key is removed; the stored applicant
        id stays. */
    method Logout(storage: Storage)
      modifies this, storage
      ensures storage.user == None && storage.applicantId == old(storage.applicantId)
      ensures location == Some("/")
      ensures applicants == old(applicants) && selected == old(selected) && notifMessage == old(notifMessage)
      ensures filter == old(filter) && adminName == old(adminName) && alerts == old(alerts)
    {
      storage.user := None;
      location := Some("/");
    }
  }
}
