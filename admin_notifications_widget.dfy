/** `app/components/AdminNotificationsWidget.tsx`: the reviewer's bell. Each
    poll fetches the applicant list and keeps at most ten pending
    applications; the badge counts what is kept. */
module AdminNotificationsWidgetComponent {
  import opened Common
  import opened Records
  import opened AdminPageComponent
  import opened NotificationsWidgetComponent

  /** The most applications the dropdown keeps. */
  const PreviewSize := 10

  /** The pending applications of the list, in list order, cut to the first
      ten. */
  function PendingPreview(list: seq<ApplicantView>): (r: seq<ApplicantView>)
    ensures var pending := WithStatus(list, "PENDING");
            && |r| == (if |pending| < PreviewSize then |pending| else PreviewSize)
            && r == pending[..|r|]
  {
    var pending := WithStatus(list, "PENDING");
    if |pending| <= PreviewSize then pending else pending[..PreviewSize]
  }

  /** Everything kept is a pending application of the list. */
  lemma PreviewOnlyPending(list: seq<ApplicantView>)
    ensures forall i :: 0 <= i < |PendingPreview(list)| ==>
              PendingPreview(list)[i].status == "PENDING" && PendingPreview(list)[i] in list
  {
    WithStatusMembers(list, "PENDING");
    var r := PendingPreview(list);
    var pending := WithStatus(list, "PENDING");
    forall i | 0 <= i < |r| ensures r[i].status == "PENDING" && r[i] in list {
      assert r[i] == pending[i];
    }
  }

  /** With ten or fewer pending applications, every one of them is kept. */
  lemma PreviewKeepsAllWhenFew(list: seq<ApplicantView>)
    requires StatsOf(list).pending <= PreviewSize
    ensures forall x :: x in list && x.status == "PENDING" ==> x in PendingPreview(list)
  {
    WithStatusMembers(list, "PENDING");
    assert PendingPreview(list) == WithStatus(list, "PENDING");
  }

  /** The list arrives newest first; once its front holds ten pending
      applications, older applications behind them never change what is
      kept. */
  lemma PreviewIgnoresOlder(newer: seq<ApplicantView>, older: seq<ApplicantView>)
    requires StatsOf(newer).pending >= PreviewSize
    ensures PendingPreview(newer + older) == PendingPreview(newer)
  {
    WithStatusAppend(newer, older, "PENDING");
    var a := WithStatus(newer, "PENDING");
    var b := WithStatus(older, "PENDING");
    assert (a + b)[..PreviewSize] == a[..PreviewSize];
  }

  /** The badge follows the applicant bell's rule, but the count it shows
      can never reach "99+": at most ten applications are kept. */
  lemma AdminBadgeNeverOverflows(list: seq<ApplicantView>)
    ensures BadgeLabel(|PendingPreview(list)|) != Some("99+")
    ensures BadgeLabel(|PendingPreview(list)|).None? <==> StatsOf(list).pending == 0
  {
  }

  class AdminNotificationsWidget {
    var notifications: seq<ApplicantView>
    var showNotifications: bool

    constructor ()
      ensures notifications == [] && !showNotifications
    {
      notifications := [];
      showNotifications := false;
    }

    /** One run of `fetchPendingApplicants`: a list (`None` stands for a
        failed fetch or a body that is not an array) replaces the kept
        applications with its pending preview; a failure keeps them. */
    method Poll(response: Option<seq<ApplicantView>>)
      modifies this
      ensures notifications == (if response.Some? then PendingPreview(response.value) else old(notifications))
      ensures showNotifications == old(showNotifications)
    {
      if response.Some? {
        notifications := PendingPreview(response.value);
      }
    }

    /** The bell button. */
    method Toggle()
      modifies this
      ensures showNotifications == !old(showNotifications)
      ensures notifications == old(notifications)
    {
      showNotifications := !showNotifications;
    }
  }
}
