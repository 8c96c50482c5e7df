/** `app/components/NotificationsWidget.tsx`: the applicant's bell. Each poll
    resolves the applicant id, fetches the list, and opens the dropdown when
    the list grew since the previous poll (never on the first load); the
    badge shows the count, and each message is classified by keyword. */
module NotificationsWidgetComponent {
  import opened Common
  import opened Records
  import opened UpdateStatusRoute
  import opened Browser

  // ---------------------------------------------------------------------
  // The id, the badge and the classification

  /** The id to fetch for: the numeric prop when there is one, else the
      stored id read by `parseInt`, with "0" standing in for a missing or
      empty entry. */
  function ResolveId(prop: Option<JsNumber>, stored: Option<string>): (r: JsNumber)
    ensures prop.Some? ==> r == prop.value
    ensures prop.None? && (stored.None? || stored.value == "") ==> r == Int(0)
    ensures prop.None? && stored.Some? && stored.value != "" ==> r == ParseInt(stored.value)
  {
    if prop.Some? then prop.value
    else
      var text := if stored.Some? && stored.value != "" then stored.value else "0";
      ParseIntRoundTrip(0);
      ParseInt(text)
  }

  /** `!id || isNaN(id)` is false: there is something to fetch. Both
      falsy numbers, 0 and NaN, are refused. */
  predicate ShouldFetch(id: JsNumber): (r: bool)
    ensures !r <==> id == NaN || id == Int(0)
  {
    id.Int? && id.n != 0
  }

  /** The id the form stores after a successful application is the one the
      widget fetches for when no prop is given. */
  lemma StoredIdFetched(n: int)
    requires n != 0
    ensures ResolveId(None, Some(IntString(n))) == Int(n)
    ensures ShouldFetch(ResolveId(None, Some(IntString(n))))
  {
    ParseIntRoundTrip(n);
    assert IntString(n) != "";
  }

  /** The badge: hidden for no notification, the count up to 99, then "99+". */
  function BadgeLabel(count: nat): (r: Option<string>)
    ensures r.None? <==> count == 0
    ensures r == Some("99+") <==> count > 99
    ensures 0 < count <= 99 ==> r == Some(DecimalString(count))
  {
    if count == 0 then None
    else if count > 99 then Some("99+")
    else
      assert |DecimalString(count)| <= 2;
      Some(DecimalString(count))
  }

  /** The three kinds a message is shown as. */
  datatype Kind = AcceptedKind | RejectedKind | InfoKind

  /** The keyword test: "diterima" wins over "ditolak"; neither gives INFO. */
  function Classify(message: string): (k: Kind)
    ensures k == AcceptedKind <==> Contains(message, "diterima")
    ensures k == RejectedKind <==> !Contains(message, "diterima") && Contains(message, "ditolak")
    ensures k == InfoKind <==> !Contains(message, "diterima") && !Contains(message, "ditolak")
  {
    if Contains(message, "diterima") then AcceptedKind
    else if Contains(message, "ditolak") then RejectedKind
    else InfoKind
  }

  /** How a notification of each kind is shown: its heading and its tag. */
  datatype Label = Label(title: string, tag: string)

  /** The heading and the tag shown for each kind; different kinds are shown
      differently. */
  function KindLabel(k: Kind): (l: Label)
    ensures l.title == "\U{2705} Aplikasi Diterima" <==> k == AcceptedKind
    ensures l.title == "\U{274C} Aplikasi Ditolak" <==> k == RejectedKind
    ensures l.title == "\U{1F4DD} Pembaruan Aplikasi" <==> k == InfoKind
    ensures l.tag == "DITERIMA" <==> k == AcceptedKind
    ensures l.tag == "DITOLAK" <==> k == RejectedKind
    ensures l.tag == "INFO" <==> k == InfoKind
  {
    match k
    case AcceptedKind => Label("\U{2705} Aplikasi Diterima", "DITERIMA")
    case RejectedKind => Label("\U{274C} Aplikasi Ditolak", "DITOLAK")
    case InfoKind => Label("\U{1F4DD} Pembaruan Aplikasi", "INFO")
  }

  /** No "dit" starts at any position of `s`. */
  predicate FreeOfDit(s: string)
  {
    forall i :: 0 <= i <= |s| - 3 ==> s[i] != 'd' || s[i + 1] != 'i' || s[i + 2] != 't'
  }

  /** A text free of "dit" contains neither keyword, since both begin with it. */
  lemma NoKeyword(s: string)
    requires FreeOfDit(s)
    ensures Classify(s) == InfoKind
  {
    forall i | 0 <= i <= |s| - 3 ensures !OccursAt(s, "dit", i) {
      assert s[i..i + 3][0] == s[i] && s[i..i + 3][1] == s[i + 1] && s[i..i + 3][2] == s[i + 2];
    }
    if Contains(s, "diterima") {
      ContainsPrefix(s, "diterima", "dit");
    }
    if Contains(s, "ditolak") {
      ContainsPrefix(s, "ditolak", "dit");
    }
  }

  /** Joining two texts free of "dit" gives one, when the first does not end
      in a 'd' or a 'd' and one more character. */
  lemma AppendFreeOfDit(x: string, y: string)
    requires FreeOfDit(x) && FreeOfDit(y)
    requires |x| >= 2 && x[|x| - 1] != 'd' && x[|x| - 2] != 'd'
    ensures FreeOfDit(x + y)
  {
    var s := x + y;
    forall i | 0 <= i <= |s| - 3 ensures s[i] != 'd' || s[i + 1] != 'i' || s[i + 2] != 't' {
      if i + 2 < |x| {
        assert s[i] == x[i] && s[i + 1] == x[i + 1] && s[i + 2] == x[i + 2];
      } else if i >= |x| {
        assert s[i] == y[i - |x|] && s[i + 1] == y[i + 1 - |x|] && s[i + 2] == y[i + 2 - |x|];
      } else {
        assert s[i] == x[i];
      }
    }
  }

  /** The acceptance text contains "diterima". */
  lemma AcceptedTextClassified()
    ensures Classify(AcceptedText) == AcceptedKind
  {
    var a := "Selamat! Lamaran kamu diterima. ";
    var b := "Tim kami akan menghubungi Anda segera.";
    assert a[22..30] == "diterima";
    assert (a + b)[22..30] == a[22..30];
    assert OccursAt(AcceptedText, "diterima", 22);
  }

  /** The pieces of the rejection text, one by one, hold no "dit". */
  lemma RejectedOpeningFree()
    ensures FreeOfDit("Terima kasih atas permohonan Anda. ") && FreeOfDit("Maaf, pada kesempatan kali ini ")
  {
  }

  lemma RejectedClosingFree()
    ensures FreeOfDit("kami tidak dapat menerima ") && FreeOfDit("lamaran Anda. Kami berharap ")
    ensures FreeOfDit("dapat bekerja sama di masa depan.")
  {
  }

  /** The rejection text contains neither keyword: it reads "tidak dapat
      menerima", so the widget shows it as INFO, not DITOLAK. */
  lemma RejectedTextClassified()
    ensures Classify(RejectedText) == InfoKind
  {
    var p0 := "Terima kasih atas permohonan Anda. ";
    var p1 := "Maaf, pada kesempatan kali ini ";
    var p2 := "kami tidak dapat menerima ";
    var p3 := "lamaran Anda. Kami berharap ";
    var p4 := "dapat bekerja sama di masa depan.";
    RejectedOpeningFree();
    RejectedClosingFree();
    AppendFreeOfDit(p0, p1);
    AppendFreeOfDit(p0 + p1, p2);
    AppendFreeOfDit(p0 + p1 + p2, p3);
    AppendFreeOfDit(p0 + p1 + p2 + p3, p4);
    NoKeyword(RejectedText);
  }

  /** The text for a status reset to PENDING contains neither keyword. */
  lemma UpdatedTextClassified()
    ensures Classify(UpdatedText) == InfoKind
  {
    assert FreeOfDit(UpdatedText);
    NoKeyword(UpdatedText);
  }

  /** How the widget shows the notification a status change writes: only an
      acceptance gets its own kind. */
  lemma StatusMessageClassified(st: Status)
    ensures Classify(StatusMessage(st)) == (if st == Accepted then AcceptedKind else InfoKind)
  {
    match st
    case Accepted => AcceptedTextClassified();
    case Rejected => RejectedTextClassified();
    case Pending => UpdatedTextClassified();
  }

  /** The tag the applicant sees on a status notification: DITERIMA for an
      acceptance, INFO for a rejection and for a reset to PENDING. */
  lemma StatusMessageLabel(st: Status)
    ensures KindLabel(Classify(StatusMessage(st))).tag == (if st == Accepted then "DITERIMA" else "INFO")
  {
    StatusMessageClassified(st);
  }

  // ---------------------------------------------------------------------
  // The component

  /** What the fetch brought back: an exception (from the network or from
      parsing a body that is not JSON), a JSON array, or other JSON. */
  datatype PollResponse = FetchFailed | JsonArray(items: seq<Notification>) | JsonOther

  class NotificationsWidget {
    /** The `applicantId` prop, when it is a number. */
    const prop: Option<JsNumber>
    var notifications: seq<Notification>
    var showNotifications: bool
    /** `prevCountRef` and `initialLoadRef`. */
    var prevCount: nat
    var initialLoad: bool

    constructor (prop: Option<JsNumber>)
      ensures this.prop == prop
      ensures notifications == [] && !showNotifications && prevCount == 0 && initialLoad
    {
      this.prop := prop;
      notifications := [];
      showNotifications := false;
      prevCount := 0;
      initialLoad := true;
    }

    /** The start of `fetchNotifications`. Without an id to fetch for, the
        list is emptied, the count forgotten and the first load over; with
        one, nothing changes yet and the id is returned. */
    method StartPoll(storage: Storage) returns (fetchFor: Option<int>)
      modifies this
      ensures var id := ResolveId(prop, storage.applicantId);
              && (ShouldFetch(id) ==>
                    fetchFor == Some(id.n) && notifications == old(notifications)
                    && prevCount == old(prevCount) && initialLoad == old(initialLoad))
              && (!ShouldFetch(id) ==>
                    fetchFor == None && notifications == [] && prevCount == 0 && !initialLoad)
      ensures showNotifications == old(showNotifications)
    {
      var id := ResolveId(prop, storage.applicantId);
      if !ShouldFetch(id) {
        notifications := [];
        prevCount := 0;
        initialLoad := false;
        return None;
      }
      return Some(id.n);
    }

    /** The end of `fetchNotifications`. A failure changes nothing; a reply
        that is not an array counts as empty; the dropdown opens when the
        list is longer than at the previous poll, except on the first load. */
    method FinishPoll(response: PollResponse)
      modifies this
      ensures response.FetchFailed? ==>
                notifications == old(notifications) && showNotifications == old(showNotifications)
                && prevCount == old(prevCount) && initialLoad == old(initialLoad)
      ensures !response.FetchFailed? ==>
                var list := if response.JsonArray? then response.items else [];
                && notifications == list && prevCount == |list| && !initialLoad
                && showNotifications == (old(showNotifications) || (!old(initialLoad) && |list| > old(prevCount)))
    {
      if response.FetchFailed? {
        return;
      }
      var list := if response.JsonArray? then response.items else [];
      if !initialLoad && |list| > prevCount {
        showNotifications := true;
      }
      notifications := list;
      prevCount := |list|;
      initialLoad := false;
    }

    /** The bell button. */
    method Toggle()
      modifies this
      ensures showNotifications == !old(showNotifications)
      ensures notifications == old(notifications) && prevCount == old(prevCount) && initialLoad == old(initialLoad)
    {
      showNotifications := !showNotifications;
    }
  }
}
