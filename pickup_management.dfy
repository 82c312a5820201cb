/**
 * The administrator's pickup table: the status transitions its buttons offer, the badge
 * style per status, when the detail form may be saved, the requests the buttons send, and
 * the pagination controls over pages of ten.
 */
module PickupManagement {
  import opened Wrappers
  import opened Numbers
  import opened Pickups
  import AdminRoutes

  // ---------------------------------------------------------------------------------------
  // Offered transitions
  // ---------------------------------------------------------------------------------------

  /** How far along the lifecycle the buttons take a pickup; completed and cancelled end it. */
  function Stage(s: Status): nat {
    match s
    case Pending => 0
    case Scheduled => 0
    case InProgress => 1
    case Completed => 2
    case Cancelled => 2
  }

  predicate Terminal(s: Status) {
    s == Completed || s == Cancelled
  }

  /**
   * The detail form's action buttons: a pending pickup can be accepted (in progress) or
   * rejected (cancelled), an accepted one completed, and nothing else is offered.
   */
  function DetailActions(s: Status): (r: set<Status>)
    ensures forall t :: t in r ==> Stage(s) < Stage(t) && t != Pending && t != Scheduled
    ensures Terminal(s) || s == Scheduled ==> r == {}
    ensures InProgress in r <==> s == Pending
    ensures Cancelled in r <==> s == Pending
    ensures Completed in r <==> s == InProgress
  {
    if s == Pending then {InProgress, Cancelled}
    else if s == InProgress then {Completed}
    else {}
  }

  /** The table row's quick buttons: at most one step forward, never a rejection. */
  function QuickActions(s: Status): (r: set<Status>)
    ensures r <= DetailActions(s)
    ensures |r| <= 1 && Cancelled !in r
    ensures r == {} <==> s != Pending && s != InProgress
  {
    if s == Pending then {InProgress}
    else if s == InProgress then {Completed}
    else {}
  }

  /** Every step of `path` is a transition some button offers. */
  predicate OfferedPath(path: seq<Status>) {
    forall i :: 0 <= i < |path| - 1 ==> path[i + 1] in DetailActions(path[i])
  }

  /** Along the offered transitions the stage only grows. */
  lemma {:induction false} OfferedPathIncreases(path: seq<Status>)
    requires OfferedPath(path)
    ensures forall i, j :: 0 <= i < j < |path| ==> Stage(path[i]) < Stage(path[j])
    decreases |path|
  {
    if |path| > 1 {
      var rest := path[1..];
      assert OfferedPath(rest) by {
        forall i | 0 <= i < |rest| - 1
          ensures rest[i + 1] in DetailActions(rest[i])
        {
          assert rest[i] == path[i + 1] && rest[i + 1] == path[i + 2];
        }
      }
      OfferedPathIncreases(rest);
      forall i, j | 0 <= i < j < |path|
        ensures Stage(path[i]) < Stage(path[j])
      {
        assert path[1] in DetailActions(path[0]);
        if i > 0 {
          assert path[i] == rest[i - 1] && path[j] == rest[j - 1];
        } else if j > 1 {
          assert path[1] == rest[0] && path[j] == rest[j - 1];
        }
      }
    }
  }

  /** With strictly growing stages, the `k`-th status is at stage `k` at least. */
  lemma {:induction false} StagesClimb(path: seq<Status>, k: nat)
    requires forall i, j :: 0 <= i < j < |path| ==> Stage(path[i]) < Stage(path[j])
    requires k < |path|
    ensures Stage(path[k]) >= k
  {
    if k > 0 {
      StagesClimb(path, k - 1);
    }
  }

  /**
   * Following the buttons, no status is visited twice, so a pickup enters `completed` at most
   * once, and a terminal status can only be the last one.
   */
  lemma OfferedPathVisitsOnce(path: seq<Status>)
    requires OfferedPath(path)
    ensures forall i, j :: 0 <= i < j < |path| ==> path[i] != path[j]
    ensures |path| <= 3
    ensures forall i :: 0 <= i < |path| - 1 ==> !Terminal(path[i])
  {
    OfferedPathIncreases(path);
    if path != [] {
      StagesClimb(path, |path| - 1);
    }
    forall i | 0 <= i < |path| - 1
      ensures !Terminal(path[i])
    {
      assert Stage(path[i]) < Stage(path[i + 1]) <= 2;
    }
  }

  // ---------------------------------------------------------------------------------------
  // Badge
  // ---------------------------------------------------------------------------------------

  const PendingStyle := "bg-yellow-400/10 text-yellow-400 border-yellow-400/20"
  const InProgressStyle := "bg-blue-400/10 text-blue-400 border-blue-400/20"
  const CompletedStyle := "bg-emerald-400/10 text-emerald-400 border-emerald-400/20"
  const CancelledStyle := "bg-red-400/10 text-red-400 border-red-400/20"

  /**
   * The badge colours, looked up by the stored status's name: a name outside the style table
   * gets the pending colours. A stored status always names an enumeration value, so the
   * lookup never reaches a name inherited from `Object.prototype`.
   */
  function BadgeStyle(s: Status): (r: string)
    ensures r == PendingStyle <==> StatusName(s) !in {"in-progress", "completed", "cancelled"}
    ensures r == PendingStyle <==> s == Pending || s == Scheduled
    ensures r in {PendingStyle, InProgressStyle, CompletedStyle, CancelledStyle}
  {
    var name := StatusName(s);
    if name == "in-progress" then InProgressStyle
    else if name == "completed" then CompletedStyle
    else if name == "cancelled" then CancelledStyle
    else PendingStyle
  }

  /** Each of the four styled statuses has its own colours; `scheduled` looks pending. */
  lemma BadgeStylesDistinct()
    ensures forall s, t :: s != t && s != Scheduled && t != Scheduled ==>
              BadgeStyle(s) != BadgeStyle(t)
    ensures BadgeStyle(Scheduled) == BadgeStyle(Pending)
  {
  }

  // ---------------------------------------------------------------------------------------
  // Detail form
  // ---------------------------------------------------------------------------------------

  datatype EditForm = EditForm(status: Status, adminNotes: string)

  /** Opening the form copies the pickup's status and notes (a pickup's notes default to ""). */
  function OpenEdit(p: Pickup): (f: EditForm)
    ensures f.status == p.status && f.adminNotes == p.adminNotes
  {
    EditForm(p.status, p.adminNotes)
  }

  /** An action button sets the form's status and keeps the notes typed so far. */
  function ChooseStatus(f: EditForm, s: Status): (g: EditForm)
    ensures g.status == s && g.adminNotes == f.adminNotes
  {
    f.(status := s)
  }

  /** The save button is disabled while saving, and while neither field differs from the pickup. */
  predicate SaveDisabled(saving: bool, f: EditForm, p: Pickup) {
    saving || (f.status == p.status && f.adminNotes == p.adminNotes)
  }

  /**
   * A form just opened cannot be saved; choosing an offered action, or editing the notes,
   * makes it savable when no save is running.
   */
  lemma SaveNeedsAChange(p: Pickup, s: Status, notes: string)
    ensures SaveDisabled(false, OpenEdit(p), p)
    ensures s in DetailActions(p.status) ==> !SaveDisabled(false, ChooseStatus(OpenEdit(p), s), p)
    ensures notes != p.adminNotes ==> !SaveDisabled(false, OpenEdit(p).(adminNotes := notes), p)
    ensures forall f :: SaveDisabled(true, f, p)
  {
  }

  /** The request the save button sends: the whole form. */
  function SaveRequest(f: EditForm): (req: AdminRoutes.PickupUpdate)
    ensures ParseStatus(req.status) == Some(f.status) && req.adminNotes == Some(f.adminNotes)
  {
    AdminRoutes.PickupUpdate(StatusName(f.status), Some(f.adminNotes))
  }

  /** The request a quick button sends: the new status alone. */
  function QuickRequest(s: Status): (req: AdminRoutes.PickupUpdate)
    ensures ParseStatus(req.status) == Some(s) && req.adminNotes == None
  {
    AdminRoutes.PickupUpdate(StatusName(s), None)
  }

  /**
   * Whatever the form holds, its request names a status the server accepts, and it earns
   * points exactly when the form moves a pickup that is not completed to `completed`.
   */
  lemma SaveRequestAccepted(f: EditForm, p: Pickup)
    ensures AdminRoutes.StatusAccepted(SaveRequest(f).status)
    ensures AdminRoutes.Completes(SaveRequest(f), p.status) <==> f.status == Completed && p.status != Completed
  {
  }

  // ---------------------------------------------------------------------------------------
  // Pagination
  // ---------------------------------------------------------------------------------------

  /** The table's page size. */
  const PageSize := 10

  /** The list's view state: the page shown, the server's page count, and the two filters. */
  datatype ListView = ListView(page: int, totalPages: int, statusFilter: string, typeFilter: string)

  /** The previous-page button: one page back, never below the first. */
  function PrevPage(v: ListView): (w: ListView)
    ensures w == v.(page := w.page)
    ensures w.page >= 1
    ensures v.page > 1 ==> w.page == v.page - 1
    ensures v.page <= 1 ==> w.page == 1
  {
    v.(page := Max(1, v.page - 1))
  }

  /** The next-page button: one page on, never beyond the last. */
  function NextPage(v: ListView): (w: ListView)
    ensures w == v.(page := w.page)
    ensures w.page <= v.totalPages
    ensures v.page < v.totalPages ==> w.page == v.page + 1
    ensures v.page >= v.totalPages ==> w.page == v.totalPages
  {
    v.(page := Min(v.totalPages, v.page + 1))
  }

  /** Choosing a status filter shows the first page of the new list. */
  function SetStatusFilter(v: ListView, value: string): (w: ListView)
    ensures w.statusFilter == value && w.page == 1
    ensures w.typeFilter == v.typeFilter && w.totalPages == v.totalPages
  {
    v.(statusFilter := value, page := 1)
  }

  /** Choosing a type filter shows the first page of the new list. */
  function SetTypeFilter(v: ListView, value: string): (w: ListView)
    ensures w.typeFilter == value && w.page == 1
    ensures w.statusFilter == v.statusFilter && w.totalPages == v.totalPages
  {
    v.(typeFilter := value, page := 1)
  }

  predicate PageInRange(v: ListView) {
    1 <= v.page <= v.totalPages
  }

  /** From a page in range, both buttons and both filters keep the page in range. */
  lemma ControlsKeepPageInRange(v: ListView, value: string)
    requires PageInRange(v)
    ensures PageInRange(PrevPage(v)) && PageInRange(NextPage(v))
    ensures PageInRange(SetStatusFilter(v, value)) && PageInRange(SetTypeFilter(v, value))
  {
  }

  /** "Showing first to last of total". */
  function ShownRange(page: int, total: int): (int, int) {
    ((page - 1) * PageSize + 1, Min(page * PageSize, total))
  }

  /**
   * On any page the server can return, the range shown starts just after the documents the
   * server skipped and covers exactly the documents on that page.
   */
  lemma ShownRangeMatchesPage(page: int, total: nat)
    requires 1 <= page <= AdminRoutes.PageCount(total, PageSize)
    ensures var (first, last) := ShownRange(page, total);
            first == AdminRoutes.Skip(page, PageSize) + 1 &&
            1 <= first <= last <= total &&
            last - first + 1 == Min(PageSize, total - AdminRoutes.Skip(page, PageSize))
  {
    AdminRoutes.PageCountIsQuotient(total, PageSize);
    var n := AdminRoutes.PageCount(total, PageSize);
    assert n == (total + 9) / 10;
    assert (page - 1) * 10 < total by {
      assert page - 1 <= n - 1;
      assert (n - 1) * 10 < total;
    }
  }
}
