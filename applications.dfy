/**
 * The student's application list: the status filter, the status label and
 * colour maps, and the view state changed by the filter buttons and the
 * expand toggle.
 */
module Applications {
  import opened Wrappers
  import opened Types
  import opened Seqs
  import opened Queries

  /** True when `status` is the tag of one of the five application statuses. */
  predicate IsStatusName(status: string) {
    exists st: ApplicationStatus :: st.Name() == status
  }

  /** `getStatusText`: the Japanese label of a status tag; any other string is shown as it is. */
  function StatusText(status: string): (r: string)
    ensures IsStatusName(status) ==> r != status
    ensures !IsStatusName(status) ==> r == status
  {
    assert Pending.Name() == "pending" && Reviewing.Name() == "reviewing" && Interview.Name() == "interview";
    assert Accepted.Name() == "accepted" && Rejected.Name() == "rejected";
    match status
    case "pending" => "審査待ち"
    case "reviewing" => "審査中"
    case "interview" => "面接段階"
    case "accepted" => "合格"
    case "rejected" => "不合格"
    case _ => status
  }

  const DefaultColor: string := "bg-gray-100 text-gray-800"

  /** `getStatusColor`: a badge class per status tag, gray for anything else. */
  function StatusColor(status: string): (r: string)
    ensures !IsStatusName(status) ==> r == DefaultColor
  {
    assert Pending.Name() == "pending" && Reviewing.Name() == "reviewing" && Interview.Name() == "interview";
    assert Accepted.Name() == "accepted" && Rejected.Name() == "rejected";
    match status
    case "pending" => "bg-yellow-100 text-yellow-800"
    case "reviewing" => "bg-blue-100 text-blue-800"
    case "interview" => "bg-purple-100 text-purple-800"
    case "accepted" => "bg-green-100 text-green-800"
    case "rejected" => "bg-red-100 text-red-800"
    case _ => DefaultColor
  }

  /** The five statuses get five different labels and five different colours, none of them gray. */
  lemma StatusMapsDistinct(a: ApplicationStatus, b: ApplicationStatus)
    ensures StatusText(a.Name()) == StatusText(b.Name()) <==> a == b
    ensures StatusColor(a.Name()) == StatusColor(b.Name()) <==> a == b
    ensures StatusColor(a.Name()) != DefaultColor
  {
  }

  /** The labels the two student pages show. */
  lemma StatusTextLabels()
    ensures StatusText(Pending.Name()) == "審査待ち"
    ensures StatusText(Reviewing.Name()) == "審査中"
    ensures StatusText(Interview.Name()) == "面接段階"
    ensures StatusText(Accepted.Name()) == "合格"
    ensures StatusText(Rejected.Name()) == "不合格"
  {
  }

  const AllFilter: string := "all"

  /** `filteredApplications`: all of them for `'all'`, otherwise those whose status tag is `selected`. */
  function FilteredApplications(apps: seq<Application>, selected: string): (r: seq<Application>)
    ensures selected == AllFilter ==> r == apps
    ensures selected != AllFilter ==> forall a :: a in r <==> a in apps && a.status.Name() == selected
    ensures IsSubsequence(r, apps)
  {
    if selected == AllFilter then
      SubsequenceOfSelf(apps);
      apps
    else ApplicationsByStatus(apps, selected)
  }

  /** `{filteredApplications.length} 件の応募`: the count shown is the number of matching applications. */
  lemma DisplayedCount(apps: seq<Application>, selected: string)
    requires selected != AllFilter
    ensures |FilteredApplications(apps, selected)| == CountIf(apps, a => HasStatus(a, selected))
  {
    ByStatusCount(apps, selected);
  }

  /** The empty-state panel shows exactly when no application passes the filter. */
  predicate ShowEmptyState(apps: seq<Application>, selected: string) {
    |FilteredApplications(apps, selected)| == 0
  }

  lemma EmptyStateIff(apps: seq<Application>, selected: string)
    ensures ShowEmptyState(apps, selected) <==>
      if selected == AllFilter then apps == []
      else forall k :: 0 <= k < |apps| ==> apps[k].status.Name() != selected
  {
    if selected != AllFilter {
      var r := FilteredApplications(apps, selected);
      if r != [] {
        assert r[0] in r;
      }
      if exists k :: 0 <= k < |apps| && apps[k].status.Name() == selected {
        var k :| 0 <= k < |apps| && apps[k].status.Name() == selected;
        assert apps[k] in r;
      }
    }
  }

  /** `expanded === id ? null : id`. */
  function Toggle(expanded: Option<string>, id: string): (r: Option<string>)
    ensures r == Some(id) <==> expanded != Some(id)
    ensures r.None? <==> expanded == Some(id)
  {
    if expanded == Some(id) then None else Some(id)
  }

  /**
   * Pressing the same toggle twice restores the previous state exactly when
   * nothing, or that same application, was expanded before; when another one
   * was, everything ends collapsed.
   */
  lemma ToggleTwice(expanded: Option<string>, id: string)
    ensures Toggle(Toggle(expanded, id), id) == expanded <==> (expanded.None? || expanded == Some(id))
    ensures expanded.Some? && expanded != Some(id) ==> Toggle(Toggle(expanded, id), id) == None
  {
  }

  /** With distinct application ids, at most one row is expanded. */
  lemma AtMostOneExpanded(apps: seq<Application>, expanded: Option<string>, i: nat, j: nat)
    requires forall p, q :: 0 <= p < q < |apps| ==> apps[p].id != apps[q].id
    requires i < |apps| && j < |apps|
    requires expanded == Some(apps[i].id) && expanded == Some(apps[j].id)
    ensures i == j
  {
  }

  /** The four filter buttons. */
  datatype FilterButton = AllButton | PendingButton | ReviewingButton | InterviewButton {
    function Value(): string {
      match this
      case AllButton => AllFilter
      case PendingButton => Pending.Name()
      case ReviewingButton => Reviewing.Name()
      case InterviewButton => Interview.Name()
    }
  }

  class ApplicationsView {
    var selectedFilter: string
    var expanded: Option<string>

    /** The filter holds one of the four button values. */
    predicate Valid()
      reads this
    {
      selectedFilter in {AllFilter, "pending", "reviewing", "interview"}
    }

    /**
     * The applications the list shows; while the filter is one of the
     * buttons' values, accepted and rejected applications appear only under
     * "all".
     */
    function Visible(apps: seq<Application>): (r: seq<Application>)
      requires Valid()
      reads this
      ensures selectedFilter == AllFilter ==> r == apps
      ensures selectedFilter != AllFilter ==> forall a :: a in r ==> a.status != Accepted && a.status != Rejected
    {
      Types.NamesDistinct();
      FilteredApplications(apps, selectedFilter)
    }

    constructor ()
      ensures selectedFilter == AllFilter && expanded == None
      ensures Valid()
    {
      selectedFilter, expanded := AllFilter, None;
    }

    method Select(b: FilterButton)
      modifies this`selectedFilter
      ensures selectedFilter == b.Value()
      ensures Valid()
    {
      selectedFilter := b.Value();
    }

    method ToggleExpanded(id: string)
      requires Valid()
      modifies this`expanded
      ensures expanded == Toggle(old(expanded), id)
      ensures Valid()
    {
      expanded := Toggle(expanded, id);
    }
  }

  /** No filter button ever selects accepted or rejected applications on their own. */
  method FiltersNeverShowDecided(apps: seq<Application>, b: FilterButton) returns (shown: seq<Application>)
    ensures b != AllButton ==> forall a :: a in shown ==> a.status != Accepted && a.status != Rejected
    ensures b == AllButton ==> shown == apps
  {
    var view := new ApplicationsView();
    view.Select(b);
    shown := view.Visible(apps);
  }
}
