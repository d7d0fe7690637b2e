/**
 * The lookups several pages perform on their mock lists: an internship by
 * id, the applications in a status, and the applications to one internship.
 */
module Queries {
  import opened Wrappers
  import opened Types
  import opened Seqs

  predicate HasId(x: Internship, id: string) {
    x.id == id
  }

  /** Position `k` holds the first internship with the given id. */
  predicate FirstWithId(internships: seq<Internship>, k: int, id: string) {
    && 0 <= k < |internships|
    && internships[k].id == id
    && forall j :: 0 <= j < k ==> internships[j].id != id
  }

  /** `internships.find(i => i.id === id)`: the first internship with that id. */
  function InternshipById(internships: seq<Internship>, id: string): (r: Option<Internship>)
    ensures r.Some? <==> exists k :: 0 <= k < |internships| && internships[k].id == id
    ensures r.Some? ==> r.value in internships && r.value.id == id
    ensures r.Some? ==> exists k :: FirstWithId(internships, k, id) && internships[k] == r.value
  {
    var r := Find(internships, x => HasId(x, id));
    if r.None? then
      assert forall k :: 0 <= k < |internships| ==> internships[k] in internships;
      r
    else
      var k :| 0 <= k < |internships| && internships[k] == r.value;
      r
  }

  /**
   * The title on an application row of either dashboard,
   * `internship?.title || 'Untitled Internship'`: the title of the first
   * internship with the application's id, or the placeholder when there is
   * no such internship or its title is empty.
   */
  function RowTitle(internships: seq<Internship>, app: Application): (t: string)
    ensures t == "Untitled Internship" <==>
      match InternshipById(internships, app.internshipId)
      case None => true
      case Some(x) => x.title == "" || x.title == "Untitled Internship"
    ensures (forall k :: 0 <= k < |internships| ==> internships[k].id != app.internshipId) ==> t == "Untitled Internship"
    ensures forall k :: FirstWithId(internships, k, app.internshipId) && internships[k].title != "" ==>
      t == internships[k].title
  {
    match InternshipById(internships, app.internshipId)
    case None => "Untitled Internship"
    case Some(x) => if x.title == "" then "Untitled Internship" else x.title
  }

  predicate HasStatus(a: Application, status: string) {
    a.status.Name() == status
  }

  /** `getApplicationsByStatus`: the applications whose status tag is `status`, in order. */
  function ApplicationsByStatus(apps: seq<Application>, status: string): (r: seq<Application>)
    ensures forall a :: a in r <==> a in apps && a.status.Name() == status
    ensures IsSubsequence(r, apps)
  {
    Filter(apps, a => HasStatus(a, status))
  }

  /** The number of applications in a status. */
  lemma ByStatusCount(apps: seq<Application>, status: string)
    ensures |ApplicationsByStatus(apps, status)| == CountIf(apps, a => HasStatus(a, status))
  {
    FilterLength(apps, a => HasStatus(a, status));
  }

  predicate IsFor(a: Application, internshipId: string) {
    a.internshipId == internshipId
  }

  /** `applications.filter(app => app.internshipId === id)`: the applications to one internship, in order. */
  function ApplicationsFor(apps: seq<Application>, internshipId: string): (r: seq<Application>)
    ensures forall a :: a in r <==> a in apps && a.internshipId == internshipId
    ensures IsSubsequence(r, apps)
    ensures |r| <= |apps|
  {
    Filter(apps, a => IsFor(a, internshipId))
  }

  /** Applications to two different internships never overlap, so their counts add up to at most all of them. */
  lemma ApplicationsForDisjoint(apps: seq<Application>, id1: string, id2: string)
    requires id1 != id2
    ensures |ApplicationsFor(apps, id1)| + |ApplicationsFor(apps, id2)| <= |apps|
  {
    FilterLength(apps, a => IsFor(a, id1));
    FilterLength(apps, a => IsFor(a, id2));
    CountIfDisjoint(apps, a => IsFor(a, id1), a => IsFor(a, id2));
  }
}
