/**
 * The company's internship-management list: one card per internship with
 * its application count, status badge and up to three recent
 * applications.
 */
module ManageInternships {
  import opened Types
  import opened Seqs
  import opened Text
  import opened Queries

  /** The badge text: the status tag with its first letter upper-cased. */
  function StatusLabel(st: InternshipStatus): (r: string)
    ensures |r| == |st.Name()| && r[1..] == st.Name()[1..]
    ensures r[0] == UpperChar(st.Name()[0])
  {
    Capitalize(st.Name())
  }

  /** The three badges read "Draft", "Published" and "Closed", and differ from each other. */
  lemma StatusLabels(a: InternshipStatus, b: InternshipStatus)
    ensures StatusLabel(Draft) == "Draft"
    ensures StatusLabel(Published) == "Published"
    ensures StatusLabel(Closed) == "Closed"
    ensures StatusLabel(a) == StatusLabel(b) <==> a == b
  {
    assert StatusLabel(Draft) == "Draft";
    assert StatusLabel(Published) == "Published";
    assert StatusLabel(Closed) == "Closed";
  }

  const Green: string := "bg-green-100 text-green-800"
  const Gray: string := "bg-gray-100 text-gray-800"
  const Red: string := "bg-red-100 text-red-800"

  /** The badge colour: green when published, gray for drafts, red for anything else. */
  function StatusColor(st: InternshipStatus): (c: string)
    ensures c == Green <==> st == Published
    ensures c == Gray <==> st == Draft
    ensures c == Red <==> st != Published && st != Draft
  {
    if st == Published then Green
    else if st == Draft then Gray
    else Red
  }

  /** What one internship's card shows. */
  datatype Card = Card(internship: Internship, applications: nat, recent: seq<Application>, noApplicationsNote: bool)

  /**
   * The card: the number of applications to the internship, the first three
   * of them, and "No applications yet" exactly when there are none.
   */
  function CardFor(apps: seq<Application>, x: Internship): (c: Card)
    ensures c.internship == x
    ensures c.applications == |ApplicationsFor(apps, x.id)|
    ensures |c.recent| == if c.applications < 3 then c.applications else 3
    ensures c.recent == ApplicationsFor(apps, x.id)[..|c.recent|]
    ensures forall a :: a in c.recent ==> a in apps && a.internshipId == x.id
    ensures c.noApplicationsNote <==> c.applications == 0
    ensures c.noApplicationsNote <==> c.recent == []
  {
    var mine := ApplicationsFor(apps, x.id);
    Card(x, |mine|, Take(mine, 3), |mine| == 0)
  }

  /** The rendered page: the cards, and whether the "No internships found" panel shows. */
  datatype View = View(cards: seq<Card>, emptyState: bool)

  /**
   * The page. The status drop-down's value is accepted and not used: every
   * internship gets a card, in list order.
   */
  function Render(internships: seq<Internship>, apps: seq<Application>, selectedFilter: string): (v: View)
    ensures |v.cards| == |internships|
    ensures forall k :: 0 <= k < |internships| ==> v.cards[k] == CardFor(apps, internships[k])
    ensures v.emptyState <==> internships == []
  {
    View(seq(|internships|, k requires 0 <= k < |internships| => CardFor(apps, internships[k])), internships == [])
  }

  /** Changing the status drop-down changes nothing on screen. */
  lemma SelectedFilterIgnored(internships: seq<Internship>, apps: seq<Application>, f: string, g: string)
    ensures Render(internships, apps, f) == Render(internships, apps, g)
  {
  }

  /** The "Filters" button flips the panel. */
  function ToggleFilters(shown: bool): (r: bool)
    ensures r != shown
  {
    !shown
  }

  lemma ToggleFiltersTwice(shown: bool)
    ensures ToggleFilters(ToggleFilters(shown)) == shown
  {
  }
}
