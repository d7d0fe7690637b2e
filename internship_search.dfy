/**
 * The student's internship search: one `filter` over the page's listing
 * records with a free-text term and three optional filters.
 */
module InternshipSearch {
  import opened Seqs
  import Text

  /** The listing shape the search page works on (its own record, not `Internship`). */
  datatype Listing = Listing(
    id: string,
    title: string,
    company: string,
    location: string,
    isRemote: bool,
    salary: string,
    deadline: string,
    description: string,
    skills: seq<string>,
    industry: string)

  /** The page's `searchTerm`, `location`, `industry` and `isRemote` state; `""` means no restriction. */
  datatype Query = Query(searchTerm: string, location: string, industry: string, isRemote: bool)

  const NoFilters: Query := Query("", "", "", false)

  /** The term occurs, ignoring case, in the title, the company or the description. */
  predicate MatchesSearch(x: Listing, term: string) {
    || Text.ContainsIgnoreCase(x.title, term)
    || Text.ContainsIgnoreCase(x.company, term)
    || Text.ContainsIgnoreCase(x.description, term)
  }

  predicate Matches(x: Listing, q: Query) {
    && MatchesSearch(x, q.searchTerm)
    && (q.location == "" || x.location == q.location)
    && (q.industry == "" || x.industry == q.industry)
    && (!q.isRemote || x.isRemote)
  }

  /** `filteredInternships`. */
  function FilteredInternships(xs: seq<Listing>, q: Query): (r: seq<Listing>)
    ensures IsSubsequence(r, xs)
    ensures forall x :: x in r <==> x in xs && Matches(x, q)
    ensures q.location != "" ==> forall k :: 0 <= k < |r| ==> r[k].location == q.location
    ensures q.industry != "" ==> forall k :: 0 <= k < |r| ==> r[k].industry == q.industry
    ensures q.isRemote ==> forall k :: 0 <= k < |r| ==> r[k].isRemote
    ensures forall k :: 0 <= k < |r| ==> MatchesSearch(r[k], q.searchTerm)
  {
    Filter(xs, x => Matches(x, q))
  }

  /** The empty term matches every listing. */
  lemma EmptyTermMatchesAll(x: Listing)
    ensures MatchesSearch(x, "")
  {
    Text.EmptyTermMatches(x.title);
  }

  /** With no term and no filter the page lists every internship, in order. */
  lemma NoFiltersKeepsAll(xs: seq<Listing>)
    ensures FilteredInternships(xs, NoFilters) == xs
  {
    forall x | x in xs ensures Matches(x, NoFilters) {
      EmptyTermMatchesAll(x);
    }
    FilterAll(xs, x => Matches(x, NoFilters));
  }

  /** Turning off the remote-only box never hides a listing. */
  lemma RemoteOffIsWeaker(xs: seq<Listing>, q: Query)
    ensures forall x :: x in FilteredInternships(xs, q) ==> x in FilteredInternships(xs, q.(isRemote := false))
  {
  }
}
