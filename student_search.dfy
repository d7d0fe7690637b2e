/**
 * The company's student search: one `filter` over the page's student
 * records with a name-or-skill term and three optional selections.
 */
module StudentSearch {
  import opened Seqs
  import Text

  /** The student shape the search page works on. */
  datatype StudentCard = StudentCard(
    id: string,
    name: string,
    university: string,
    major: string,
    graduationYear: int,
    location: string,
    skills: seq<string>,
    bio: string)

  /** `searchTerm`, `selectedUniversity`, `selectedMajor`, `selectedGradYear`; `""` means no restriction. */
  datatype Query = Query(searchTerm: string, university: string, major: string, gradYear: string)

  const NoFilters: Query := Query("", "", "", "")

  /** The term occurs, ignoring case, in the name or in some skill. */
  predicate MatchesSearch(s: StudentCard, term: string) {
    || Text.ContainsIgnoreCase(s.name, term)
    || exists k :: 0 <= k < |s.skills| && Text.ContainsIgnoreCase(s.skills[k], term)
  }

  /** `graduationYear.toString() === selectedGradYear`. */
  predicate MatchesGradYear(s: StudentCard, gradYear: string) {
    gradYear == "" || Text.DecimalString(s.graduationYear) == gradYear
  }

  predicate Matches(s: StudentCard, q: Query) {
    && MatchesSearch(s, q.searchTerm)
    && (q.university == "" || s.university == q.university)
    && (q.major == "" || s.major == q.major)
    && MatchesGradYear(s, q.gradYear)
  }

  /** `filteredStudents`. */
  function FilteredStudents(xs: seq<StudentCard>, q: Query): (r: seq<StudentCard>)
    ensures IsSubsequence(r, xs)
    ensures forall s :: s in r <==> s in xs && Matches(s, q)
    ensures q.university != "" ==> forall k :: 0 <= k < |r| ==> r[k].university == q.university
    ensures q.major != "" ==> forall k :: 0 <= k < |r| ==> r[k].major == q.major
  {
    Filter(xs, s => Matches(s, q))
  }

  /** Selecting the decimal form of year `y` keeps exactly the students graduating in `y`. */
  lemma GradYearSelectsYear(xs: seq<StudentCard>, q: Query, y: int)
    requires q.gradYear == Text.DecimalString(y)
    ensures forall s :: s in FilteredStudents(xs, q) ==> s.graduationYear == y
    ensures forall s :: s in xs && Matches(s, q.(gradYear := "")) && s.graduationYear == y ==>
      s in FilteredStudents(xs, q)
  {
    forall s | s in FilteredStudents(xs, q) ensures s.graduationYear == y {
      Text.DecimalInjective(s.graduationYear, y);
    }
  }

  /**
   * A selection that is no integer's decimal string (a word, or a number
   * written with a leading zero or a plus sign) keeps nobody.
   */
  lemma NonNumericYearKeepsNone(xs: seq<StudentCard>, q: Query)
    requires q.gradYear != "" && forall n: int :: Text.DecimalString(n) != q.gradYear
    ensures FilteredStudents(xs, q) == []
  {
    forall s | s in xs ensures !Matches(s, q) {
      assert Text.DecimalString(s.graduationYear) != q.gradYear;
    }
    FilterNone(xs, s => Matches(s, q));
  }

  /** In particular, a selection that does not parse as a decimal integer keeps nobody. */
  lemma UnparsableYearKeepsNone(xs: seq<StudentCard>, q: Query)
    requires q.gradYear != "" && Text.ParseDecimal(q.gradYear).None?
    ensures FilteredStudents(xs, q) == []
  {
    forall n: int ensures Text.DecimalString(n) != q.gradYear {
      Text.DecimalRoundTrip(n);
    }
    NonNumericYearKeepsNone(xs, q);
  }

  /** The term is not looked up in the bio, the university, the major or the location. */
  lemma SearchIgnoresOtherFields(s: StudentCard, term: string, bio: string, university: string, major: string, location: string)
    ensures MatchesSearch(s.(bio := bio, university := university, major := major, location := location), term)
            == MatchesSearch(s, term)
  {
  }

  /** With no term and no selection every student is listed, in order. */
  lemma NoFiltersKeepsAll(xs: seq<StudentCard>)
    ensures FilteredStudents(xs, NoFilters) == xs
  {
    forall s | s in xs ensures Matches(s, NoFilters) {
      Text.EmptyTermMatches(s.name);
    }
    FilterAll(xs, s => Matches(s, NoFilters));
  }
}
