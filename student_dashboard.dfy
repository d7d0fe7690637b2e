/**
 * The student's dashboard: the recommended-internship filter and its option
 * lists, the company lookup, the three most recent applications and the
 * counters shown at the top.
 */
module StudentDashboard {
  import opened Wrappers
  import opened Types
  import opened Seqs
  import opened Queries
  import Applications

  /** An entry of the company directory. */
  datatype CompanyInfo = CompanyInfo(name: string, logoUrl: Option<string>)

  const UnknownCompany: CompanyInfo := CompanyInfo("Unknown Company", None)

  /** `getCompanyById`: the directory entry, or the "Unknown Company" placeholder. */
  function CompanyById(companies: map<string, CompanyInfo>, id: string): (c: CompanyInfo)
    ensures id in companies ==> c == companies[id]
    ensures id !in companies ==> c.name == "Unknown Company" && c.logoUrl.None?
  {
    if id in companies then companies[id] else UnknownCompany
  }

  /**
   * The company name on a recent-application row: the company of the first
   * internship with the application's id, or "Unknown Company" when there is
   * no such internship or its company is not in the directory.
   */
  function RowCompanyName(internships: seq<Internship>, companies: map<string, CompanyInfo>, app: Application): (name: string)
    ensures (forall k :: 0 <= k < |internships| ==> internships[k].id != app.internshipId) ==> name == "Unknown Company"
    ensures forall k :: FirstWithId(internships, k, app.internshipId) ==>
      name == CompanyById(companies, internships[k].companyId).name
  {
    match InternshipById(internships, app.internshipId)
    case None => UnknownCompany.name
    case Some(x) => CompanyById(companies, x.companyId).name
  }

  predicate MatchesIndustry(x: Internship, industryFilter: string) {
    industryFilter == "" || x.industry == industryFilter
  }

  predicate MatchesSkill(x: Internship, skillFilter: string) {
    skillFilter == "" || skillFilter in x.skills
  }

  predicate Matches(x: Internship, industryFilter: string, skillFilter: string) {
    MatchesIndustry(x, industryFilter) && MatchesSkill(x, skillFilter)
  }

  /** `filteredInternships`: an empty filter lets everything through, a set one must match exactly. */
  function FilteredInternships(xs: seq<Internship>, industryFilter: string, skillFilter: string): (r: seq<Internship>)
    ensures forall x :: x in r <==>
      x in xs && (industryFilter == "" || x.industry == industryFilter) && (skillFilter == "" || skillFilter in x.skills)
    ensures IsSubsequence(r, xs)
  {
    Filter(xs, x => Matches(x, industryFilter, skillFilter))
  }

  /** With both drop-downs on "all", every recommended internship is shown, in order. */
  lemma NoFiltersKeepsAll(xs: seq<Internship>)
    ensures FilteredInternships(xs, "", "") == xs
  {
    FilterAll(xs, x => Matches(x, "", ""));
  }

  /** Choosing both filters is choosing the industry first and then the skill. */
  lemma FiltersCompose(xs: seq<Internship>, industryFilter: string, skillFilter: string)
    ensures FilteredInternships(xs, industryFilter, skillFilter) ==
      FilteredInternships(FilteredInternships(xs, industryFilter, ""), "", skillFilter)
  {
    FilterFilter(xs, x => Matches(x, industryFilter, ""), x => Matches(x, "", skillFilter),
      x => Matches(x, industryFilter, skillFilter));
  }

  function Industries(xs: seq<Internship>): (r: seq<string>)
    ensures |r| == |xs| && forall k :: 0 <= k < |xs| ==> r[k] == xs[k].industry
  {
    seq(|xs|, k requires 0 <= k < |xs| => xs[k].industry)
  }

  function SkillLists(xs: seq<Internship>): (r: seq<seq<string>>)
    ensures |r| == |xs| && forall k :: 0 <= k < |xs| ==> r[k] == xs[k].skills
  {
    seq(|xs|, k requires 0 <= k < |xs| => xs[k].skills)
  }

  /** The industry drop-down: each industry once. */
  function IndustryOptions(xs: seq<Internship>): (r: seq<string>)
    ensures Distinct(r)
    ensures forall o :: o in r <==> exists k :: 0 <= k < |xs| && xs[k].industry == o
  {
    var names := Industries(xs);
    assert forall o :: o in names <==> exists k :: 0 <= k < |xs| && xs[k].industry == o by {
      forall o | o in names ensures exists k :: 0 <= k < |xs| && xs[k].industry == o {
        var k :| 0 <= k < |names| && names[k] == o;
      }
    }
    Dedup(names)
  }

  /** The skill drop-down: each skill of any recommended internship once. */
  function SkillOptions(xs: seq<Internship>): (r: seq<string>)
    ensures Distinct(r)
    ensures forall o :: o in r <==> exists k :: 0 <= k < |xs| && o in xs[k].skills
  {
    var lists := SkillLists(xs);
    Dedup(Flatten(lists))
  }

  /** Every option in either drop-down leaves at least one internship on screen. */
  lemma OptionsNeverEmpty(xs: seq<Internship>, industry: string, skill: string)
    ensures industry in IndustryOptions(xs) ==> FilteredInternships(xs, industry, "") != []
    ensures skill in SkillOptions(xs) ==> FilteredInternships(xs, "", skill) != []
  {
    if industry in IndustryOptions(xs) {
      var k :| 0 <= k < |xs| && xs[k].industry == industry;
      assert xs[k] in FilteredInternships(xs, industry, "");
    }
    if skill in SkillOptions(xs) {
      var k :| 0 <= k < |xs| && skill in xs[k].skills;
      assert xs[k] in FilteredInternships(xs, "", skill);
    }
  }

  /** The "recent applications" list: the first three, in order. */
  function RecentApplications(apps: seq<Application>): (r: seq<Application>)
    ensures |r| == if |apps| < 3 then |apps| else 3
    ensures r == apps[..|r|]
  {
    Take(apps, 3)
  }

  /** What a recent-application row shows. */
  datatype RecentRowView = RecentRowView(title: string, companyName: string, statusText: string, link: string)

  /**
   * A recent-application row: the internship's title, its company's name,
   * the dashboard's `getStatusText` label of the status (the same switch as
   * the applications page) and the link to the internship's page.
   */
  function RecentRow(internships: seq<Internship>, companies: map<string, CompanyInfo>, app: Application): (v: RecentRowView)
    ensures v.title == RowTitle(internships, app)
    ensures v.companyName == RowCompanyName(internships, companies, app)
    ensures v.statusText != app.status.Name()
    ensures app.status == Pending ==> v.statusText == "審査待ち"
    ensures app.status == Reviewing ==> v.statusText == "審査中"
    ensures app.status == Interview ==> v.statusText == "面接段階"
    ensures app.status == Accepted ==> v.statusText == "合格"
    ensures app.status == Rejected ==> v.statusText == "不合格"
    ensures v.link == "/internship/" + app.internshipId
  {
    assert Applications.IsStatusName(app.status.Name());
    Applications.StatusTextLabels();
    RecentRowView(
      RowTitle(internships, app),
      RowCompanyName(internships, companies, app),
      Applications.StatusText(app.status.Name()),
      "/internship/" + app.internshipId)
  }

  /** The interview counter: how many applications are at the interview stage. */
  function InterviewCount(apps: seq<Application>): (n: nat)
    ensures n <= |apps|
    ensures n == |Applications.FilteredApplications(apps, Interview.Name())|
    ensures n == 0 <==> forall k :: 0 <= k < |apps| ==> apps[k].status != Interview
  {
    Applications.EmptyStateIff(apps, Interview.Name());
    Types.NamesDistinct();
    |Applications.FilteredApplications(apps, Interview.Name())|
  }

  /**
   * A scout row: the sender's company and, when the scout names an
   * internship by a non-empty id, the first internship with that id; an
   * absent or empty id is falsy and shows no internship.
   */
  function ScoutRow(internships: seq<Internship>, companies: map<string, CompanyInfo>, s: Scout): (r: (CompanyInfo, Option<Internship>))
    ensures r.0 == CompanyById(companies, s.companyId)
    ensures (s.internshipId.None? || s.internshipId == Some("")) ==> r.1.None?
    ensures r.1.Some? ==> r.1.value in internships && Some(r.1.value.id) == s.internshipId
    ensures s.internshipId.Some? && s.internshipId.value != "" ==>
      forall k :: FirstWithId(internships, k, s.internshipId.value) ==> r.1 == Some(internships[k])
  {
    (CompanyById(companies, s.companyId),
     if s.internshipId.Some? && s.internshipId.value != "" then InternshipById(internships, s.internshipId.value) else None)
  }
}
