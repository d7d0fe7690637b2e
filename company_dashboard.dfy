/**
 * The company's dashboard: the metric cards, the next application deadline,
 * the five most recent applications, the per-internship cards and the
 * draft reminder banner.
 */
module CompanyDashboard {
  import opened Wrappers
  import opened Types
  import opened Seqs
  import opened Text
  import opened Queries

  predicate IsPublished(x: Internship) {
    x.status == Published
  }

  predicate IsDraft(x: Internship) {
    x.status == Draft
  }

  /** The five numbers at the top of the page. */
  datatype Metrics = Metrics(active: nat, drafts: nat, total: nat, pending: nat, interview: nat)

  /**
   * `activeInternships`, `draftInternships`, `totalApplications`,
   * `pendingApplications`, `interviewApplications`.
   */
  function ComputeMetrics(internships: seq<Internship>, apps: seq<Application>): (m: Metrics)
    ensures m.active == CountIf(internships, IsPublished)
    ensures m.drafts == CountIf(internships, IsDraft)
    ensures m.active + m.drafts <= |internships|
    ensures m.total == |apps|
    ensures m.pending == |ApplicationsByStatus(apps, Pending.Name())|
    ensures m.interview == |ApplicationsByStatus(apps, Interview.Name())|
    ensures m.pending + m.interview <= m.total
  {
    FilterLength(internships, IsPublished);
    FilterLength(internships, IsDraft);
    CountIfDisjoint(internships, IsPublished, IsDraft);
    ByStatusCount(apps, Pending.Name());
    ByStatusCount(apps, Interview.Name());
    CountIfDisjoint(apps, a => HasStatus(a, Pending.Name()), a => HasStatus(a, Interview.Name()));
    Metrics(|Filter(internships, IsPublished)|, |Filter(internships, IsDraft)|, |apps|,
      |ApplicationsByStatus(apps, Pending.Name())|, |ApplicationsByStatus(apps, Interview.Name())|)
  }

  /**
   * The position of the published internship a stable ascending sort by
   * deadline puts first: a published one whose deadline is minimal among the
   * published, and the earliest in list order among those that tie.
   */
  function EarliestDeadlineIndex(xs: seq<Internship>): (r: Option<nat>)
    ensures r.None? <==> forall k :: 0 <= k < |xs| ==> xs[k].status != Published
    ensures r.Some? ==> r.value < |xs| && xs[r.value].status == Published
    ensures r.Some? ==> forall j :: 0 <= j < |xs| && xs[j].status == Published ==>
                          xs[r.value].applicationDeadline <= xs[j].applicationDeadline
    ensures r.Some? ==> forall j :: 0 <= j < r.value && xs[j].status == Published ==>
                          xs[j].applicationDeadline > xs[r.value].applicationDeadline
    decreases |xs|
  {
    if xs == [] then None
    else
      var rest := EarliestDeadlineIndex(xs[1..]);
      if xs[0].status == Published && (rest.None? || xs[0].applicationDeadline <= xs[1..][rest.value].applicationDeadline) then
        Some(0)
      else if rest.Some? then
        Some(rest.value + 1)
      else None
  }

  /** `getNextDeadline`'s internship: none when nothing is published. */
  function NextDeadline(xs: seq<Internship>): (r: Option<Internship>)
    ensures r.None? <==> forall x :: x in xs ==> x.status != Published
    ensures r.Some? ==> r.value in xs && r.value.status == Published
    ensures r.Some? ==> forall x :: x in xs && x.status == Published ==> r.value.applicationDeadline <= x.applicationDeadline
  {
    match EarliestDeadlineIndex(xs)
    case None => None
    case Some(k) => Some(xs[k])
  }

  const DayMs: int := 24 * 60 * 60 * 1000

  /** `Math.ceil((deadline - now) / DayMs)`: the least whole number of days covering the time left. */
  function DaysRemaining(deadline: Timestamp, now: Timestamp): (d: int)
    ensures (d - 1) * DayMs < deadline - now <= d * DayMs
  {
    var diff := deadline - now;
    var q := diff / DayMs;
    if q * DayMs == diff then q else q + 1
  }

  /** An entry of the student directory. */
  datatype StudentInfo = StudentInfo(name: string, university: string, avatarUrl: Option<string>)

  /** `getStudentById`: the directory entry, or the unknown-student placeholder. */
  function StudentById(students: map<string, StudentInfo>, id: string): (s: StudentInfo)
    ensures id in students ==> s == students[id]
    ensures id !in students ==> s.name == "Unknown Student" && s.university == "Unknown University" && s.avatarUrl.None?
  {
    if id in students then students[id] else StudentInfo("Unknown Student", "Unknown University", None)
  }

  /** The "recent applications" list: the first five, in order. */
  function RecentApplications(apps: seq<Application>): (r: seq<Application>)
    ensures |r| == if |apps| < 5 then |apps| else 5
    ensures r == apps[..|r|]
  {
    Take(apps, 5)
  }

  /** The badge on a recent application: one wording per status, all different. */
  function RowBadge(st: ApplicationStatus): string {
    match st
    case Pending => "Pending Review"
    case Reviewing => "Under Review"
    case Interview => "Interview Stage"
    case Accepted => "Accepted"
    case Rejected => "Rejected"
  }

  lemma RowBadgesDistinct(a: ApplicationStatus, b: ApplicationStatus)
    ensures RowBadge(a) == RowBadge(b) <==> a == b
  {
  }

  /** The two numbers on an internship's card. */
  datatype CardCounts = CardCounts(applications: nat, needsReview: nat)

  predicate PendingFor(a: Application, internshipId: string) {
    a.internshipId == internshipId && a.status == Pending
  }

  /** "Applications" counts those for the internship; "Needs Review" the pending ones among them. */
  function CardFor(apps: seq<Application>, x: Internship): (c: CardCounts)
    ensures c.applications == |ApplicationsFor(apps, x.id)|
    ensures c.needsReview == CountIf(apps, a => PendingFor(a, x.id))
    ensures c.needsReview <= c.applications
  {
    var mine := ApplicationsFor(apps, x.id);
    var pending := ApplicationsByStatus(mine, Pending.Name());
    FilterFilter(apps, a => IsFor(a, x.id), a => HasStatus(a, Pending.Name()), a => PendingFor(a, x.id));
    FilterLength(apps, a => PendingFor(a, x.id));
    CardCounts(|mine|, |pending|)
  }

  /** The badge on an internship's card: anything unpublished reads "Draft". */
  function CardBadge(x: Internship): (b: string)
    ensures b == "Published" <==> x.status == Published
    ensures b == "Draft" <==> x.status != Published
  {
    if x.status == Published then "Published" else "Draft"
  }

  /** The draft reminder: the count and the three words that agree with it. */
  datatype Banner = Banner(count: string, noun: string, verb: string, pronoun: string) {
    function Message(): string {
      "You have " + count + " draft " + noun + " that " + verb + " not yet published."
    }
    function Action(): string {
      "Complete and publish " + pronoun + " to start receiving applications."
    }
  }

  /** `draftInternships > 0 && (...)`: the banner, with singular wording exactly when there is one draft. */
  function DraftBanner(drafts: nat): (r: Option<Banner>)
    ensures r.Some? <==> drafts > 0
    ensures r.Some? ==> ParseDecimal(r.value.count) == Some(drafts as int)
    ensures r.Some? ==> (r.value.noun == "internship" <==> drafts == 1) && (r.value.noun == "internships" <==> drafts != 1)
    ensures r.Some? ==> (r.value.verb == "is" <==> drafts == 1) && (r.value.verb == "are" <==> drafts != 1)
    ensures r.Some? ==> (r.value.pronoun == "it" <==> drafts == 1) && (r.value.pronoun == "them" <==> drafts != 1)
  {
    if drafts == 0 then None
    else
      DecimalRoundTrip(drafts);
      var one := drafts == 1;
      Some(Banner(DecimalString(drafts),
        if one then "internship" else "internships",
        if one then "is" else "are",
        if one then "it" else "them"))
  }

  /** The banner appears exactly when some internship is a draft. */
  lemma BannerIffDraftExists(internships: seq<Internship>, apps: seq<Application>)
    ensures DraftBanner(ComputeMetrics(internships, apps).drafts).Some? <==>
      exists k :: 0 <= k < |internships| && internships[k].status == Draft
  {
    CountIfPositive(internships, IsDraft);
  }
}
