/**
 * The internship details page: the simulated fetch, the apply flow's
 * `isSubmitting` / `hasApplied` flags, and which apply controls a viewer
 * sees.
 */
module InternshipDetails {
  import opened Wrappers
  import opened Types

  const DayMs: int := 24 * 60 * 60 * 1000

  const MockDescription: string :=
    "Join our dynamic team as a frontend developer intern. You will work closely with senior developers to build and maintain modern web applications using React and TypeScript. This is a great opportunity to gain hands-on experience in a fast-paced startup environment."

  const MockRequirements: seq<string> :=
    ["Currently pursuing a degree in Computer Science or related field",
     "Strong understanding of HTML, CSS, and JavaScript",
     "Familiarity with React and modern frontend development practices",
     "Good problem-solving skills and attention to detail",
     "Ability to work both independently and as part of a team",
     "Basic understanding of version control systems (Git)"]

  const MockResponsibilities: seq<string> :=
    ["Develop and maintain frontend components using React and TypeScript",
     "Collaborate with the design team to implement user interfaces",
     "Write clean, maintainable, and efficient code",
     "Participate in code reviews and team meetings",
     "Help identify and fix bugs",
     "Document code and development processes"]

  /** The one internship the page ever loads; its dates are relative to the moment of the fetch. */
  function MockInternship(now: Timestamp): (x: Internship)
    ensures x.id == "101" && x.companyId == "c1" && x.status == Published
  {
    Internship(
      "101", "c1", "Frontend Developer Intern",
      MockDescription, MockRequirements, MockResponsibilities,
      "Tokyo", true, Salary(2000, Hourly),
      now + 30 * DayMs, now + 120 * DayMs, 20, now + 14 * DayMs,
      "Technology", ["React", "TypeScript", "HTML", "CSS", "Git", "REST APIs"], Published,
      now - 7 * DayMs, now - 7 * DayMs)
  }

  /** What the page renders as a whole. */
  datatype Screen = Spinner | NotFound | Details(internship: Internship)

  function ScreenOf(isLoading: bool, loaded: Option<Internship>): (s: Screen)
    ensures s == Spinner <==> isLoading
    ensures s == NotFound <==> !isLoading && loaded.None?
    ensures s.Details? ==> loaded == Some(s.internship)
  {
    if isLoading then Spinner
    else if loaded.None? then NotFound
    else Details(loaded.value)
  }

  /** The two flags of the apply flow. */
  datatype ApplyState = ApplyState(hasApplied: bool, isSubmitting: bool)

  /** An apply button: its text and whether it is disabled. */
  datatype Button = Button(text: string, disabled: bool)

  /** The header's apply area: a button, or the "Applied" mark once applied. */
  datatype HeaderControl = ApplyButton(button: Button) | AppliedMark

  predicate IsStudent(viewer: Option<User>) {
    viewer.Some? && viewer.value.userType == Student
  }

  /** The header control: students only; "Applied" once applied, else "Apply Now" / "Applying...". */
  function Header(viewer: Option<User>, s: ApplyState): (h: Option<HeaderControl>)
    ensures h.Some? <==> IsStudent(viewer)
    ensures h == Some(AppliedMark) <==> IsStudent(viewer) && s.hasApplied
    ensures h.Some? && h.value.ApplyButton? ==>
      h.value.button.disabled == s.isSubmitting &&
      h.value.button.text == (if s.isSubmitting then "Applying..." else "Apply Now")
  {
    if !IsStudent(viewer) then None
    else if s.hasApplied then Some(AppliedMark)
    else Some(ApplyButton(Button(if s.isSubmitting then "Applying..." else "Apply Now", s.isSubmitting)))
  }

  /** The fixed bottom bar: students who have not applied yet. */
  function BottomBar(viewer: Option<User>, s: ApplyState): (b: Option<Button>)
    ensures b.Some? <==> IsStudent(viewer) && !s.hasApplied
    ensures b.Some? ==> b.value.disabled == s.isSubmitting
    ensures b.Some? ==> b.value.text == if s.isSubmitting then "Applying..." else "Apply for this Internship"
  {
    if IsStudent(viewer) && !s.hasApplied then
      Some(Button(if s.isSubmitting then "Applying..." else "Apply for this Internship", s.isSubmitting))
    else None
  }

  /** Whatever the state, a student sees exactly one way to apply or the mark that they have. */
  lemma StudentSeesOneControl(viewer: Option<User>, s: ApplyState)
    requires IsStudent(viewer)
    ensures Header(viewer, s) == Some(AppliedMark) <==> BottomBar(viewer, s).None?
    ensures Header(viewer, s).value.ApplyButton? ==> Header(viewer, s).value.button.disabled == BottomBar(viewer, s).value.disabled
  {
  }

  class DetailsPage {
    /** The `:id` route parameter; the fetch does not use it. */
    const routeId: string
    var isLoading: bool
    var loaded: Option<Internship>
    var hasApplied: bool
    var isSubmitting: bool

    function State(): ApplyState
      reads this
    {
      ApplyState(hasApplied, isSubmitting)
    }

    function Shown(): Screen
      reads this
    {
      ScreenOf(isLoading, loaded)
    }

    constructor (routeId: string)
      ensures this.routeId == routeId
      ensures isLoading && loaded.None? && !hasApplied && !isSubmitting
    {
      this.routeId := routeId;
      isLoading, loaded, hasApplied, isSubmitting := true, None, false, false;
    }

    /** The timer of the simulated fetch fires: the mock internship is shown, whatever the route said. */
    method FinishLoad(now: Timestamp)
      modifies this`isLoading, this`loaded
      ensures loaded == Some(MockInternship(now)) && !isLoading
    {
      loaded := Some(MockInternship(now));
      isLoading := false;
    }

    /** `handleApply` up to its `await`. */
    method BeginApply()
      modifies this`isSubmitting
      ensures isSubmitting
    {
      isSubmitting := true;
    }

    /** `handleApply` after its `await`: the simulated call always succeeds, and `finally` clears the flag. */
    method FinishApply()
      modifies this`hasApplied, this`isSubmitting
      ensures hasApplied && !isSubmitting
    {
      hasApplied := true;
      isSubmitting := false;
    }
  }

  /** Whatever the route's id, the page ends up showing internship "101". */
  method OpenAnyRoute(routeId: string, now: Timestamp) returns (shown: Screen)
    ensures shown.Details? && shown.internship.id == "101"
  {
    var page := new DetailsPage(routeId);
    page.FinishLoad(now);
    shown := page.Shown();
  }

  /**
   * A student presses "Apply": while the call is pending both buttons are
   * disabled and read "Applying..."; afterwards the bottom bar is gone and
   * the header shows "Applied" in place of the button, so nothing is left
   * to press.
   */
  method ApplyAsStudent(student: User, now: Timestamp)
    returns (pendingHeader: Option<HeaderControl>, pendingBar: Option<Button>,
             doneHeader: Option<HeaderControl>, doneBar: Option<Button>)
    requires student.userType == Student
    ensures pendingHeader == Some(ApplyButton(Button("Applying...", true)))
    ensures pendingBar == Some(Button("Applying...", true))
    ensures doneHeader == Some(AppliedMark) && doneBar == None
  {
    var page := new DetailsPage("101");
    page.FinishLoad(now);
    page.BeginApply();
    pendingHeader := Header(Some(student), page.State());
    pendingBar := BottomBar(Some(student), page.State());
    page.FinishApply();
    doneHeader := Header(Some(student), page.State());
    doneBar := BottomBar(Some(student), page.State());
  }

  /** Companies, admins and visitors never see an apply control. */
  lemma NonStudentsSeeNoControls(viewer: Option<User>, s: ApplyState)
    requires !IsStudent(viewer)
    ensures Header(viewer, s).None? && BottomBar(viewer, s).None?
  {
  }
}
