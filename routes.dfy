/**
 * The `<Routes>` table of the application: which page each path renders and
 * which role, if any, the `ProtectedRoute` around it demands. The guard's
 * runtime decision is not part of this model, only the table.
 */
module Routes {
  import opened Wrappers
  import opened Types
  import Auth

  datatype Page =
    | Landing | LoginPage | RegisterPage
    | StudentDashboard | StudentProfile | InternshipSearch | Applications
    | CompanyDashboard | CompanyProfile | CreateInternship | ManageInternships | StudentSearch
    | InternshipDetails | Messages | NotFound

  /** No guard, or a `ProtectedRoute` with an optional `userType`. */
  datatype Guard = Open | Protected(role: Option<UserType>)

  datatype Route = Render(page: Page, guard: Guard) | Redirect(to: string)

  const StudentPrefix: string := "/学生/"
  const CompanyPrefix: string := "/企業/"
  const DetailsPrefix: string := "/インターンシップ/"

  predicate StartsWith(s: string, prefix: string) {
    |prefix| <= |s| && s[..|prefix|] == prefix
  }

  /** `/インターンシップ/:id`: the prefix followed by one non-empty segment. */
  predicate IsDetailsPath(path: string) {
    StartsWith(path, DetailsPrefix) && |path| > |DetailsPrefix| && '/' !in path[|DetailsPrefix|..]
  }

  /** The route the router picks for `path`, entry by entry as the table lists them. */
  function Resolve(path: string): Route {
    if path == "/" then Render(Landing, Open)
    else if path == "/ログイン" then Render(LoginPage, Open)
    else if path == "/新規登録" then Render(RegisterPage, Open)
    else if path == "/学生/ダッシュボード" then Render(StudentDashboard, Protected(Some(Student)))
    else if path == "/学生/プロフィール" then Render(StudentProfile, Protected(Some(Student)))
    else if path == "/学生/インターンシップ検索" then Render(InternshipSearch, Protected(Some(Student)))
    else if path == "/学生/応募一覧" then Render(Applications, Protected(Some(Student)))
    else if path == "/企業/ダッシュボード" then Render(CompanyDashboard, Protected(Some(Company)))
    else if path == "/企業/プロフィール" then Render(CompanyProfile, Protected(Some(Company)))
    else if path == "/企業/インターンシップ作成" then Render(CreateInternship, Protected(Some(Company)))
    else if path == "/企業/インターンシップ管理" then Render(ManageInternships, Protected(Some(Company)))
    else if path == "/企業/学生検索" then Render(StudentSearch, Protected(Some(Company)))
    else if IsDetailsPath(path) then Render(InternshipDetails, Open)
    else if path == "/メッセージ" then Render(Messages, Protected(None))
    else if path == "/404" then Render(NotFound, Open)
    else Redirect("/404")
  }

  /** A string that differs from `prefix` at some position inside both does not start with it. */
  lemma NotStartsWith(s: string, prefix: string, i: nat)
    requires i < |prefix| && i < |s| && s[i] != prefix[i]
    ensures !StartsWith(s, prefix)
  {
  }

  /** A path that starts with `prefix` has `prefix`'s characters at its front. */
  lemma StartsWithAt(s: string, prefix: string, i: nat)
    requires StartsWith(s, prefix) && i < |prefix|
    ensures s[i] == prefix[i]
  {
    assert s[..|prefix|][i] == s[i];
  }

  /** The landing, login, registration and not-found pages are not guarded. */
  lemma PublicPages()
    ensures Resolve("/") == Render(Landing, Open)
    ensures Resolve("/ログイン") == Render(LoginPage, Open)
    ensures Resolve("/新規登録") == Render(RegisterPage, Open)
    ensures Resolve("/404") == Render(NotFound, Open)
  {
  }

  /** Every path under `/学生/` that renders a page is guarded for students. */
  lemma StudentRoutesGuarded(path: string)
    requires StartsWith(path, StudentPrefix)
    ensures Resolve(path).Render? ==> Resolve(path).guard == Protected(Some(Student))
  {
    StartsWithAt(path, StudentPrefix, 1);
    NotStartsWith(path, DetailsPrefix, 1);
  }

  /** Every path under `/企業/` that renders a page is guarded for companies. */
  lemma CompanyRoutesGuarded(path: string)
    requires StartsWith(path, CompanyPrefix)
    ensures Resolve(path).Render? ==> Resolve(path).guard == Protected(Some(Company))
  {
    StartsWithAt(path, CompanyPrefix, 1);
    NotStartsWith(path, DetailsPrefix, 1);
  }

  /** The details route takes any single id segment and is not guarded. */
  lemma DetailsForAnyId(id: string)
    requires id != [] && '/' !in id
    ensures Resolve(DetailsPrefix + id) == Render(InternshipDetails, Open)
  {
    var p := DetailsPrefix + id;
    assert p[..|DetailsPrefix|] == DetailsPrefix;
    assert p[|DetailsPrefix|..] == id;
    assert p[1] == 'イ';
  }

  /** Messages need a signed-in user of any role. */
  lemma MessagesNeedsAnyUser()
    ensures Resolve("/メッセージ") == Render(Messages, Protected(None))
  {
    NotStartsWith("/メッセージ", DetailsPrefix, 1);
  }

  /** The known paths: every literal entry of the table, and the details pattern. */
  predicate Known(path: string) {
    || path in {"/", "/ログイン", "/新規登録", "/404", "/メッセージ"}
    || path in {"/学生/ダッシュボード", "/学生/プロフィール", "/学生/インターンシップ検索", "/学生/応募一覧"}
    || path in {"/企業/ダッシュボード", "/企業/プロフィール", "/企業/インターンシップ作成",
                "/企業/インターンシップ管理", "/企業/学生検索"}
    || IsDetailsPath(path)
  }

  /** The catch-all entry: a path redirects, and then to `/404`, exactly when no entry knows it. */
  lemma CatchAll(path: string)
    ensures Resolve(path).Redirect? <==> !Known(path)
    ensures Resolve(path).Redirect? ==> Resolve(path).to == "/404"
  {
  }

  /**
   * The English paths that pages link or navigate to are not in the table,
   * so each of them lands on the not-found redirect.
   */
  lemma EnglishLinksAreNotFound()
    ensures Resolve("/company/create-internship") == Redirect("/404")
    ensures Resolve("/company/manage-internships") == Redirect("/404")
    ensures Resolve("/student/search") == Redirect("/404")
    ensures Resolve("/student/applications") == Redirect("/404")
    ensures Resolve("/internship/101") == Redirect("/404")
  {
    NotStartsWith("/company/create-internship", DetailsPrefix, 1);
    NotStartsWith("/company/manage-internships", DetailsPrefix, 1);
    NotStartsWith("/student/search", DetailsPrefix, 1);
    NotStartsWith("/student/applications", DetailsPrefix, 1);
    NotStartsWith("/internship/101", DetailsPrefix, 1);
  }

  /**
   * Where `login` and `register` send a user of role `r` is a page guarded
   * for role `r`; only the admin role gets no redirect.
   */
  lemma RedirectsLandOnOwnRole(r: UserType)
    ensures Auth.LoginTarget(r).Some? <==> r != Admin
    ensures Auth.RegisterTarget(r).Some? <==> r != Admin
    ensures Auth.LoginTarget(r).Some? ==>
      Resolve(Auth.LoginTarget(r).value).Render? &&
      Resolve(Auth.LoginTarget(r).value).guard == Protected(Some(r))
    ensures Auth.RegisterTarget(r).Some? ==>
      Resolve(Auth.RegisterTarget(r).value).Render? &&
      Resolve(Auth.RegisterTarget(r).value).guard == Protected(Some(r))
  {
  }

  /** A user who logs in is sent to the dashboard guarded for the role the email gives them. */
  lemma LoginLandsOnOwnDashboard(email: string, now: Timestamp)
    ensures var u := Auth.LoginUser(email, now);
      Auth.LoginTarget(u.userType).Some? &&
      Resolve(Auth.LoginTarget(u.userType).value) ==
        (if u.userType == Company then Render(CompanyDashboard, Protected(Some(Company)))
         else Render(StudentDashboard, Protected(Some(Student))))
  {
    RedirectsLandOnOwnRole(Auth.LoginUser(email, now).userType);
  }
}
