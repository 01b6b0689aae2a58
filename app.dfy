/**
 * The route table and the route guard of the application shell
 * (src/App.tsx): which page a path shows, which role a page demands, and
 * what `ProtectedRoute` renders for the current sign-in state.
 */
module App {
  import opened Types
  import opened Strings

  datatype AppRole = Hr | Candidate

  /** The pages the router can show; the two `:id` routes carry their parameter. */
  datatype Page =
    | Landing | AuthPage | DemoDashboardPage | DemoReportPage(demoId: string)
    | CandidateDashboardPage | DashboardPage | UploadPage | BulkUploadPage
    | ReportsPage | ReportPage(reportId: string) | ComparePage | NotFoundPage

  /** A route: its page, and the role `ProtectedRoute` demands (`None` for an open route). */
  datatype RouteEntry = RouteEntry(page: Page, guarded: bool, allowedRole: Option<AppRole>)

  /** What `ProtectedRoute` renders: nothing, a redirect, or the page itself. */
  datatype Guard = RenderNothing | RedirectTo(path: string) | RenderChildren

  /** The sign-in state `useAuth` provides. */
  datatype AuthState = AuthState(loading: bool, signedIn: bool, userRole: Option<AppRole>)

  /** `ProtectedRoute`: lines 24-29. */
  function ProtectedRoute(auth: AuthState, allowedRole: Option<AppRole>): (g: Guard)
    ensures g == RenderNothing <==> auth.loading
    ensures g == RedirectTo("/auth") <==> !auth.loading && !auth.signedIn
    ensures g.RedirectTo? && g.path != "/auth" <==>
      !auth.loading && auth.signedIn && allowedRole.Some? && auth.userRole.Some? && auth.userRole != allowedRole
    ensures g == RenderChildren <==>
      !auth.loading && auth.signedIn && (allowedRole.None? || auth.userRole.None? || auth.userRole == allowedRole)
  {
    if auth.loading then RenderNothing
    else if !auth.signedIn then RedirectTo("/auth")
    else if allowedRole.Some? && auth.userRole.Some? && auth.userRole != allowedRole then
      RedirectTo(if auth.userRole.value == Candidate then "/candidate" else "/dashboard")
    else RenderChildren
  }

  // ---------------------------------------------------------------------
  // Path matching. None of the routes sets `caseSensitive`, so React
  // Router 6 compares the pattern without regard to ASCII case, and every
  // pattern accepts any number of trailing slashes. An empty pathname is
  // read as "/".
  // ---------------------------------------------------------------------

  /** ASCII lower case, the folding a case-insensitive match of an ASCII pattern amounts to. */
  function LowerChar(c: char): (l: char)
    ensures l == '/' <==> c == '/'
    ensures 'A' <= c <= 'Z' ==> 'a' <= l <= 'z'
    ensures !('A' <= c <= 'Z') ==> l == c
  {
    if 'A' <= c <= 'Z' then (c as int + 32) as char else c
  }

  function Lower(s: string): string
  {
    seq(|s|, i requires 0 <= i < |s| => LowerChar(s[i]))
  }

  /** `s` with its trailing slashes removed: what a pattern followed by any number of slashes has to match. */
  function TrimSlashes(s: string): (t: string)
    ensures t <= s
    ensures t == [] || t[|t| - 1] != '/'
    ensures forall i :: |t| <= i < |s| ==> s[i] == '/'
  {
    if s != [] && s[|s| - 1] == '/' then TrimSlashes(s[..|s| - 1]) else s
  }

  /** The form of a path every static route is compared with. */
  function Canonical(path: string): string
  {
    Lower(TrimSlashes(path))
  }

  /**
   * The parameter of a `prefix:id` route: after trailing slashes are
   * dropped, the prefix in any case and then one non-empty segment, which
   * keeps the case it was written in.
   */
  function Param(path: string, prefix: string): (r: Option<string>)
    ensures r.Some? ==>
      && r.value != [] && '/' !in r.value
      && |TrimSlashes(path)| == |prefix| + |r.value|
      && Lower(TrimSlashes(path)[..|prefix|]) == prefix
      && TrimSlashes(path)[|prefix|..] == r.value
  {
    var t := TrimSlashes(path);
    if |t| > |prefix| && Lower(t[..|prefix|]) == prefix && '/' !in t[|prefix|..] then
      Some(t[|prefix|..])
    else None
  }

  function Open(p: Page): RouteEntry { RouteEntry(p, false, None) }
  function For(p: Page, role: AppRole): RouteEntry { RouteEntry(p, true, Some(role)) }

  /** The `<Routes>` table, lines 34-45; anything else is the not-found page. */
  function RouteFor(path: string): (r: RouteEntry)
    ensures r.guarded <==> r.allowedRole.Some?
  {
    var c := Canonical(path);
    if c == "" then Open(Landing)
    else if c == "/auth" then Open(AuthPage)
    else if c == "/demo" then Open(DemoDashboardPage)
    else if Param(path, "/demo/").Some? then Open(DemoReportPage(Param(path, "/demo/").value))
    else if c == "/candidate" then For(CandidateDashboardPage, Candidate)
    else if c == "/dashboard" then For(DashboardPage, Hr)
    else if c == "/upload" then For(UploadPage, Hr)
    else if c == "/bulk-upload" then For(BulkUploadPage, Hr)
    else if c == "/reports" then For(ReportsPage, Hr)
    else if Param(path, "/reports/").Some? then For(ReportPage(Param(path, "/reports/").value), Hr)
    else if c == "/compare" then For(ComparePage, Hr)
    else Open(NotFoundPage)
  }

  lemma LowerPrefix(s: string, k: int)
    requires 0 <= k <= |s|
    ensures Lower(s)[..k] == Lower(s[..k])
    ensures '/' in s[k..] <==> '/' in Lower(s)[k..]
  {
    if '/' in Lower(s)[k..] {
      var j :| 0 <= j < |Lower(s)[k..]| && Lower(s)[k..][j] == '/';
      assert s[k..][j] == '/';
    }
    if '/' in s[k..] {
      var j :| 0 <= j < |s[k..]| && s[k..][j] == '/';
      assert Lower(s)[k..][j] == '/';
    }
  }

  /** Whether a `prefix:id` route matches depends only on the canonical form of the path. */
  lemma ParamMatchCanonical(a: string, b: string, prefix: string)
    requires Canonical(a) == Canonical(b)
    ensures Param(a, prefix).Some? <==> Param(b, prefix).Some?
  {
    var ta, tb := TrimSlashes(a), TrimSlashes(b);
    assert |ta| == |Lower(ta)| == |Lower(tb)| == |tb|;
    if |ta| >= |prefix| {
      LowerPrefix(ta, |prefix|);
      LowerPrefix(tb, |prefix|);
    }
  }

  /**
   * Paths that differ only in ASCII case or in trailing slashes lead to the
   * same route, with the same guard; only a `:id` parameter keeps the case
   * it was written in.
   */
  lemma {:induction false} RouteDependsOnCanonicalPath(a: string, b: string)
    requires Canonical(a) == Canonical(b)
    ensures RouteFor(a).guarded == RouteFor(b).guarded
    ensures RouteFor(a).allowedRole == RouteFor(b).allowedRole
    ensures RouteFor(a).page == RouteFor(b).page ||
      (RouteFor(a).page.DemoReportPage? && RouteFor(b).page.DemoReportPage?) ||
      (RouteFor(a).page.ReportPage? && RouteFor(b).page.ReportPage?)
  {
    ParamMatchCanonical(a, b, "/demo/");
    ParamMatchCanonical(a, b, "/reports/");
  }

  /** Trailing slashes after a path that does not end in one are exactly what trimming removes. */
  lemma {:induction false} TrimSlashesOf(s: string, slashes: string)
    requires s == [] || s[|s| - 1] != '/'
    requires forall i :: 0 <= i < |slashes| ==> slashes[i] == '/'
    ensures TrimSlashes(s + slashes) == s
    decreases |slashes|
  {
    if slashes == [] {
      assert s + slashes == s;
    } else {
      var shorter := slashes[..|slashes| - 1];
      assert (s + slashes)[..|s + slashes| - 1] == s + shorter;
      TrimSlashesOf(s, shorter);
    }
  }

  /**
   * The converse of `Param`'s contract: the prefix written in any case,
   * a non-empty segment without '/' and any trailing slashes give back
   * that segment.
   */
  lemma ParamOf(prefix: string, written: string, segment: string, slashes: string)
    requires Lower(written) == prefix
    requires segment != [] && '/' !in segment
    requires forall i :: 0 <= i < |slashes| ==> slashes[i] == '/'
    ensures Param(written + segment + slashes, prefix) == Some(segment)
  {
    var s := written + segment;
    TrimSlashesOf(s, slashes);
    assert s[..|written|] == written && s[|written|..] == segment;
  }

  /** A `prefix:id` route does not match a path whose trimmed form differs from the prefix at position `k`. */
  lemma NotParam(path: string, prefix: string, k: int)
    requires 0 <= k < |prefix| && k < |TrimSlashes(path)| && LowerChar(TrimSlashes(path)[k]) != prefix[k]
    ensures Param(path, prefix).None?
  {
    var t := TrimSlashes(path);
    if |t| > |prefix| {
      assert Lower(t[..|prefix|])[k] != prefix[k];
    }
  }

  /** A path written in another case, or with trailing slashes, reaches the same page. */
  lemma RouterSpellings()
    ensures RouteFor("/Dashboard") == For(DashboardPage, Hr)
    ensures RouteFor("/dashboard/") == For(DashboardPage, Hr)
    ensures RouteFor("/candidate/") == For(CandidateDashboardPage, Candidate)
  {
    DashboardHomeRoute();
    CandidateHomeRoute();
    TrimSlashesOf("/Dashboard", "");
    assert Lower("/Dashboard") == "/dashboard";
    RouteDependsOnCanonicalPath("/Dashboard", "/dashboard");
    TrimSlashesOf("/dashboard", "/");
    assert "/dashboard" + "/" == "/dashboard/";
    RouteDependsOnCanonicalPath("/dashboard/", "/dashboard");
    TrimSlashesOf("/candidate", "/");
    assert "/candidate" + "/" == "/candidate/";
    RouteDependsOnCanonicalPath("/candidate/", "/candidate");
  }

  /** The prefix of a `:id` route matches in any case; the parameter keeps its own. */
  lemma RouterParamCase()
    ensures RouteFor("/DEMO/Abc/") == Open(DemoReportPage("Abc"))
  {
    assert Lower("/DEMO/") == "/demo/";
    ParamOf("/demo/", "/DEMO/", "Abc", "/");
    assert "/DEMO/" + "Abc" + "/" == "/DEMO/Abc/";
    assert |Canonical("/DEMO/Abc/")| == 9;
  }

  /** What visiting `path` renders: an open route its page, a guarded one whatever the guard decides. */
  datatype Screen = Blank | Redirected(to: string) | Shows(page: Page)

  function Visit(path: string, auth: AuthState): Screen
  {
    var route := RouteFor(path);
    if !route.guarded then Shows(route.page)
    else match ProtectedRoute(auth, route.allowedRole)
      case RenderNothing => Blank
      case RedirectTo(to) => Redirected(to)
      case RenderChildren => Shows(route.page)
  }

  /** The home route of each role, the target of a role-mismatch redirect. */
  function HomeOf(role: AppRole): string
  {
    if role == Candidate then "/candidate" else "/dashboard"
  }

  /**
   * A role-mismatch redirect goes to the user's own home route, which
   * demands exactly that role, so following it shows a page instead of
   * redirecting again.
   */
  lemma {:induction false} MismatchRedirectLandsHome(path: string, auth: AuthState)
    requires Visit(path, auth).Redirected? && Visit(path, auth).to != "/auth"
    ensures auth.userRole.Some? && Visit(path, auth).to == HomeOf(auth.userRole.value)
    ensures RouteFor(HomeOf(auth.userRole.value)).allowedRole == auth.userRole
    ensures Visit(Visit(path, auth).to, auth).Shows?
  {
    if auth.userRole.value == Candidate {
      CandidateHomeRoute();
    } else {
      DashboardHomeRoute();
    }
  }

  /** A signed-out visitor of a guarded route is sent to the sign-in page, which is open. */
  lemma SignedOutGoesToAuth(path: string, auth: AuthState)
    requires RouteFor(path).guarded && !auth.loading && !auth.signedIn
    ensures Visit(path, auth) == Redirected("/auth")
    ensures Visit("/auth", auth) == Shows(AuthPage)
  {
    TrimSlashesOf("/auth", "");
    assert Lower("/auth") == "/auth";
  }

  /** The landing, sign-in and demo routes show their page in every sign-in state. */
  lemma OpenRoutes(auth: AuthState, id: string)
    requires id != [] && '/' !in id
    ensures Visit("/", auth) == Shows(Landing)
    ensures Visit("/auth", auth) == Shows(AuthPage)
    ensures Visit("/demo", auth) == Shows(DemoDashboardPage)
    ensures Visit("/demo/" + id, auth) == Shows(DemoReportPage(id))
  {
    TrimSlashesOf("", "/");
    TrimSlashesOf("/auth", "");
    assert Lower("/auth") == "/auth";
    TrimSlashesOf("/demo", "");
    assert Lower("/demo") == "/demo";
    assert Lower("/demo/") == "/demo/";
    ParamOf("/demo/", "/demo/", id, "");
    assert "/demo/" + id + "" == "/demo/" + id;
    assert |Canonical("/demo/" + id)| > 5;
  }

  /**
   * Every guarded route demands a role, and every guarded route except the
   * candidate dashboard demands the HR role; the candidate dashboard is
   * reached by "/candidate" in any case, with any trailing slashes.
   */
  lemma GuardedRoutesRoles(path: string)
    ensures RouteFor(path).guarded && RouteFor(path).page != CandidateDashboardPage ==> RouteFor(path).allowedRole == Some(Hr)
    ensures RouteFor(path).page == CandidateDashboardPage <==> Canonical(path) == "/candidate"
  {
    if Canonical(path) == "/candidate" {
      CandidateHomeRoute();
      RouteDependsOnCanonicalPath(path, "/candidate");
    }
  }

  /** "/candidate" is the candidate dashboard route. */
  lemma CandidateHomeRoute()
    ensures Canonical("/candidate") == "/candidate"
    ensures RouteFor("/candidate") == For(CandidateDashboardPage, Candidate)
  {
    TrimSlashesOf("/candidate", "");
    assert Lower("/candidate") == "/candidate";
    NotParam("/candidate", "/demo/", 1);
  }

  /** "/dashboard" is the recruiter dashboard route. */
  lemma DashboardHomeRoute()
    ensures Canonical("/dashboard") == "/dashboard"
    ensures RouteFor("/dashboard") == For(DashboardPage, Hr)
  {
    TrimSlashesOf("/dashboard", "");
    assert Lower("/dashboard") == "/dashboard";
    NotParam("/dashboard", "/demo/", 2);
    NotParam("/dashboard", "/reports/", 1);
  }

  /**
   * A guarded page is shown to a signed-in user exactly when the user's
   * role is the route's role or the role is not known (yet).
   */
  lemma {:induction false} GuardedPageShown(path: string, auth: AuthState)
    requires RouteFor(path).guarded && !auth.loading && auth.signedIn
    ensures Visit(path, auth) == Shows(RouteFor(path).page) <==>
      (auth.userRole.None? || auth.userRole == RouteFor(path).allowedRole)
  {
  }
}
