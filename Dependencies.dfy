// Request guards: pagination parameters, the role gates, and the checks
// that turn a bearer token's decoded payload into the current user. The
// token decoding and the users-table fetch are foreign calls; their results
// are inputs. An HTTPException is the `Raise` case of an outcome.

module Dependencies {
  import opened Common

  datatype HttpError = HttpError(status: int, detail: string)

  datatype Outcome<T> = Ok(value: T) | Raise(error: HttpError)

  // ---------------------------------------------------------------------------
  // Pagination
  // ---------------------------------------------------------------------------

  const MaxPageSize: int := 100

  datatype PageParams = PageParams(page: int, pageSize: int, offset: int)

  /** Checks the page (from 1) and the page size (1 to 100) and computes the row offset. */
  function GetPaginationParams(page: int, pageSize: int): (r: Outcome<PageParams>)
    ensures page < 1 ==> r == Raise(HttpError(400, "Page must be >= 1"))
    ensures page >= 1 && (pageSize < 1 || pageSize > MaxPageSize) ==>
      r == Raise(HttpError(400, "Page size must be between 1 and 100"))
    ensures r.Ok? <==> page >= 1 && 1 <= pageSize <= MaxPageSize
    ensures r.Ok? ==> r.value.page == page && r.value.pageSize == pageSize && r.value.offset >= 0
  {
    if page < 1 then Raise(HttpError(400, "Page must be >= 1"))
    else if pageSize < 1 || pageSize > MaxPageSize then Raise(HttpError(400, "Page size must be between 1 and 100"))
    else Ok(PageParams(page, pageSize, (page - 1) * pageSize))
  }

  /** The row indices a page covers. */
  predicate OnPage(p: PageParams, i: int) {
    p.offset <= i < p.offset + p.pageSize
  }

  /** The defaults give the first ten rows. */
  lemma DefaultPage()
    ensures GetPaginationParams(1, 10) == Ok(PageParams(1, 10, 0))
  {
  }

  /** Each page starts where the previous one ends. */
  lemma ConsecutivePagesAdjoin(page: int, pageSize: int)
    requires GetPaginationParams(page, pageSize).Ok?
    ensures var p := GetPaginationParams(page, pageSize).value;
      var q := GetPaginationParams(page + 1, pageSize).value;
      q.offset == p.offset + p.pageSize
  {
    assert page * pageSize == (page - 1) * pageSize + pageSize;
  }

  /** Two different pages of one size share no row. */
  lemma PagesAreDisjoint(page1: int, page2: int, pageSize: int, i: int)
    requires GetPaginationParams(page1, pageSize).Ok? && GetPaginationParams(page2, pageSize).Ok?
    requires page1 != page2
    ensures !(OnPage(GetPaginationParams(page1, pageSize).value, i) &&
              OnPage(GetPaginationParams(page2, pageSize).value, i))
  {
    if page1 < page2 {
      OffsetGrows(page1, page2, pageSize);
    } else {
      OffsetGrows(page2, page1, pageSize);
    }
  }

  lemma OffsetGrows(lo: int, hi: int, pageSize: int)
    requires 1 <= lo < hi && 1 <= pageSize
    ensures (hi - 1) * pageSize >= (lo - 1) * pageSize + pageSize
  {
    var k := hi - lo;
    assert (hi - 1) * pageSize == (lo - 1) * pageSize + k * pageSize;
    assert k * pageSize == (k - 1) * pageSize + pageSize;
    assert (k - 1) * pageSize >= 0;
  }

  /** Every row lies on a page: row i on page i / size + 1. */
  lemma EveryRowHasAPage(i: nat, pageSize: int)
    requires 1 <= pageSize <= MaxPageSize
    ensures GetPaginationParams(i / pageSize + 1, pageSize).Ok?
    ensures OnPage(GetPaginationParams(i / pageSize + 1, pageSize).value, i)
  {
    var q := i / pageSize;
    assert q * pageSize <= i < q * pageSize + pageSize;
  }

  // ---------------------------------------------------------------------------
  // The current user
  // ---------------------------------------------------------------------------

  /** The fields of a users row the guards look at. */
  datatype User = User(id: string, role: Option<string>, isActive: Option<bool>)

  /** What the users-table query returned for the token's subject. */
  datatype UserFetch = UserRow(user: User) | NoUserRow | FetchError(message: string)

  /** A decoded payload is falsy when decoding failed or gave an empty object. */
  predicate PayloadMissing(payload: Option<map<string, string>>) {
    payload.None? || payload.value == map[]
  }

  /** The payload checks of the token, made before the database is asked. */
  function CheckPayload(payload: Option<map<string, string>>): (r: Outcome<string>)
    ensures r.Ok? <==>
      !PayloadMissing(payload) && "type" in payload.value && payload.value["type"] == "access" &&
      "sub" in payload.value && payload.value["sub"] != ""
    ensures r.Ok? ==> r.value == payload.value["sub"]
    ensures r.Raise? ==> r.error.status == 401
  {
    if PayloadMissing(payload) then Raise(HttpError(401, "Invalid or expired token"))
    else if "type" !in payload.value || payload.value["type"] != "access" then
      Raise(HttpError(401, "Invalid token type"))
    else if "sub" !in payload.value || payload.value["sub"] == "" then
      Raise(HttpError(401, "Invalid token payload"))
    else Ok(payload.value["sub"])
  }

  /** The text `str()` gives for an HTTPException. */
  function ExceptionText(e: HttpError): (t: string)
    ensures |t| >= |e.detail| + 3
    ensures t[|t| - |e.detail|..] == e.detail && t[|t| - |e.detail| - 2..|t| - |e.detail|] == ": "
  {
    NatToString(if e.status < 0 then 0 else e.status) + ": " + e.detail
  }

  /**
   * The current user as written: after the payload checks, the "User not
   * found" 404 and the "inactive" 403 are raised inside the try block whose
   * catch-all turns every exception into a 500 "Database error".
   */
  function GetCurrentUser(payload: Option<map<string, string>>, fetch: UserFetch): (r: Outcome<User>)
    ensures CheckPayload(payload).Raise? ==> r == Raise(CheckPayload(payload).error)
    ensures r.Ok? <==> CheckPayload(payload).Ok? && fetch.UserRow? && fetch.user.isActive == Some(true)
    ensures r.Ok? ==> r.value == fetch.user
    ensures r.Raise? ==> r.error.status == 401 || r.error.status == 500
  {
    match CheckPayload(payload)
    case Raise(e) => Raise(e)
    case Ok(_) =>
      match fetch
      case FetchError(m) => Raise(HttpError(500, "Database error: " + m))
      case NoUserRow => Raise(HttpError(500, "Database error: " + ExceptionText(HttpError(404, "User not found"))))
      case UserRow(u) =>
        if u.isActive != Some(true) then
          Raise(HttpError(500, "Database error: " + ExceptionText(HttpError(403, "User account is inactive"))))
        else Ok(u)
  }

  /** As written, an inactive user is reported as a server error, not as 403. */
  lemma InactiveUserReportedAsServerError(payload: Option<map<string, string>>, u: User)
    requires CheckPayload(payload).Ok? && u.isActive != Some(true)
    ensures GetCurrentUser(payload, UserRow(u)) ==
      Raise(HttpError(500, "Database error: " + "403: User account is inactive"))
  {
    InactiveText();
  }

  /** As written, a missing user is reported as a server error, not as 404. */
  lemma MissingUserReportedAsServerError(payload: Option<map<string, string>>)
    requires CheckPayload(payload).Ok?
    ensures GetCurrentUser(payload, NoUserRow) == Raise(HttpError(500, "Database error: " + "404: User not found"))
  {
    NotFoundText();
  }

  lemma InactiveText()
    ensures ExceptionText(HttpError(403, "User account is inactive")) == "403: User account is inactive"
  {
    var e := HttpError(403, "User account is inactive");
    assert ExceptionText(e) == NatToString(403) + ": " + e.detail;
    StatusText(403);
    assert NatToString(403) == "403" by {
      assert [DigitChar(4), DigitChar(0), DigitChar(3)] == "403";
    }
    InactiveLiteral();
  }

  lemma InactiveLiteral()
    ensures "403" + ": " + "User account is inactive" == "403: User account is inactive"
  {
  }

  lemma NotFoundText()
    ensures ExceptionText(HttpError(404, "User not found")) == "404: User not found"
  {
    var e := HttpError(404, "User not found");
    assert ExceptionText(e) == NatToString(404) + ": " + e.detail;
    StatusText(404);
    assert NatToString(404) == "404" by {
      assert [DigitChar(4), DigitChar(0), DigitChar(4)] == "404";
    }
    NotFoundLiteral();
  }

  lemma NotFoundLiteral()
    ensures "404" + ": " + "User not found" == "404: User not found"
  {
  }

  lemma StatusText(n: nat)
    requires 100 <= n < 1000
    ensures NatToString(n) == [DigitChar(n / 100), DigitChar(n / 10 % 10), DigitChar(n % 10)]
  {
    var t := n / 10;
    assert 10 <= t < 100;
    assert t / 10 == n / 100;
    assert NatToString(t) == NatToString(t / 10) + [DigitChar(t % 10)];
    assert NatToString(t / 10) == [DigitChar(n / 100)];
  }

  /** The current user as evidently intended: the 404 and 403 reach the client. */
  function GetCurrentUserCorrected(payload: Option<map<string, string>>, fetch: UserFetch): (r: Outcome<User>)
    ensures CheckPayload(payload).Ok? && fetch.NoUserRow? ==> r == Raise(HttpError(404, "User not found"))
    ensures CheckPayload(payload).Ok? && fetch.UserRow? && fetch.user.isActive != Some(true) ==>
      r == Raise(HttpError(403, "User account is inactive"))
  {
    match CheckPayload(payload)
    case Raise(e) => Raise(e)
    case Ok(_) =>
      match fetch
      case FetchError(m) => Raise(HttpError(500, "Database error: " + m))
      case NoUserRow => Raise(HttpError(404, "User not found"))
      case UserRow(u) =>
        if u.isActive != Some(true) then Raise(HttpError(403, "User account is inactive")) else Ok(u)
  }

  /** The correction changes only the status of the two swallowed errors: same users admitted, same 401s. */
  lemma CorrectionKeepsOtherOutcomes(payload: Option<map<string, string>>, fetch: UserFetch)
    ensures GetCurrentUserCorrected(payload, fetch).Ok? <==> GetCurrentUser(payload, fetch).Ok?
    ensures GetCurrentUserCorrected(payload, fetch).Ok? ==>
      GetCurrentUserCorrected(payload, fetch) == GetCurrentUser(payload, fetch)
    ensures CheckPayload(payload).Raise? ==>
      GetCurrentUserCorrected(payload, fetch) == GetCurrentUser(payload, fetch)
  {
  }

  /** No database answer changes the verdict on a rejected payload: those checks come first. */
  lemma PayloadChecksPrecedeFetch(payload: Option<map<string, string>>, f1: UserFetch, f2: UserFetch)
    requires CheckPayload(payload).Raise?
    ensures GetCurrentUser(payload, f1) == GetCurrentUser(payload, f2)
    ensures GetCurrentUser(payload, f1).error.status == 401
  {
  }

  // ---------------------------------------------------------------------------
  // Role gates
  // ---------------------------------------------------------------------------

  function GetCurrentAdmin(u: User): (r: Outcome<User>)
    ensures r.Ok? <==> u.role == Some("admin")
    ensures r.Ok? ==> r.value == u
    ensures r.Raise? ==> r.error == HttpError(403, "Admin access required")
  {
    if u.role != Some("admin") then Raise(HttpError(403, "Admin access required")) else Ok(u)
  }

  function GetCurrentInstructor(u: User): (r: Outcome<User>)
    ensures r.Ok? <==> u.role == Some("instructor") || u.role == Some("admin")
    ensures r.Ok? ==> r.value == u
    ensures r.Raise? ==> r.error == HttpError(403, "Instructor access required")
  {
    if u.role != Some("instructor") && u.role != Some("admin") then
      Raise(HttpError(403, "Instructor access required"))
    else Ok(u)
  }

  function GetCurrentStudent(u: User): (r: Outcome<User>)
    ensures r.Ok? <==> u.role == Some("student")
    ensures r.Ok? ==> r.value == u
    ensures r.Raise? ==> r.error == HttpError(403, "Student access required")
  {
    if u.role != Some("student") then Raise(HttpError(403, "Student access required")) else Ok(u)
  }

  /** Admins pass the instructor gate; no user passes both the student gate and a staff gate. */
  lemma RoleGatesNest(u: User)
    ensures GetCurrentAdmin(u).Ok? ==> GetCurrentInstructor(u).Ok?
    ensures !(GetCurrentStudent(u).Ok? && GetCurrentInstructor(u).Ok?)
    ensures u.role.None? ==> GetCurrentAdmin(u).Raise? && GetCurrentInstructor(u).Raise? && GetCurrentStudent(u).Raise?
  {
  }
}
