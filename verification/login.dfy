/**
 * The login page's submit handler: sign in with the identity provider, look
 * up the user's profile, create a donor profile when none was obtained (and
 * fall back to an in-memory donor profile if that fails), then route to the
 * dashboard of the resolved role. Only a sign-in failure is shown to the
 * user; every profile failure degrades to the donor role.
 *
 * The remote calls are not executed: their results are parameters, and the
 * calls the handler makes are recorded, in order, in the page's `calls`.
 */
module Login {
  import opened Support

  /** The authenticated user: id, email and `user_metadata?.full_name`. */
  datatype User = User(id: string, email: string, metadataFullName: Option<string>)

  /** `signInWithPassword`: an error (thrown on) or the user. */
  datatype SignInResult = SignInFailed(error: ErrorValue) | SignInOk(user: User)

  /** `from("profiles").select("role").eq("id", ...).single()`: the row, or an error with its code. */
  datatype LookupResult = LookupRow(row: ProfileRow) | LookupError(code: string)

  /** The code of the "no rows" error of `single()`. */
  const NotFoundCode := "PGRST116"

  /** The record the handler inserts into `profiles`. */
  datatype NewProfile = NewProfile(id: string, email: string, fullName: string, role: string)

  /** `insert(...).select("role").single()`: the stored row, or an error. */
  datatype InsertResult = Inserted(row: ProfileRow) | InsertFailed

  datatype RemoteCall =
    | SignInCall(email: string, password: string)
    | LookupCall(userId: string)
    | InsertCall(record: NewProfile)

  const DefaultLoginError := "An error occurred during login"
  const AdminDashboard := "/dashboard/admin"
  const VolunteerDashboard := "/dashboard/volunteer"
  const DonorDashboard := "/dashboard/donor"

  /**
   * The profile after the lookup step. A "not found" error leaves the
   * fetched data null; any other error is thrown and caught inside the
   * step, which leaves the profile null as well. Neither aborts the login.
   */
  function ProfileAfterLookup(lookup: LookupResult): (p: Option<ProfileRow>)
    ensures p.Some? <==> lookup.LookupRow?
    ensures p.Some? ==> p.value == lookup.row
  {
    match lookup
    case LookupRow(row) => Some(row)
    case LookupError(_) => None
  }

  /** The inserted record: the user's id and email, the metadata full name or "", and always role "donor". */
  function NewProfileFor(user: User): (rec: NewProfile)
    ensures rec.id == user.id && rec.email == user.email && rec.role == "donor"
    ensures rec.fullName == OrDefault(user.metadataFullName, "")
  {
    NewProfile(user.id, user.email, OrDefault(user.metadataFullName, ""), "donor")
  }

  /** The profile after the insert step: the stored row, or the stand-in `{ role: "donor" }` on any error. */
  function ProfileAfterInsert(insert: InsertResult): (p: ProfileRow)
    ensures insert.InsertFailed? ==> p.role == Some("donor")
    ensures insert.Inserted? ==> p == insert.row
  {
    match insert
    case Inserted(row) => row
    case InsertFailed => ProfileRow(Some("donor"))
  }

  /** `profile?.role || "donor"`. */
  function ResolvedRole(p: ProfileRow): (role: string)
    ensures role != ""
    ensures p.role.Some? && p.role.value != "" ==> role == p.role.value
    ensures p.role.None? || p.role.value == "" ==> role == "donor"
  {
    OrDefault(p.role, "donor")
  }

  /** The route pushed for a role: exact matches on "admin" and "volunteer", the donor dashboard otherwise. */
  function RouteFor(role: string): (route: string)
    ensures route == AdminDashboard <==> role == "admin"
    ensures route == VolunteerDashboard <==> role == "volunteer"
    ensures route == DonorDashboard <==> role != "admin" && role != "volunteer"
  {
    if role == "admin" then AdminDashboard
    else if role == "volunteer" then VolunteerDashboard
    else DonorDashboard
  }

  /** What one submission does: the remote calls it makes, the route it pushes, the error it shows. */
  datatype LoginOutcome = LoginOutcome(calls: seq<RemoteCall>, route: Option<string>, error: Option<string>)

  /** The number of insert calls among `calls`. */
  function InsertCount(calls: seq<RemoteCall>): nat {
    if calls == [] then 0 else (if calls[0].InsertCall? then 1 else 0) + InsertCount(calls[1..])
  }

  /**
   * The specification of `handleLogin`. A sign-in failure makes no further
   * call, pushes no route and shows the error; otherwise the lookup is made,
   * an insert is made exactly when the lookup gave no profile, and exactly
   * one of the three dashboard routes is pushed with no error shown.
   */
  function Outcome(email: string, password: string, signIn: SignInResult, lookup: LookupResult, insert: InsertResult)
    : (o: LoginOutcome)
    ensures |o.calls| >= 1 && o.calls[0] == SignInCall(email, password)
    ensures signIn.SignInFailed? ==>
      o.calls == [SignInCall(email, password)] && o.route.None? && o.error == Some(ErrorText(signIn.error, DefaultLoginError))
    ensures signIn.SignInOk? ==>
      && o.error.None?
      && o.route.Some? && o.route.value in {AdminDashboard, VolunteerDashboard, DonorDashboard}
      && |o.calls| >= 2 && o.calls[1] == LookupCall(signIn.user.id)
      && (|o.calls| == 3 <==> lookup.LookupError?)
      && (|o.calls| == 3 ==> o.calls[2] == InsertCall(NewProfileFor(signIn.user)))
    ensures signIn.SignInOk? ==> |o.calls| == if lookup.LookupError? then 3 else 2
    ensures InsertCount(o.calls) == if signIn.SignInOk? && lookup.LookupError? then 1 else 0
    ensures signIn.SignInOk? && lookup.LookupRow? ==> o.route == Some(RouteFor(ResolvedRole(lookup.row)))
    ensures signIn.SignInOk? && lookup.LookupError? && insert.Inserted? ==>
      o.route == Some(RouteFor(ResolvedRole(insert.row)))
    ensures signIn.SignInOk? && lookup.LookupError? && insert.InsertFailed? ==> o.route == Some(DonorDashboard)
  {
    match signIn
    case SignInFailed(e) =>
      var calls := [SignInCall(email, password)];
      assert calls[1..] == [] && InsertCount(calls) == 0;
      LoginOutcome(calls, None, Some(ErrorText(e, DefaultLoginError)))
    case SignInOk(user) =>
      var found := ProfileAfterLookup(lookup);
      var tail := if found.None? then [InsertCall(NewProfileFor(user))] else [];
      var calls := [SignInCall(email, password), LookupCall(user.id)] + tail;
      assert calls[1..][1..] == tail;
      assert InsertCount(calls) == InsertCount(calls[1..]) == InsertCount(tail);
      assert found.None? ==> tail[1..] == [] && InsertCount(tail) == 1;
      var profile := if found.Some? then found.value else ProfileAfterInsert(insert);
      LoginOutcome(calls, Some(RouteFor(ResolvedRole(profile))), None)
  }

  /** The login page's state and what it has done: the calls made and the routes pushed. */
  class LoginPage {
    var error: Option<string>
    var isLoading: bool
    var calls: seq<RemoteCall>
    var pushed: seq<string>
    var refreshes: nat

    constructor ()
      ensures error.None? && !isLoading && calls == [] && pushed == [] && refreshes == 0
    {
      error, isLoading, calls, pushed, refreshes := None, false, [], [], 0;
    }

    /** `handleLogin`, with the results the backend gives to each call it makes. */
    method HandleLogin(email: string, password: string, signIn: SignInResult, lookup: LookupResult, insert: InsertResult)
      modifies this
      ensures var o := Outcome(email, password, signIn, lookup, insert);
        && calls == old(calls) + o.calls
        && pushed == old(pushed) + (if o.route.Some? then [o.route.value] else [])
        && refreshes == old(refreshes) + (if o.route.Some? then 1 else 0)
        && error == o.error
      ensures !isLoading
    {
      ghost var o := Outcome(email, password, signIn, lookup, insert);
      isLoading := true;
      error := None;
      calls := calls + [SignInCall(email, password)];
      if signIn.SignInFailed? {
        // thrown, and caught by the outer handler
        error := Some(ErrorText(signIn.error, DefaultLoginError));
        isLoading := false;
        return;
      }
      var user := signIn.user;
      var profile: Option<ProfileRow> := None;
      calls := calls + [LookupCall(user.id)];
      match lookup {
        case LookupRow(row) =>
          profile := Some(row);
        case LookupError(code) =>
          if code == NotFoundCode {
            profile := None;  // the fetched data is null
          }
          // any other code is thrown and caught: the profile stays null
      }
      if profile.None? {
        calls := calls + [InsertCall(NewProfileFor(user))];
        match insert {
          case InsertFailed =>
            profile := Some(ProfileRow(Some("donor")));
          case Inserted(row) =>
            profile := Some(row);
        }
      }
      var userRole := OrDefault(profile.value.role, "donor");
      assert calls == old(calls) + o.calls;
      assert o.route == Some(RouteFor(userRole));
      if userRole == "admin" {
        pushed := pushed + [AdminDashboard];
      } else if userRole == "volunteer" {
        pushed := pushed + [VolunteerDashboard];
      } else {
        pushed := pushed + [DonorDashboard];
      }
      refreshes := refreshes + 1;
      isLoading := false;
    }
  }
}
