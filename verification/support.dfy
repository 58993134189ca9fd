/**
 * Vocabulary shared by the pages and components of the nonprofit dashboard:
 * optional values, the JavaScript `||` default on strings, the string
 * slicing the pages use for display, thrown values, calendar date ranges,
 * and the "redirect unless the profile has role X" guard every server-side
 * dashboard page runs before it renders.
 */
module Support {

  datatype Option<+T> = None | Some(value: T)

  /** `x || d` where `x` is a string that may be null or undefined: the empty string is falsy too. */
  function OrDefault(x: Option<string>, d: string): (r: string)
    ensures r == d || (x == Some(r) && r != "")
    ensures x.Some? && x.value != "" ==> r == x.value
  {
    if x.Some? && x.value != "" then x.value else d
  }

  /**
   * The first `n` elements, or all of them when there are fewer: a string's
   * `substring(0, n)`, and the rows a query's `limit(n)` keeps.
   */
  function Prefix<T>(s: seq<T>, n: nat): (r: seq<T>)
    ensures r <= s
    ensures |r| == if |s| <= n then |s| else n
  {
    if |s| <= n then s else s[..n]
  }

  /** A non-empty sequence is its elements but the last, followed by the last. */
  lemma InitPlusLast<T>(s: seq<T>)
    requires s != []
    ensures s[..|s| - 1] + [s[|s| - 1]] == s
  {
  }

  /** `s.slice(-n)`; `slice(-0)` is `slice(0)`, the whole string. */
  function SliceLast(s: string, n: nat): (r: string)
    ensures |r| <= |s| && r == s[|s| - |r|..]
    ensures |r| == if n == 0 || |s| <= n then |s| else n
  {
    if n == 0 || |s| <= n then s else s[|s| - n..]
  }

  /** `name?.charAt(0) || d`: the first character of a non-empty name, the fallback letter otherwise. */
  function Initial(name: Option<string>, d: char): (r: string)
    ensures |r| == 1
    ensures name.Some? && name.value != "" ==> r[0] == name.value[0]
    ensures name.None? || name.value == "" ==> r == [d]
  {
    if name.Some? && name.value != "" then [name.value[0]] else [d]
  }

  /** `s.startsWith(p)`. */
  predicate StartsWith(s: string, p: string) {
    p <= s
  }

  /** A value caught by a `catch (error: unknown)` block. */
  datatype ErrorValue = ErrorObject(message: string) | OtherThrown

  /** `error instanceof Error ? error.message : fallback`. */
  function ErrorText(e: ErrorValue, fallback: string): (r: string)
    ensures e.ErrorObject? ==> r == e.message
    ensures e.OtherThrown? ==> r == fallback
  {
    match e
    case ErrorObject(m) => m
    case OtherThrown => fallback
  }

  /** A `Date` is modelled by its instant, in milliseconds since the epoch. */
  type Instant = int

  /** The `{ from?: Date, to?: Date }` object of a range calendar; an absent key and an explicit `undefined` are both `None`. */
  datatype DateRange = DateRange(from: Option<Instant>, to: Option<Instant>)

  /** The empty object `{}`. */
  const NoDates := DateRange(None, None)

  /** `range || {}` for the range a calendar reports, which is undefined when the selection is cleared. */
  function PickedRange(range: Option<DateRange>): (r: DateRange)
    ensures range.None? ==> r == NoDates
    ensures range.Some? ==> r == range.value
  {
    if range.Some? then range.value else NoDates
  }

  // ---------------------------------------------------------------------
  // The server-side role guard.

  /** What `supabase.auth.getUser()` yields: an error, no user, or the signed-in user's id. */
  datatype AuthState = AuthError | NoUser | SignedIn(userId: string)

  /** A `profiles` row as the pages read it; the `role` column may be null. */
  datatype ProfileRow = ProfileRow(role: Option<string>)

  const LoginRoute := "/auth/login"

  /** A server page either redirects (Next's `redirect` throws, so nothing after it runs) or renders a view. */
  datatype Page<T> = Redirect(target: string) | Render(view: T)

  /**
   * `if (error || !user) redirect("/auth/login")`, then
   * `if (profile?.role !== required) redirect("/auth/login")`.
   * The profile is only looked at when a user is signed in.
   */
  function Guard<T>(auth: AuthState, profile: Option<ProfileRow>, required: string, view: T): (p: Page<T>)
    ensures p.Render? <==> auth.SignedIn? && profile.Some? && profile.value.role == Some(required)
    ensures p.Redirect? ==> p.target == LoginRoute
    ensures p.Render? ==> p.view == view
  {
    if !auth.SignedIn? then Redirect(LoginRoute)
    else if profile.None? || profile.value.role != Some(required) then Redirect(LoginRoute)
    else Render(view)
  }

  /** A profile passes the guard of at most one role: an admin never sees a donor page and vice versa. */
  lemma GuardRolesExclusive<T, U>(auth: AuthState, profile: Option<ProfileRow>, r1: string, r2: string, v1: T, v2: U)
    requires r1 != r2
    ensures !(Guard(auth, profile, r1, v1).Render? && Guard(auth, profile, r2, v2).Render?)
  {
  }
}
