/**
 * The sign-up page's submit handler: two checks in a fixed order (the
 * passwords agree, a role is chosen), then one sign-up call to the identity
 * provider carrying the full name and role as user metadata; on success the
 * page moves on to "check your email", on failure it shows the error.
 */
module SignUp {
  import opened Support

  /** The roles the role select offers; "" is the unselected state. */
  const OfferedRoles: seq<string> := ["volunteer", "donor"]

  const PasswordMismatch := "Passwords do not match"
  const NoRoleChosen := "Please select a role"
  const DefaultSignUpError := "An error occurred"
  const CheckEmailRoute := "/auth/check-email"

  /** The form as submitted. */
  datatype Form = Form(email: string, password: string, confirmPassword: string, fullName: string, role: string)

  /** The `signUp` call: credentials, the confirmation link target and the metadata `{ full_name, role }`. */
  datatype SignUpCall = SignUpCall(email: string, password: string, emailRedirectTo: string, fullName: string, role: string)

  /** What `signUp` reports: success, or an error (which the handler throws and catches). */
  datatype SignUpResult = SignUpOk | SignUpFailed(error: ErrorValue)

  /** `NEXT_PUBLIC_DEV_SUPABASE_REDIRECT_URL || `${origin}/dashboard``. */
  function RedirectTarget(devRedirect: Option<string>, origin: string): (url: string)
    ensures devRedirect.Some? && devRedirect.value != "" ==> url == devRedirect.value
    ensures devRedirect.None? || devRedirect.value == "" ==> url == origin + "/dashboard"
  {
    OrDefault(devRedirect, origin + "/dashboard")
  }

  /** The call built from the form: the name and role go into the metadata exactly as entered. */
  function CallFor(form: Form, devRedirect: Option<string>, origin: string): (c: SignUpCall)
    ensures c.email == form.email && c.password == form.password
    ensures c.fullName == form.fullName && c.role == form.role
    ensures c.emailRedirectTo == RedirectTarget(devRedirect, origin)
  {
    SignUpCall(form.email, form.password, RedirectTarget(devRedirect, origin), form.fullName, form.role)
  }

  /** What one submission does: the call it makes, the route it pushes, the error it shows. */
  datatype SignUpOutcome = SignUpOutcome(call: Option<SignUpCall>, route: Option<string>, error: Option<string>)

  /**
   * The specification of `handleSignUp`. The password check comes first, so
   * when both checks fail the mismatch message is shown; a failed check makes
   * no call. A call is made exactly when both checks pass; it navigates
   * exactly when it succeeds, and shows an error exactly when it does not.
   */
  function Outcome(form: Form, devRedirect: Option<string>, origin: string, result: SignUpResult): (o: SignUpOutcome)
    ensures form.password != form.confirmPassword ==>
      o == SignUpOutcome(None, None, Some(PasswordMismatch))
    ensures form.password == form.confirmPassword && form.role == "" ==>
      o == SignUpOutcome(None, None, Some(NoRoleChosen))
    ensures o.call.Some? <==> form.password == form.confirmPassword && form.role != ""
    ensures o.call.Some? ==> o.call.value == CallFor(form, devRedirect, origin)
    ensures o.route.Some? <==> o.call.Some? && result.SignUpOk?
    ensures o.route.Some? ==> o.route.value == CheckEmailRoute
    ensures o.error.None? <==> o.route.Some?
    ensures o.call.Some? && result.SignUpFailed? ==> o.error == Some(ErrorText(result.error, DefaultSignUpError))
  {
    if form.password != form.confirmPassword then SignUpOutcome(None, None, Some(PasswordMismatch))
    else if form.role == "" then SignUpOutcome(None, None, Some(NoRoleChosen))
    else
      var call := Some(CallFor(form, devRedirect, origin));
      match result
      case SignUpOk => SignUpOutcome(call, Some(CheckEmailRoute), None)
      case SignUpFailed(e) => SignUpOutcome(call, None, Some(ErrorText(e, DefaultSignUpError)))
  }

  /** Through the offered roles, a submitted role is "volunteer" or "donor", and any call carries it. */
  lemma OfferedRoleCarried(form: Form, devRedirect: Option<string>, origin: string, result: SignUpResult)
    requires form.role in OfferedRoles
    requires form.password == form.confirmPassword
    ensures Outcome(form, devRedirect, origin, result).call.Some?
    ensures Outcome(form, devRedirect, origin, result).call.value.role in {"volunteer", "donor"}
  {
  }

  /** The sign-up page's state and what it has done. */
  class SignUpPage {
    var error: Option<string>
    var isLoading: bool
    var calls: seq<SignUpCall>
    var pushed: seq<string>

    constructor ()
      ensures error.None? && !isLoading && calls == [] && pushed == []
    {
      error, isLoading, calls, pushed := None, false, [], [];
    }

    /** `handleSignUp`, with the identity provider's answer to the call, if one is made. */
    method HandleSignUp(form: Form, devRedirect: Option<string>, origin: string, result: SignUpResult)
      modifies this
      ensures var o := Outcome(form, devRedirect, origin, result);
        && calls == old(calls) + (if o.call.Some? then [o.call.value] else [])
        && pushed == old(pushed) + (if o.route.Some? then [o.route.value] else [])
        && error == o.error
      ensures !isLoading
    {
      isLoading := true;
      error := None;

      if form.password != form.confirmPassword {
        error := Some(PasswordMismatch);
        isLoading := false;
        return;
      }

      if form.role == "" {
        error := Some(NoRoleChosen);
        isLoading := false;
        return;
      }

      var call := SignUpCall(form.email, form.password, OrDefault(devRedirect, origin + "/dashboard"),
                             form.fullName, form.role);
      calls := calls + [call];
      match result {
        case SignUpOk =>
          pushed := pushed + [CheckEmailRoute];
        case SignUpFailed(e) =>
          error := Some(ErrorText(e, DefaultSignUpError));
      }
      isLoading := false;
    }
  }
}
