/**
 * The sign-in page (src/pages/SignIn.tsx): the email/password form, the Microsoft button and
 * the checks they run before calling the authentication context.
 */
module SignIn {
  import opened Wrappers
  import opened JsText
  import opened Roles
  import opened AuthContext

  const MissingFieldsError: string := "Enter email and password."
  const UnknownEmailError: string := "Use a valid demo email (any password)."

  /** The emails of `creds`, lower-cased, in order. */
  function LowerEmails(creds: seq<DemoCredential>): (r: seq<string>)
    ensures |r| == |creds|
    ensures forall k :: 0 <= k < |creds| ==> r[k] == ToLower(creds[k].email)
  {
    if creds == [] then [] else [ToLower(creds[0].email)] + LowerEmails(creds[1..])
  }

  /** DEMO_EMAILS: the demo credential emails, lower-cased. */
  function DemoEmails(): seq<string> {
    LowerEmails(DemoCredentials)
  }

  /** No character of `s` is an upper-case ASCII letter. */
  predicate NoUpperCase(s: string) {
    forall i :: 0 <= i < |s| ==> !('A' <= s[i] <= 'Z')
  }

  lemma ToLowerOfLowerCase(s: string)
    requires NoUpperCase(s)
    ensures ToLower(s) == s
  {
  }

  /** Lower-casing neither adds nor removes whitespace, so it keeps a trimmed string trimmed. */
  lemma ToLowerKeepsTrimmed(s: string)
    requires IsTrimmed(s)
    ensures Trim(ToLower(s)) == ToLower(s)
  {
    var l := ToLower(s);
    assert IsTrimmed(l);
    TrimOfTrimmed(l);
  }

  lemma TrimOfTrimmed(s: string)
    requires IsTrimmed(s)
    ensures Trim(s) == s
  {
    assert TrimStart(s) == s;
    assert TrimEnd(s) == s;
  }

  /** Normalising an email twice is normalising it once. */
  lemma NormalizeIdempotent(email: string)
    ensures NormalizeEmail(NormalizeEmail(email)) == NormalizeEmail(email)
  {
    TrimSpec(email);
    ToLowerKeepsTrimmed(Trim(email));
    ToLowerIdempotent(Trim(email));
  }

  /** DEMO_EMAILS lists exactly the keys of EMAIL_TO_MOCK, in the same order. */
  lemma DemoEmailsAreMockKeys()
    ensures |DemoEmails()| == |EmailToMock|
    ensures forall k :: 0 <= k < |EmailToMock| ==> DemoEmails()[k] == EmailToMock[k].email
  {
    DemoCredentialsAreTheMockKeys();
    forall k | 0 <= k < |EmailToMock| ensures DemoEmails()[k] == EmailToMock[k].email {
      DemoEmailIsLowerCase(k);
      ToLowerOfLowerCase(DemoCredentials[k].email);
    }
  }

  /** The demo credential emails are written in lower case. */
  lemma DemoEmailIsLowerCase(k: nat)
    requires k < |DemoCredentials|
    ensures NoUpperCase(DemoCredentials[k].email)
  {
    if k == 0 { Credential0LowerCase(); }
    else if k == 1 { Credential1LowerCase(); }
    else if k == 2 { Credential2LowerCase(); }
    else if k == 3 { Credential3LowerCase(); }
    else if k == 4 { Credential4LowerCase(); }
    else { Credential5LowerCase(); }
  }

  // One literal per lemma keeps each proof small.
  lemma Credential0LowerCase() ensures NoUpperCase(DemoCredentials[0].email) {}
  lemma Credential1LowerCase() ensures NoUpperCase(DemoCredentials[1].email) {}
  lemma Credential2LowerCase() ensures NoUpperCase(DemoCredentials[2].email) {}
  lemma Credential3LowerCase() ensures NoUpperCase(DemoCredentials[3].email) {}
  lemma Credential4LowerCase() ensures NoUpperCase(DemoCredentials[4].email) {}
  lemma Credential5LowerCase() ensures NoUpperCase(DemoCredentials[5].email) {}

  /** Being listed in DEMO_EMAILS is being a key of EMAIL_TO_MOCK. */
  lemma InDemoEmailsIff(e: string)
    ensures e in DemoEmails() <==> IsDemoEmail(e)
  {
    DemoEmailsAreMockKeys();
    if e in DemoEmails() {
      var k :| 0 <= k < |DemoEmails()| && DemoEmails()[k] == e;
      assert EmailToMock[k].email == e;
    }
    if IsDemoEmail(e) {
      var k :| 0 <= k < |EmailToMock| && EmailToMock[k].email == e;
      assert DemoEmails()[k] == e;
    }
  }

  /** What submitting the form does: show an error, or sign in with the normalised email. */
  datatype SignInStep = ShowError(message: string) | CallSignIn(email: string)

  /**
   * handleSignIn's checks: a blank email or an empty password first, then an email that is not
   * a demo email; otherwise sign in with the trimmed, lower-cased email.
   */
  function SignInDecision(email: string, password: string): (step: SignInStep)
    ensures step == ShowError(MissingFieldsError) <==> NormalizeEmail(email) == [] || password == []
    ensures step == ShowError(UnknownEmailError) <==>
              NormalizeEmail(email) != [] && password != [] && NormalizeEmail(email) !in DemoEmails()
    ensures step.ShowError? ==> step.message == MissingFieldsError || step.message == UnknownEmailError
    ensures step.CallSignIn? ==> step.email == NormalizeEmail(email) && step.email in DemoEmails()
  {
    var trimmed := NormalizeEmail(email);
    if trimmed == [] || password == [] then ShowError(MissingFieldsError)
    else if trimmed !in DemoEmails() then ShowError(UnknownEmailError)
    else CallSignIn(trimmed)
  }

  /** With a password given, the form signs in exactly for the demo emails, in any case and padding. */
  lemma AcceptedIffDemoEmail(email: string, password: string)
    requires password != []
    ensures SignInDecision(email, password).CallSignIn? <==> IsDemoEmail(NormalizeEmail(email))
  {
    InDemoEmailsIff(NormalizeEmail(email));
  }

  /** Only the presence of a password matters: any two non-empty passwords decide alike. */
  lemma PasswordContentIgnored(email: string, p1: string, p2: string)
    requires p1 != [] && p2 != []
    ensures SignInDecision(email, p1) == SignInDecision(email, p2)
  {
  }

  /**
   * An email the form accepts is found by the mock directory, as the user typed it or as
   * normalised, so the call the form makes returns at once even with the as-written sign-in.
   */
  lemma AcceptedEmailSignsIn(email: string, password: string)
    requires SignInDecision(email, password).CallSignIn?
    ensures var e := SignInDecision(email, password).email;
            && GetAuthUserByEmail(e).Some?
            && GetAuthUserByEmail(e) == GetAuthUserByEmail(email)
            && MockEntraSignInAsWritten(Text(e), 1) == GetAuthUserByEmail(e)
            && MockEntraSignIn(Text(e)) == GetAuthUserByEmail(e).value
            && Some(MockEntraSignIn(Some(Text(e)).GetOr(Text(RoleName(Provider))))) == GetAuthUserByEmail(email)
  {
    var e := NormalizeEmail(email);
    InDemoEmailsIff(e);
    NormalizeIdempotent(email);
  }

  /** The submit button's `disabled`: loading, a blank email or an empty password. */
  function SubmitDisabled(isLoading: bool, email: string, password: string): bool {
    isLoading || Trim(email) == [] || password == []
  }

  /** An enabled submit button never produces the missing-fields error. */
  lemma EnabledSubmitPassesBlankCheck(email: string, password: string)
    requires !SubmitDisabled(false, email, password)
    ensures SignInDecision(email, password) != ShowError(MissingFieldsError)
  {
  }

  /** handleMicrosoftSignIn's argument: the normalised email if it is a demo email, else nothing. */
  function MicrosoftSignInArg(email: string): (arg: Option<SignInArg>)
    ensures arg.Some? <==> NormalizeEmail(email) != [] && NormalizeEmail(email) in DemoEmails()
    ensures arg.Some? ==> arg.value == Text(NormalizeEmail(email))
  {
    var trimmed := NormalizeEmail(email);
    if trimmed != [] && trimmed in DemoEmails() then Some(Text(trimmed)) else None
  }

  /**
   * The Microsoft button with anything but a demo email in the field calls the sign-in with no
   * argument: as written that call never returns; as intended it signs in as a Provider.
   */
  lemma MicrosoftButtonWithoutDemoEmail(email: string, fuel: nat)
    requires !IsDemoEmail(NormalizeEmail(email))
    ensures MicrosoftSignInArg(email).None?
    ensures MockEntraSignInAsWritten(MicrosoftSignInArg(email).GetOr(Text(RoleName(Provider))), fuel).None?
    ensures MockEntraSignIn(MicrosoftSignInArg(email).GetOr(Text(RoleName(Provider)))).roles == [Provider]
  {
    InDemoEmailsIff(NormalizeEmail(email));
    BareRoleNeverSignsIn(Provider, fuel);
    RoleNameIsNoDemoEmail(Provider);
  }

  /** The Microsoft button and the form agree whenever the form would sign in. */
  lemma MicrosoftButtonAgreesWithForm(email: string, password: string)
    requires SignInDecision(email, password).CallSignIn?
    ensures MicrosoftSignInArg(email) == Some(Text(SignInDecision(email, password).email))
  {
  }

  /** With a demo email in the field, the as-written sign-in returns that email's user at the first wait. */
  lemma DemoEmailSignsInFirstWait(email: string, fuel: nat)
    requires IsDemoEmail(NormalizeEmail(email)) && fuel > 0
    ensures MicrosoftSignInArg(email) == Some(Text(NormalizeEmail(email)))
    ensures GetAuthUserByEmail(email).Some?
    ensures MockEntraSignInAsWritten(Text(NormalizeEmail(email)), fuel) == GetAuthUserByEmail(email)
  {
    InDemoEmailsIff(NormalizeEmail(email));
    NormalizeIdempotent(email);
    MockRowsWellFormed();
  }

  /** What the Microsoft button's call returns, as written within `fuel` waits and as corrected. */
  lemma MicrosoftButtonOutcome(email: string, fuel: nat)
    ensures var settled := MockEntraSignInAsWritten(MicrosoftSignInArg(email).GetOr(Text(RoleName(Provider))), fuel);
            && (!IsDemoEmail(NormalizeEmail(email)) ==> settled.None?)
            && (IsDemoEmail(NormalizeEmail(email)) && fuel > 0 ==> settled.Some? && settled == GetAuthUserByEmail(email))
    ensures var u := MockEntraSignIn(MicrosoftSignInArg(email).GetOr(Text(RoleName(Provider))));
            && (IsDemoEmail(NormalizeEmail(email)) ==> Some(u) == GetAuthUserByEmail(email))
            && (!IsDemoEmail(NormalizeEmail(email)) ==> u.roles == [Provider])
  {
    if !IsDemoEmail(NormalizeEmail(email)) {
      MicrosoftButtonWithoutDemoEmail(email, fuel);
    } else {
      DemoEmailSignsInFirstWait(email, 1);
      if fuel > 0 {
        DemoEmailSignsInFirstWait(email, fuel);
      }
    }
  }

  /** The user the Microsoft button's as-written sign-in call returns within `fuel` waits, if any. */
  function MicrosoftButtonAsWritten(email: string, fuel: nat): (settled: Option<AuthUser>)
    ensures !IsDemoEmail(NormalizeEmail(email)) ==> settled.None?
    ensures IsDemoEmail(NormalizeEmail(email)) && fuel > 0 ==> settled.Some? && settled == GetAuthUserByEmail(email)
  {
    MicrosoftButtonOutcome(email, fuel);
    MockEntraSignInAsWritten(MicrosoftSignInArg(email).GetOr(Text(RoleName(Provider))), fuel)
  }

  /** The user the Microsoft button's corrected sign-in call returns: the demo email's user, else a Provider. */
  function MicrosoftButtonCorrected(email: string): (u: AuthUser)
    ensures IsDemoEmail(NormalizeEmail(email)) ==> Some(u) == GetAuthUserByEmail(email)
    ensures !IsDemoEmail(NormalizeEmail(email)) ==> u.roles == [Provider]
  {
    MicrosoftButtonOutcome(email, 0);
    MockEntraSignIn(MicrosoftSignInArg(email).GetOr(Text(RoleName(Provider))))
  }

  /** The sign-in page: its three fields, where it navigated, and the context it signs in through. */
  class SignInPage {
    var email: string
    var password: string
    var error: string
    /** The path of the last replace-navigation, if any. */
    var navigatedTo: Option<string>
    const auth: AuthProvider

    constructor (auth: AuthProvider)
      ensures email == "" && password == "" && error == "" && navigatedTo.None?
      ensures this.auth == auth
    {
      email := "";
      password := "";
      error := "";
      navigatedTo := None;
      this.auth := auth;
    }

    /** Typing in the email field also clears any error. */
    method EditEmail(value: string)
      modifies this`email, this`error
      ensures email == value && error == ""
    {
      email := value;
      error := "";
    }

    method EditPassword(value: string)
      modifies this`password
      ensures password == value
    {
      password := value;
    }

    /** handleSignIn: an error stays on the page; a demo email signs in and navigates to "/". */
    method HandleSignIn()
      modifies this`error, this`navigatedTo
      modifies auth`user, auth`activeRole, auth`isLoading, auth`storedAuth, auth`storedActiveRole
      ensures SignInDecision(email, password).ShowError? ==>
                && error == SignInDecision(email, password).message
                && navigatedTo == old(navigatedTo)
                && auth.user == old(auth.user) && auth.activeRole == old(auth.activeRole)
                && auth.storedAuth == old(auth.storedAuth) && auth.storedActiveRole == old(auth.storedActiveRole)
                && auth.isLoading == old(auth.isLoading)
      ensures SignInDecision(email, password).CallSignIn? ==>
                && error == ""
                && navigatedTo == Some("/")
                && auth.user == GetAuthUserByEmail(email)
                && auth.RoleHeld() && !auth.isLoading
    {
      error := "";
      var step := SignInDecision(email, password);
      match step
      case ShowError(message) =>
        error := message;
      case CallSignIn(e) =>
        AcceptedEmailSignsIn(email, password);
        auth.SignInWithMicrosoft(Some(Text(e)));
        navigatedTo := Some("/");
    }

    /**
     * handleMicrosoftSignIn with the corrected sign-in: sign in with the demo email in the field,
     * or with no argument, which signs in as a Provider; then navigate to "/".
     */
    method HandleMicrosoftSignIn()
      modifies this`error, this`navigatedTo
      modifies auth`user, auth`activeRole, auth`isLoading, auth`storedAuth, auth`storedActiveRole
      ensures error == "" && navigatedTo == Some("/")
      ensures auth.user == Some(MicrosoftButtonCorrected(email))
      ensures auth.RoleHeld() && !auth.isLoading
    {
      error := "";
      var arg := MicrosoftSignInArg(email);
      auth.SignInWithMicrosoft(arg);
      navigatedTo := Some("/");
    }

    /**
     * handleMicrosoftSignIn as written, the mock sign-in given `fuel` waits: without a demo email
     * in the field the awaited call never settles, so loading stays on, no user is set and the
     * page does not navigate; with one, the first wait signs in and the page navigates to "/".
     */
    method HandleMicrosoftSignInAsWritten(fuel: nat)
      modifies this`error, this`navigatedTo
      modifies auth`user, auth`activeRole, auth`isLoading, auth`storedAuth, auth`storedActiveRole
      ensures error == ""
      ensures MicrosoftButtonAsWritten(email, fuel).None? ==>
                && navigatedTo == old(navigatedTo)
                && auth.isLoading
                && auth.user == old(auth.user) && auth.activeRole == old(auth.activeRole)
                && auth.storedAuth == old(auth.storedAuth) && auth.storedActiveRole == old(auth.storedActiveRole)
      ensures MicrosoftButtonAsWritten(email, fuel).Some? ==>
                && navigatedTo == Some("/")
                && auth.user == MicrosoftButtonAsWritten(email, fuel)
                && auth.RoleHeld() && !auth.isLoading
    {
      error := "";
      var arg := MicrosoftSignInArg(email);
      var settled := auth.SignInWithMicrosoftAsWritten(arg, fuel);
      if settled.Some? {
        navigatedTo := Some("/");
      }
    }
  }
}
