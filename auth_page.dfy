/** The sign-in / sign-up page: form validation and the mock logins. */
module AuthPage {
  import opened Wrappers
  import opened Text
  import AuthContext

  const RequiredMessage := "Email and password are required."
  const InvalidEmailMessage := "Please enter a valid email address."
  const MismatchMessage := "Passwords do not match."
  const ShortPasswordMessage := "Password must be at least 6 characters long."
  const MinPasswordLength := 6

  const MockAuthToken := "mock_auth_token"
  const MockSocialToken := "mock_social_token"

  /** The checks of `handleSubmit`, first failing one wins. The confirmation
      is compared only in the sign-up view. */
  function Validate(isLoginView: bool, email: string, password: string, confirmPassword: string): (r: Option<string>)
    ensures r == None <==>
      email != "" && password != "" && Contains(email, "@")
      && (isLoginView || password == confirmPassword) && |password| >= MinPasswordLength
    ensures r == Some(RequiredMessage) <==> email == "" || password == ""
    ensures r == Some(InvalidEmailMessage) <==> email != "" && password != "" && !Contains(email, "@")
    ensures r == Some(MismatchMessage) <==>
      email != "" && password != "" && Contains(email, "@") && !isLoginView && password != confirmPassword
    ensures r == Some(ShortPasswordMessage) <==>
      email != "" && password != "" && Contains(email, "@")
      && (isLoginView || password == confirmPassword) && |password| < MinPasswordLength
  {
    if email == "" || password == "" then Some(RequiredMessage)
    else if !Contains(email, "@") then Some(InvalidEmailMessage)
    else if !isLoginView && password != confirmPassword then Some(MismatchMessage)
    else if |password| < MinPasswordLength then Some(ShortPasswordMessage)
    else None
  }

  /** Only the sign-up view looks at the confirmation field. */
  lemma LoginViewIgnoresConfirmation(email: string, password: string, c1: string, c2: string)
    ensures Validate(true, email, password, c1) == Validate(true, email, password, c2)
  {
  }

  /** Whatever passes in the sign-up view passes in the login view. */
  lemma SignupStricterThanLogin(email: string, password: string, confirmPassword: string)
    ensures Validate(false, email, password, confirmPassword) == None ==> Validate(true, email, password, confirmPassword) == None
  {
  }

  datatype Provider = Google | LinkedIn

  function ProviderName(p: Provider): string {
    match p
    case Google => "Google"
    case LinkedIn => "LinkedIn"
  }

  const SocialMailSuffix := "user@example.com"

  /** The mock address a social login signs in with: the lowered provider
      name in front of a fixed mailbox. */
  function SocialLoginEmail(p: Provider): (r: string)
    ensures Contains(r, "@")
    ensures r == Lower(ProviderName(p)) + SocialMailSuffix
  {
    var name := Lower(ProviderName(p));
    assert name + SocialMailSuffix == (name + "user") + "@" + "example.com";
    ContainsMiddle(name + "user", "@", "example.com");
    name + SocialMailSuffix
  }

  lemma GoogleLoginEmail()
    ensures SocialLoginEmail(Google) == "google" + SocialMailSuffix
  {
    var g := Lower("Google");
    assert g == "google" by {
      assert forall i :: 0 <= i < 6 ==> g[i] == "google"[i];
    }
  }

  lemma LinkedInLoginEmail()
    ensures SocialLoginEmail(LinkedIn) == "linkedin" + SocialMailSuffix
  {
    var l := Lower("LinkedIn");
    assert l == "linkedin" by {
      assert forall i :: 0 <= i < 8 ==> l[i] == "linkedin"[i];
    }
  }

  /** The page's form state over the shared authentication provider. */
  class AuthPageState {
    var isLoginView: bool
    var email: string
    var password: string
    var confirmPassword: string
    var error: Option<string>
    const auth: AuthContext.AuthProvider

    constructor (auth: AuthContext.AuthProvider)
      ensures isLoginView && email == "" && password == "" && confirmPassword == "" && error == None
      ensures this.auth == auth
    {
      isLoginView := true;
      email := "";
      password := "";
      confirmPassword := "";
      error := None;
      this.auth := auth;
    }

    method SetEmail(value: string)
      modifies this
      ensures email == value
      ensures isLoginView == old(isLoginView) && password == old(password)
      ensures confirmPassword == old(confirmPassword) && error == old(error)
    {
      email := value;
    }

    method SetPassword(value: string)
      modifies this
      ensures password == value
      ensures isLoginView == old(isLoginView) && email == old(email)
      ensures confirmPassword == old(confirmPassword) && error == old(error)
    {
      password := value;
    }

    method SetConfirmPassword(value: string)
      modifies this
      ensures confirmPassword == value
      ensures isLoginView == old(isLoginView) && email == old(email)
      ensures password == old(password) && error == old(error)
    {
      confirmPassword := value;
    }

    /** Submitting the form: a failed check only shows its message; a
        passing form logs in (or signs up) with the mock token, and that
        session is one a reload restores. */
    method HandleSubmit()
      modifies this, auth
      ensures isLoginView == old(isLoginView) && email == old(email)
      ensures password == old(password) && confirmPassword == old(confirmPassword)
      ensures error == Validate(isLoginView, email, password, confirmPassword)
      ensures error.Some? ==> unchanged(auth)
      ensures error.None? ==> auth.authState == AuthContext.SignedIn(email, MockAuthToken)
      ensures error.None? ==> auth.storage == AuthContext.StorageAfterLogin(old(auth.storage), email, MockAuthToken)
      ensures error.None? ==> AuthContext.Restore(auth.storage, AuthContext.SignedOut) == auth.authState
      ensures error.None? ==> auth.Valid()
    {
      error := None;
      var check := Validate(isLoginView, email, password, confirmPassword);
      if check.Some? {
        error := check;
        return;
      }
      if isLoginView {
        auth.Login(email, MockAuthToken);
      } else {
        auth.Signup(email, MockAuthToken);
      }
      AuthContext.LoginSurvivesReload(old(auth.storage), email, MockAuthToken);
    }

    /** A social login clears the error and, once its delay has passed,
        logs in with the provider's mock address. */
    method HandleSocialLogin(p: Provider)
      modifies this, auth
      ensures error == None
      ensures isLoginView == old(isLoginView) && email == old(email)
      ensures password == old(password) && confirmPassword == old(confirmPassword)
      ensures auth.authState == AuthContext.SignedIn(SocialLoginEmail(p), MockSocialToken)
      ensures auth.storage == AuthContext.StorageAfterLogin(old(auth.storage), SocialLoginEmail(p), MockSocialToken)
      ensures AuthContext.Restore(auth.storage, AuthContext.SignedOut) == auth.authState
    {
      error := None;
      var address := SocialLoginEmail(p);
      assert |address| >= |SocialMailSuffix| > 0;
      assert MockSocialToken != "";
      auth.Login(address, MockSocialToken);
      AuthContext.LoginSurvivesReload(old(auth.storage), address, MockSocialToken);
    }

    /** Switching between sign-in and sign-up clears the error. */
    method ToggleView()
      modifies this
      ensures isLoginView == !old(isLoginView) && error == None
      ensures email == old(email) && password == old(password) && confirmPassword == old(confirmPassword)
    {
      isLoginView := !isLoginView;
      error := None;
    }
  }
}
