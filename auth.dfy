/**
 * The sign-in screen (app/auth.tsx): a login/register tab, email, password
 * and name fields, a show-password eye, and a submit button whose handler
 * rejects a blank email or password. Navigation after the simulated delay is
 * recorded as a flag; the alert text is not modelled.
 */
module Auth {

  /**
   * The characters JavaScript's String.prototype.trim removes: the
   * ECMAScript WhiteSpace (tab, vertical tab, form feed, space, no-break
   * space, byte order mark and the Unicode space separators) and
   * LineTerminator (line feed, carriage return, line and paragraph separator)
   * code points.
   */
  predicate IsJsWhitespace(c: char)
  {
    || c == '\t' || c == '\n' || c == '\U{000B}' || c == '\U{000C}' || c == '\r' || c == ' '
    || c == '\U{00A0}' || c == '\U{1680}' || ('\U{2000}' <= c <= '\U{200A}')
    || c == '\U{2028}' || c == '\U{2029}' || c == '\U{202F}' || c == '\U{205F}'
    || c == '\U{3000}' || c == '\U{FEFF}'
  }

  /** `s` with its leading whitespace removed. */
  function TrimStart(s: string): (r: string)
    ensures |r| <= |s| && r == s[|s| - |r|..]
    ensures forall i :: 0 <= i < |s| - |r| ==> IsJsWhitespace(s[i])
    ensures r == [] || !IsJsWhitespace(r[0])
  {
    if s != [] && IsJsWhitespace(s[0]) then TrimStart(s[1..]) else s
  }

  /** `s` with its trailing whitespace removed. */
  function TrimEnd(s: string): (r: string)
    ensures |r| <= |s| && r == s[..|r|]
    ensures forall i :: |r| <= i < |s| ==> IsJsWhitespace(s[i])
    ensures r == [] || !IsJsWhitespace(r[|r| - 1])
  {
    if s != [] && IsJsWhitespace(s[|s| - 1]) then TrimEnd(s[..|s| - 1]) else s
  }

  /** JavaScript's trim. */
  function Trim(s: string): string
  {
    TrimEnd(TrimStart(s))
  }

  /** A string trims to the empty string exactly when it is all whitespace. */
  lemma TrimEmptyIffBlank(s: string)
    ensures Trim(s) == [] <==> forall i :: 0 <= i < |s| ==> IsJsWhitespace(s[i])
  {
  }

  /** The check of handleAuth: neither the email nor the password trims to the empty string. */
  function CredentialsFilled(email: string, password: string): (ok: bool)
    ensures ok <==> ((exists i :: 0 <= i < |email| && !IsJsWhitespace(email[i]))
                     && (exists j :: 0 <= j < |password| && !IsJsWhitespace(password[j])))
  {
    TrimEmptyIffBlank(email);
    TrimEmptyIffBlank(password);
    Trim(email) != [] && Trim(password) != []
  }

  /** An empty or whitespace-only password is rejected whatever the email. */
  lemma BlankPasswordRejected(email: string, password: string)
    requires forall j :: 0 <= j < |password| ==> IsJsWhitespace(password[j])
    ensures !CredentialsFilled(email, password)
  {
  }

  /**
   * The screen's state. While `completionPending` holds, the 1.5-second
   * timeout of an accepted submission is scheduled.
   */
  class AuthScreen {
    var isLoading: bool
    var isLogin: bool
    var showPassword: bool
    var email: string
    var password: string
    var name: string
    var completionPending: bool
    var navigatedToTabs: bool

    ghost predicate Valid()
      reads this
    {
      isLoading <==> completionPending
    }

    constructor ()
      ensures Valid()
      ensures !isLoading && isLogin && !showPassword && !completionPending && !navigatedToTabs
      ensures email == "" && password == "" && name == ""
    {
      isLoading := false;
      isLogin := true;
      showPassword := false;
      email := "";
      password := "";
      name := "";
      completionPending := false;
      navigatedToTabs := false;
    }

    /** The password field hides its text. */
    function SecureTextEntry(): bool
      reads this
    {
      !showPassword
    }

    /** The submit button (disabled while loading). The name field is never looked at. */
    method HandleAuth()
      requires Valid() && !isLoading
      modifies this`isLoading, this`completionPending
      ensures Valid()
      ensures completionPending == CredentialsFilled(email, password)
      ensures isLoading == CredentialsFilled(email, password)
    {
      isLoading := true;
      if Trim(email) == [] || Trim(password) == [] {
        isLoading := false;
        return;
      }
      completionPending := true;
    }

    /** The delayed completion of an accepted submission. */
    method CompleteAuth()
      requires Valid() && completionPending
      modifies this`isLoading, this`completionPending, this`navigatedToTabs
      ensures Valid()
      ensures !isLoading && !completionPending && navigatedToTabs
    {
      isLoading := false;
      completionPending := false;
      navigatedToTabs := true;
    }

    /** Continue as a guest: navigate without any check. */
    method HandleGuestLogin()
      modifies this`navigatedToTabs
      ensures navigatedToTabs
    {
      navigatedToTabs := true;
    }

    /** The login tab; pressing it again changes nothing. */
    method SelectLoginTab()
      modifies this`isLogin
      ensures isLogin
    {
      isLogin := true;
    }

    /** The register tab; pressing it again changes nothing. */
    method SelectRegisterTab()
      modifies this`isLogin
      ensures !isLogin
    {
      isLogin := false;
    }

    /** The eye icon of the password field. */
    method TogglePasswordVisibility()
      modifies this`showPassword
      ensures showPassword == !old(showPassword)
      ensures SecureTextEntry() == !old(SecureTextEntry())
    {
      showPassword := !showPassword;
    }

    method SetEmail(text: string)
      modifies this`email
      ensures email == text
    {
      email := text;
    }

    method SetPassword(text: string)
      modifies this`password
      ensures password == text
    {
      password := text;
    }

    /** The name field, rendered only on the register tab. */
    method SetName(text: string)
      requires !isLogin
      modifies this`name
      ensures name == text
    {
      name := text;
    }
  }

  /** Submitting from a fresh screen in either mode, whatever the name, is decided by email and password alone. */
  method SubmitFresh(registering: bool, name: string, email: string, password: string) returns (accepted: bool)
    ensures accepted == CredentialsFilled(email, password)
  {
    var screen := new AuthScreen();
    screen.SelectRegisterTab();
    screen.SetName(name);
    if !registering {
      screen.SelectLoginTab();
    }
    screen.SetEmail(email);
    screen.SetPassword(password);
    screen.HandleAuth();
    accepted := screen.isLoading;
    if accepted {
      screen.CompleteAuth();
      assert screen.navigatedToTabs && !screen.isLoading;
    }
  }
}
