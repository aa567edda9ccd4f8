/**
 * The sign-in dialog's email path (src/components/AuthModal.tsx): the guard of
 * `handleEmailAuth`, the `User` it builds, the reset of the form, and the
 * disabled state of the two submit buttons.
 *
 * The handler's 1.5 s timer is taken as part of one atomic step: the form's
 * values are read when the guard passes, and the timer body runs at once.
 */
module AuthModal {
  import opened Wrappers
  import opened Blink
  import Text

  const IdPrefix := "email_"
  /** The avatar service address; the user's email (or a clock reading) is appended as the seed. */
  const AvatarSeedUrl := "https://api.dicebear.com/7.x/avataaars/svg?seed="
  /** The quota every freshly created account starts with. */
  const DefaultMaxMessages: int := 50

  /** The guard of `handleEmailAuth`: an empty email or password, or an empty name on sign-up. */
  predicate Rejects(email: string, password: string, name: string, isSignUp: bool) {
    email == "" || password == "" || (isSignUp && name == "")
  }

  /**
   * The account record built by the email path. Its id is "email_" followed by
   * the clock reading in decimal, which reads back as that reading; its display
   * name is the entered name on sign-up and the email's text before the first '@'
   * on sign-in; it starts on the free plan with no badges and 0 of 50 messages.
   */
  function EmailUser(email: string, name: string, isSignUp: bool, now: nat): (u: User)
    ensures |u.id| > |IdPrefix| && u.id[..|IdPrefix|] == IdPrefix
    ensures Text.AllDigits(u.id[|IdPrefix|..]) && Text.DecimalValue(u.id[|IdPrefix|..]) == now
    ensures u.email == email
    ensures isSignUp ==> u.displayName == Some(name)
    ensures !isSignUp ==> u.displayName == Some(Text.LocalPart(email))
    ensures u.avatar == Some(AvatarSeedUrl + email)
    ensures u.plan == Free && u.badges == [] && u.messageCount == 0 && u.maxMessages == DefaultMaxMessages
  {
    var id := IdPrefix + Text.NatToDecimal(now);
    assert id[|IdPrefix|..] == Text.NatToDecimal(now);
    Text.DecimalRoundTrip(now);
    User(
      id,
      email,
      Some(if isSignUp then name else Text.LocalPart(email)),
      Some(AvatarSeedUrl + email),
      Free,
      [],
      0,
      DefaultMaxMessages)
  }

  /** Two accounts made at different clock readings have different ids. */
  lemma EmailIdsFollowClock(email1: string, name1: string, up1: bool, now1: nat,
                            email2: string, name2: string, up2: bool, now2: nat)
    requires EmailUser(email1, name1, up1, now1).id == EmailUser(email2, name2, up2, now2).id
    ensures now1 == now2
  {
    var id := EmailUser(email1, name1, up1, now1).id;
    assert Text.DecimalValue(id[|IdPrefix|..]) == now1;
  }

  /** The "Sign In" button: disabled while loading or whenever the sign-in guard would reject. */
  predicate SignInDisabled(loading: bool, email: string, password: string) {
    loading || email == "" || password == ""
  }

  /** The "Create Account" button: disabled while loading or whenever the sign-up guard would reject. */
  predicate SignUpDisabled(loading: bool, email: string, password: string, name: string) {
    loading || email == "" || password == "" || name == ""
  }

  /** Each button is enabled exactly when the form is idle and its handler's guard would pass. */
  lemma ButtonsMatchGuard(loading: bool, email: string, password: string, name: string)
    ensures SignInDisabled(loading, email, password) <==> loading || Rejects(email, password, name, false)
    ensures SignUpDisabled(loading, email, password, name) <==> loading || Rejects(email, password, name, true)
  {
  }

  /** The dialog's form fields. */
  class Form {
    var loading: bool
    var email: string
    var password: string
    var name: string

    constructor ()
      ensures !loading && email == "" && password == "" && name == ""
    {
      loading := false;
      email := "";
      password := "";
      name := "";
    }

    method SetEmail(text: string)
      modifies this`email
      ensures email == text
    {
      email := text;
    }

    method SetPassword(text: string)
      modifies this`password
      ensures password == text
    {
      password := text;
    }

    method SetName(text: string)
      modifies this`name
      ensures name == text
    {
      name := text;
    }

    /**
     * `handleEmailAuth`: when the guard rejects, nothing changes and nobody is
     * signed in; otherwise the built account is handed to the caller (who closes
     * the dialog), loading ends, and all three fields are cleared.
     */
    method EmailAuth(isSignUp: bool, now: nat) returns (login: Option<User>)
      modifies this
      ensures Rejects(old(email), old(password), old(name), isSignUp) ==>
        login == None && loading == old(loading) && email == old(email) && password == old(password) && name == old(name)
      ensures !Rejects(old(email), old(password), old(name), isSignUp) ==>
        && login == Some(EmailUser(old(email), old(name), isSignUp, now))
        && !loading && email == "" && password == "" && name == ""
    {
      if email == "" || password == "" || (isSignUp && name == "") {
        return None;
      }
      loading := true;
      var user := EmailUser(email, name, isSignUp, now);
      login := Some(user);
      loading := false;
      email := "";
      password := "";
      name := "";
    }
  }
}
