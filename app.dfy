/**
 * The top-level component (src/App.tsx): the signed-in user, the current chat
 * and the two modal flags, and the handlers the children call.
 *
 * The auth provider's subscription is replaced by the snapshots it delivers:
 * each call of `OnAuthStateChanged` is one callback invocation. The provider's
 * own login and logout calls and the toasts are not modelled.
 */
module App {
  import opened Wrappers
  import opened Blink
  import Text
  import ChatInterface
  import ChatSidebar
  import AuthModal

  /** The user record inside an auth-provider snapshot; absent fields are `None`. */
  datatype ProviderUser = ProviderUser(
    id: string,
    email: Option<string>,
    displayName: Option<string>,
    avatar: Option<string>)

  /** One snapshot delivered to the `onAuthStateChanged` callback. */
  datatype AuthSnapshot = AuthSnapshot(user: Option<ProviderUser>, isLoading: bool)

  /** `x || fallback` for an optional string: an absent or empty `x` falls through. */
  function OrElse(x: Option<string>, fallback: string): string {
    match x
    case Some(v) => if v != "" then v else fallback
    case None => fallback
  }

  /**
   * `displayName || email?.split('@')[0] || 'User'`. Never empty: the provider's
   * non-empty name if any, else the non-empty text before the email's first '@',
   * else "User".
   */
  function ProviderDisplayName(p: ProviderUser): (r: string)
    ensures r != ""
    ensures p.displayName.Some? && p.displayName.value != "" ==> r == p.displayName.value
    ensures !(p.displayName.Some? && p.displayName.value != "") ==>
      r == (if p.email.Some? && Text.LocalPart(p.email.value) != "" then Text.LocalPart(p.email.value) else "User")
  {
    var fromEmail := match p.email case Some(e) => Some(Text.LocalPart(e)) case None => None;
    OrElse(p.displayName, OrElse(fromEmail, "User"))
  }

  /**
   * The `User` built from a provider snapshot: the same id and avatar, the
   * email or "", the display name above, and the defaults of a new account
   * (free plan, no badges, 0 of 50 messages), so it may always send at once.
   */
  function UserFromProvider(p: ProviderUser): (u: User)
    ensures u.id == p.id && u.avatar == p.avatar
    ensures u.email == OrElse(p.email, "")
    ensures u.displayName == Some(ProviderDisplayName(p))
    ensures u.plan == Free && u.badges == [] && u.messageCount == 0 && u.maxMessages == 50
    ensures forall g :: ChatInterface.CanSendMessage(Some(u), g)
  {
    User(p.id, OrElse(p.email, ""), Some(ProviderDisplayName(p)), p.avatar, Free, [], 0, AuthModal.DefaultMaxMessages)
  }

  /** `OrElse` is JavaScript's `||` on strings: the fallback exactly when the value is absent or empty. */
  lemma OrElseFallsThroughOnEmpty(x: Option<string>, fallback: string)
    ensures OrElse(x, fallback) == fallback <==> x.None? || x.value == "" || x.value == fallback
    ensures x.Some? && x.value != "" ==> OrElse(x, fallback) == x.value
  {
  }

  /**
   * The sidebar shows the name `onAuthStateChanged` stored: it is never empty,
   * so the sidebar's own '@' fallback is not used for a provider account.
   */
  lemma SidebarShowsProviderName(p: ProviderUser)
    ensures ChatSidebar.ProfileName(UserFromProvider(p)) == ProviderDisplayName(p)
  {
  }

  /** An account made by the email path on sign-in shows the email's text before the first '@' either way. */
  lemma SidebarShowsEmailLocalPart(email: string, name: string, now: nat)
    ensures ChatSidebar.ProfileName(AuthModal.EmailUser(email, name, false, now)) == Text.LocalPart(email)
  {
  }

  /**
   * Neither way of creating an account hands out badges, so no account this
   * app creates is shown the developer section.
   */
  lemma NewAccountsHaveNoDeveloperTools(p: ProviderUser, email: string, name: string, isSignUp: bool, now: nat)
    ensures !ChatSidebar.ShowDeveloperTools(Some(UserFromProvider(p)))
    ensures !ChatSidebar.ShowDeveloperTools(Some(AuthModal.EmailUser(email, name, isSignUp, now)))
  {
  }

  class AppState {
    var user: Option<User>
    var currentChatId: Option<string>
    var showAuth: bool
    var showPricing: bool
    var isLoading: bool

    constructor ()
      ensures user == None && currentChatId == None && !showAuth && !showPricing && isLoading
    {
      user := None;
      currentChatId := None;
      showAuth := false;
      showPricing := false;
      isLoading := true;
    }

    /** The `onAuthStateChanged` callback: the user follows the snapshot, and so does `isLoading`. */
    method OnAuthStateChanged(state: AuthSnapshot)
      modifies this`user, this`isLoading
      ensures state.user.Some? ==> user == Some(UserFromProvider(state.user.value))
      ensures state.user.None? ==> user == None
      ensures isLoading == state.isLoading
    {
      if state.user.Some? {
        var userData := UserFromProvider(state.user.value);
        user := Some(userData);
      } else {
        user := None;
      }
      isLoading := state.isLoading;
    }

    /** `handleLogin`. */
    method HandleLogin(newUser: User)
      modifies this`user
      ensures user == Some(newUser)
    {
      user := Some(newUser);
    }

    /** `handleLogout`: no user and no current chat. */
    method HandleLogout()
      modifies this`user, this`currentChatId
      ensures user == None && currentChatId == None
    {
      user := None;
      currentChatId := None;
    }

    /** `handleAuthRequired`: only the sign-in dialog flag changes. */
    method HandleAuthRequired()
      modifies this`showAuth
      ensures showAuth
    {
      showAuth := true;
    }

    /** `handleUpgradeRequired`: only the pricing dialog flag changes. */
    method HandleUpgradeRequired()
      modifies this`showPricing
      ensures showPricing
    {
      showPricing := true;
    }

    /** The dialogs' `onOpenChange`. */
    method SetShowAuth(open: bool)
      modifies this`showAuth
      ensures showAuth == open
    {
      showAuth := open;
    }

    method SetShowPricing(open: bool)
      modifies this`showPricing
      ensures showPricing == open
    {
      showPricing := open;
    }

    /** `handleNewChat`. */
    method HandleNewChat()
      modifies this`currentChatId
      ensures currentChatId == None
    {
      currentChatId := None;
    }

    /** `handleSelectChat`. */
    method HandleSelectChat(chatId: string)
      modifies this`currentChatId
      ensures currentChatId == Some(chatId)
    {
      currentChatId := Some(chatId);
    }

    /** `handleDeleteChat`: the current chat is cleared only when it is the deleted one. */
    method HandleDeleteChat(chatId: string)
      modifies this`currentChatId
      ensures old(currentChatId) == Some(chatId) ==> currentChatId == None
      ensures old(currentChatId) != Some(chatId) ==> currentChatId == old(currentChatId)
    {
      if currentChatId == Some(chatId) {
        currentChatId := None;
      }
    }

    /** The sidebar's callbacks, as wired to the handlers above. */
    method OnSidebar(action: ChatSidebar.Action)
      modifies this`currentChatId, this`showAuth
      ensures action.NewChat? ==> currentChatId == None && showAuth == old(showAuth)
      ensures action.SelectChat? ==> currentChatId == Some(action.chatId) && showAuth == old(showAuth)
      ensures action.DeleteChat? ==>
        && showAuth == old(showAuth)
        && currentChatId == (if old(currentChatId) == Some(action.chatId) then None else old(currentChatId))
      ensures action.AuthRequired? ==> showAuth && currentChatId == old(currentChatId)
    {
      match action
      case NewChat => HandleNewChat();
      case SelectChat(id) => HandleSelectChat(id);
      case DeleteChat(id) => HandleDeleteChat(id);
      case AuthRequired => HandleAuthRequired();
    }

    /** The chat component's refusal signals, as wired to the handlers above. */
    method OnSendOutcome(outcome: ChatInterface.SendOutcome)
      modifies this`showAuth, this`showPricing
      ensures showAuth == (old(showAuth) || outcome.AuthRequired?)
      ensures showPricing == (old(showPricing) || outcome.UpgradeRequired?)
    {
      if outcome.AuthRequired? {
        HandleAuthRequired();
      } else if outcome.UpgradeRequired? {
        HandleUpgradeRequired();
      }
    }

    /**
     * The dialog's email path with its callbacks: an accepted form signs the built
     * account in and closes the dialog; a rejected one changes nothing here.
     */
    method EmailAuth(form: AuthModal.Form, isSignUp: bool, now: nat)
      modifies this`user, this`showAuth, form
      ensures AuthModal.Rejects(old(form.email), old(form.password), old(form.name), isSignUp) ==>
        user == old(user) && showAuth == old(showAuth)
      ensures !AuthModal.Rejects(old(form.email), old(form.password), old(form.name), isSignUp) ==>
        user == Some(AuthModal.EmailUser(old(form.email), old(form.name), isSignUp, now)) && !showAuth
    ensures AuthModal.Rejects(old(form.email), old(form.password), old(form.name), isSignUp) ==>
        form.loading == old(form.loading) && form.email == old(form.email)
        && form.password == old(form.password) && form.name == old(form.name)
    ensures !AuthModal.Rejects(old(form.email), old(form.password), old(form.name), isSignUp) ==>
        !form.loading && form.email == "" && form.password == "" && form.name == ""
    {
      var login := form.EmailAuth(isSignUp, now);
      if login.Some? {
        HandleLogin(login.value);
        SetShowAuth(false);
      }
    }
  }

  /** Every quick action of the sidebar lands on a fresh chat, whatever its label. */
  method QuickActionStartsNewChat(app: AppState, actionLabel: string)
    modifies app`currentChatId, app`showAuth
    ensures app.currentChatId == None && app.showAuth == old(app.showAuth)
  {
    app.OnSidebar(ChatSidebar.QuickAction(actionLabel));
  }
}
