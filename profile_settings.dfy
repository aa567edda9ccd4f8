/**
 * The profile panel (src/components/ProfileSettings.tsx): the editable display
 * name, the two record updates it hands to its `onUpdate` callback, the
 * disabled state of "Save", and the usage figures.
 *
 * The save handler's 1 s timer is taken as part of one atomic step.
 */
module ProfileSettings {
  import opened Wrappers
  import opened Blink
  import Text
  import ChatInterface

  const AvatarSeedUrl := "https://api.dicebear.com/7.x/avataaars/svg?seed="
  const InfinitySign := "∞"

  /** `user.displayName || ''`: the name field's starting text. */
  function InitialName(u: User): (r: string)
    ensures r == "" <==> u.displayName.None? || u.displayName == Some("")
    ensures r != "" ==> u.displayName == Some(r)
  {
    u.displayName.GetOr("")
  }

  /** `{ ...user, displayName }`: the user with only the display name replaced. */
  function Saved(u: User, name: string): (r: User)
    ensures r.(displayName := u.displayName) == u
    ensures r.displayName == Some(name)
  {
    u.(displayName := Some(name))
  }

  /** `generateNewAvatar`: the user with only the avatar replaced, seeded by the clock reading. */
  function WithNewAvatar(u: User, now: nat): (r: User)
    ensures r.(avatar := u.avatar) == u
    ensures r.avatar == Some(AvatarSeedUrl + Text.NatToDecimal(now))
  {
    u.(avatar := Some(AvatarSeedUrl + Text.NatToDecimal(now)))
  }

  /** `loading || displayName === user.displayName`. */
  predicate SaveDisabled(loading: bool, edited: string, u: User) {
    loading || u.displayName == Some(edited)
  }

  /** When idle, "Save" is disabled exactly when saving would hand back the user unchanged. */
  lemma SaveDisabledIffNoChange(edited: string, u: User)
    ensures SaveDisabled(false, edited, u) <==> Saved(u, edited) == u
  {
    if Saved(u, edited) == u {
      assert Saved(u, edited).displayName == u.displayName;
    }
  }

  /**
   * Saving the untouched field gives back the same user when it has a display
   * name; for a user without one "Save" is enabled from the start, and saving
   * stores an empty display name.
   */
  lemma SavingUntouchedName(u: User)
    ensures u.displayName.Some? ==> Saved(u, InitialName(u)) == u
    ensures u.displayName.None? ==>
      !SaveDisabled(false, InitialName(u), u) && Saved(u, InitialName(u)).displayName == Some("")
  {
  }

  /** The limit in "Messages Used": '∞' exactly for the unlimited value -1, the number otherwise. */
  function UsageLimitText(u: User): (r: string)
    ensures r == InfinitySign <==> u.maxMessages == -1
    ensures r != InfinitySign ==> Text.IsIntText(r) && Text.IntValue(r) == u.maxMessages
  {
    if u.maxMessages == -1 then InfinitySign
    else
      var t := Text.IntToDecimal(u.maxMessages);
      Text.IntRoundTrip(u.maxMessages);
      assert t[0] != InfinitySign[0];
      t
  }

  /** The remaining count: none for an unlimited plan, otherwise the limit minus the messages used. */
  function Remaining(u: User): (r: Option<int>)
    ensures r.None? <==> u.maxMessages == -1
    ensures r.Some? ==> r.value + u.messageCount == u.maxMessages
  {
    if u.maxMessages == -1 then None else Some(u.maxMessages - u.messageCount)
  }

  /** The chat component lets a signed-in user send exactly when the panel shows no limit or a positive remaining count. */
  lemma RemainingAgreesWithQuota(u: User, guestMessageCount: int)
    ensures ChatInterface.CanSendMessage(Some(u), guestMessageCount) <==>
      (Remaining(u).None? || Remaining(u).value > 0)
  {
  }

  const UnlimitedNotice := "Unlimited messages with Pro plan"
  const RemainingSuffix := " messages remaining this month"

  /**
   * The line under the progress bar: the Pro notice exactly for an unlimited
   * plan, otherwise the remaining count followed by " messages remaining this month".
   */
  function RemainingNotice(u: User): (r: string)
    ensures r == UnlimitedNotice <==> u.maxMessages == -1
    ensures u.maxMessages != -1 ==> |r| > |RemainingSuffix| && r[|r| - |RemainingSuffix|..] == RemainingSuffix
  {
    match Remaining(u)
    case None => UnlimitedNotice
    case Some(n) =>
      var t := Text.IntToDecimal(n) + RemainingSuffix;
      assert t[0] == Text.IntToDecimal(n)[0] && t[0] != UnlimitedNotice[0];
      assert t[|t| - |RemainingSuffix|..] == RemainingSuffix;
      t
  }

  /** The number in the notice reads back as the limit minus the messages used. */
  lemma RemainingNoticeReadsBack(u: User)
    requires u.maxMessages != -1
    ensures var t := RemainingNotice(u);
      && |t| > |RemainingSuffix|
      && Text.IsIntText(t[..|t| - |RemainingSuffix|])
      && Text.IntValue(t[..|t| - |RemainingSuffix|]) == u.maxMessages - u.messageCount
  {
    var n := u.maxMessages - u.messageCount;
    var t := RemainingNotice(u);
    assert t[..|t| - |RemainingSuffix|] == Text.IntToDecimal(n);
    Text.IntRoundTrip(n);
  }

  /** The panel's own state. */
  class Editor {
    var displayName: string
    var loading: bool

    constructor (u: User)
      ensures displayName == InitialName(u) && !loading
    {
      displayName := InitialName(u);
      loading := false;
    }

    method SetDisplayName(text: string)
      modifies this`displayName
      ensures displayName == text
    {
      displayName := text;
    }

    /** `handleSave`: hands back the user with the edited name; loading ends and the field keeps its text. */
    method Save(u: User) returns (updated: User)
      modifies this`loading
      ensures updated == Saved(u, displayName)
      ensures !loading
    {
      loading := true;
      updated := u.(displayName := Some(displayName));
      loading := false;
    }
  }
}
