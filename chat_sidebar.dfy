/**
 * The sidebar (src/components/ChatSidebar.tsx): relative dates of the chat
 * list, what the history panel shows, the developer section, the profile name,
 * and which App callback each control invokes. Everything here is a value
 * computation; the sidebar's chat list is fixed at mount and never changed.
 */
module ChatSidebar {
  import opened Wrappers
  import opened Blink
  import Text

  /** Milliseconds in a day, `1000 * 60 * 60 * 24`. */
  const DayMillis: int := 86400000

  /**
   * `Math.floor((now - timestamp) / 86400000)`: the whole days elapsed,
   * rounded down, so negative for a timestamp in the future.
   */
  function DiffDays(timestamp: int, now: int): (d: int)
    ensures d * DayMillis <= now - timestamp < (d + 1) * DayMillis
  {
    (now - timestamp) / DayMillis
  }

  /** A relative label, or the locale date of the timestamp (rendered outside the model). */
  datatype DateLabel = Relative(text: string) | LocaleDate(timestamp: int)

  const DaysAgoSuffix := " days ago"

  /** `formatDate`. */
  function FormatDate(timestamp: int, now: int): DateLabel {
    var diffDays := DiffDays(timestamp, now);
    if diffDays == 0 then Relative("Today")
    else if diffDays == 1 then Relative("Yesterday")
    else if diffDays < 7 then Relative(Text.IntToDecimal(diffDays) + DaysAgoSuffix)
    else LocaleDate(timestamp)
  }

  /**
   * The buckets of `formatDate` in terms of the elapsed time itself: "Today" for
   * less than one day, "Yesterday" for one to two days, "n days ago" (with n read
   * back from the text) for any other count below seven, including negative
   * counts, and the locale date from seven days on.
   */
  lemma FormatDateBuckets(timestamp: int, now: int)
    ensures var r := FormatDate(timestamp, now); var elapsed := now - timestamp;
      && (r == Relative("Today") <==> 0 <= elapsed < DayMillis)
      && (r == Relative("Yesterday") <==> DayMillis <= elapsed < 2 * DayMillis)
      && (r.LocaleDate? <==> 7 * DayMillis <= elapsed)
      && (r.LocaleDate? ==> r.timestamp == timestamp)
      && (r.Relative? && r != Relative("Today") && r != Relative("Yesterday") ==>
            var n := DiffDays(timestamp, now);
            && n < 7 && n != 0 && n != 1
            && r.text == Text.IntToDecimal(n) + DaysAgoSuffix)
  {
    var d := DiffDays(timestamp, now);
    var elapsed := now - timestamp;
    if d < 0 {
      assert elapsed < 0;
    } else if d >= 2 {
      assert elapsed >= 2 * DayMillis;
    }
    if d != 0 && d != 1 && d < 7 {
      var t := Text.IntToDecimal(d) + DaysAgoSuffix;
      assert t[0] == Text.IntToDecimal(d)[0];
      assert t != "Today" && t != "Yesterday" by {
        assert "Today"[0] == 'T' && "Yesterday"[0] == 'Y';
      }
    }
  }

  /** The number in an "n days ago" label reads back as the day count. */
  lemma DaysAgoReadsBack(n: int)
    ensures var t := Text.IntToDecimal(n) + DaysAgoSuffix;
      && |t| > |DaysAgoSuffix|
      && Text.IsIntText(t[..|t| - |DaysAgoSuffix|])
      && Text.IntValue(t[..|t| - |DaysAgoSuffix|]) == n
  {
    var t := Text.IntToDecimal(n) + DaysAgoSuffix;
    assert t[..|t| - |DaysAgoSuffix|] == Text.IntToDecimal(n);
    Text.IntRoundTrip(n);
  }

  /** A timestamp up to a day in the future is labelled "-1 days ago". */
  lemma FutureTimestampIsMinusOneDay(timestamp: int, now: int)
    requires now < timestamp <= now + DayMillis
    ensures FormatDate(timestamp, now) == Relative("-1 days ago")
  {
    assert DiffDays(timestamp, now) == -1;
    assert Text.NatToDecimal(1) == "1";
  }

  /** The three chats the sidebar is mounted with, stamped one, two and three days before `mounted`. */
  function InitialChats(userId: Option<string>, mounted: int): seq<Chat> {
    [ Chat("1", "HR Policy Questions", [], userId, mounted - DayMillis, mounted - DayMillis),
      Chat("2", "SHRM Certification Help", [], userId, mounted - 2 * DayMillis, mounted - 2 * DayMillis),
      Chat("3", "Employee Relations", [], userId, mounted - 3 * DayMillis, mounted - 3 * DayMillis) ]
  }

  /** Rendered within a day of mounting, the stock chats read "Yesterday", "2 days ago", "3 days ago". */
  lemma InitialChatLabels(userId: Option<string>, mounted: int, now: int)
    requires mounted <= now < mounted + DayMillis
    ensures var chats := InitialChats(userId, mounted);
      && FormatDate(chats[0].updatedAt, now) == Relative("Yesterday")
      && FormatDate(chats[1].updatedAt, now) == Relative("2 days ago")
      && FormatDate(chats[2].updatedAt, now) == Relative("3 days ago")
  {
    var chats := InitialChats(userId, mounted);
    assert DiffDays(chats[0].updatedAt, now) == 1;
    assert DiffDays(chats[1].updatedAt, now) == 2;
    assert DiffDays(chats[2].updatedAt, now) == 3;
    assert Text.NatToDecimal(2) == "2" && Text.NatToDecimal(3) == "3";
  }

  // ---------------------------------------------------------------------------
  // The history panel

  /** `currentChatId === chat.id`; an absent id never matches. */
  predicate IsHighlighted(chat: Chat, currentChatId: Option<string>) {
    currentChatId == Some(chat.id)
  }

  /** One button of the chat list. */
  datatype Entry = Entry(chatId: string, title: string, dateLabel: DateLabel, highlighted: bool)

  /** What the history panel shows. */
  datatype History = SignInPrompt | NoChats | ChatList(entries: seq<Entry>)

  /** One entry per chat, in order, each labelled with its relative date and highlighted iff current. */
  function Entries(chats: seq<Chat>, currentChatId: Option<string>, now: int): (es: seq<Entry>)
    ensures |es| == |chats|
    ensures forall i :: 0 <= i < |chats| ==>
      es[i] == Entry(chats[i].id, chats[i].title, FormatDate(chats[i].updatedAt, now), IsHighlighted(chats[i], currentChatId))
  {
    if chats == [] then []
    else
      var c := chats[0];
      [Entry(c.id, c.title, FormatDate(c.updatedAt, now), IsHighlighted(c, currentChatId))]
        + Entries(chats[1..], currentChatId, now)
  }

  /**
   * The history panel: a sign-in prompt without a user, "No chats yet" for a user
   * with an empty list, and otherwise one entry per chat.
   */
  function HistoryView(user: Option<User>, chats: seq<Chat>, currentChatId: Option<string>, now: int): (v: History)
    ensures v.SignInPrompt? <==> user.None?
    ensures v.NoChats? <==> user.Some? && chats == []
    ensures v.ChatList? ==>
      && |v.entries| == |chats|
      && forall i :: 0 <= i < |chats| ==>
           v.entries[i].chatId == chats[i].id && (v.entries[i].highlighted <==> currentChatId == Some(chats[i].id))
  {
    if user.None? then SignInPrompt
    else if |chats| > 0 then ChatList(Entries(chats, currentChatId, now))
    else NoChats
  }

  /** When chat ids are distinct, at most one entry of the list is highlighted. */
  lemma AtMostOneHighlighted(user: Option<User>, chats: seq<Chat>, currentChatId: Option<string>, now: int)
    requires forall i, j :: 0 <= i < j < |chats| ==> chats[i].id != chats[j].id
    ensures var v := HistoryView(user, chats, currentChatId, now);
      v.ChatList? ==>
        forall i, j ::
          (0 <= i < |v.entries| && 0 <= j < |v.entries| && v.entries[i].highlighted && v.entries[j].highlighted) ==> i == j
  {
    var v := HistoryView(user, chats, currentChatId, now);
    if v.ChatList? {
      forall i, j | 0 <= i < |v.entries| && 0 <= j < |v.entries| && v.entries[i].highlighted && v.entries[j].highlighted
        ensures i == j
      {
        assert chats[i].id == currentChatId.value == chats[j].id;
      }
    }
  }

  // ---------------------------------------------------------------------------
  // Other visibility rules

  /** `user?.badges.includes('developer')`. */
  predicate ShowDeveloperTools(user: Option<User>) {
    user.Some? && "developer" in user.value.badges
  }

  /**
   * The profile name: a non-empty display name, otherwise the email's text before
   * the first '@'.
   */
  function ProfileName(u: User): (r: string)
    ensures u.displayName.Some? && u.displayName.value != "" ==> r == u.displayName.value
    ensures u.displayName.None? || u.displayName.value == "" ==> r == Text.LocalPart(u.email)
  {
    match u.displayName
    case Some(n) => if n != "" then n else Text.LocalPart(u.email)
    case None => Text.LocalPart(u.email)
  }

  // ---------------------------------------------------------------------------
  // Callbacks

  /** The App callback a sidebar control invokes. */
  datatype Action = NewChat | SelectChat(chatId: string) | DeleteChat(chatId: string) | AuthRequired

  /**
   * `handleQuickAction`: every label starts a new chat; the prompt table it
   * builds is never used, so the label does not matter.
   */
  function QuickAction(actionLabel: string): (a: Action)
    ensures a == NewChat
  {
    NewChat
  }

  /** Clicking a chat in the list selects it. */
  function ChatClicked(chat: Chat): (a: Action)
    ensures a.SelectChat? && a.chatId == chat.id
  {
    SelectChat(chat.id)
  }
}
