# Fire Works AI chat front end: a verified model of its state logic

This project models the state logic of a single-page chat-assistant front end: the
message quota and the send / streaming state machine of the chat transcript component,
the top-level application state (signed-in user, current chat, modal flags), the email
sign-in dialog, the profile panel's record updates and usage figures, and the sidebar's
relative dates and visibility rules. Rendering and styling are not modelled.

Files and modules:

- `wrappers.dfy` (`Wrappers`): `Option`, used for TypeScript's optional and nullable values.
- `blink.dfy` (`Blink`): the shared records `User`, `Message`, `Chat` and `Plan`.
- `text.dfy` (`Text`): the JavaScript string operations the components use. These are
  `trim()`, `split('@')[0]` and integer-to-decimal rendering, each with a characterising
  contract or a round-trip lemma.
- `chat_interface.dfy` (`ChatInterface`): the quota rule. It also holds the pure step
  functions for each event (type, press send, chunk, stream completed, stream failed),
  `Run` over event sequences with the lemmas about whole exchanges, and the class
  `Session`. `Session` keeps the component's state in mutable fields, and each of its
  methods is proved to change them exactly as the matching step function says.
- `app.dfy` (`App`): the mapping from an auth-provider snapshot to a `User`. Also the class
  `AppState` with the handlers and the wiring of the children's callbacks.
- `auth_modal.dfy` (`AuthModal`): the email path's guard, the account it builds, the
  buttons' disabled state, and the class `Form`.
- `profile_settings.dfy` (`ProfileSettings`): the "only this field changes" record updates,
  the save-disabled rule, the usage figures, and the class `Editor`.
- `chat_sidebar.dfy` (`ChatSidebar`): day bucketing, the history panel, the developer
  section, the profile name and the sidebar's callbacks.

Modelling choices:

- Event handlers are atomic steps, taken in event order.
- Each `Date.now()` reading is a parameter (`idClock`, `stampClock`, `now`). An id built
  from a reading is its decimal rendering. Assistant ids are the reading plus one. Nothing
  here claims that ids are unique.
- The SDK's text stream is a sequence of `Chunk` events, ended by exactly one `Completed`
  or `Failed` event. The `Session` methods for these events require a send in flight,
  because the SDK delivers them only while one is in flight.
- The `Request` handed to the SDK carries the trimmed user text and the model name. Its
  `Prompt()` puts the fixed framing sentence in front of that text.
- The initial greeting's text is a constructor parameter. The stored message has id "1",
  the assistant role, and a timestamp one second before mount.

Two behaviours of the source are kept as they are, and each is stated by a lemma. First,
a timestamp up to one day in the future is labelled "-1 days ago"
(`ChatSidebar.FutureTimestampIsMinusOneDay`). Further ahead the label becomes "-2 days ago"
and so on, since every negative day count falls into the "n days ago" bucket
(`ChatSidebar.FormatDateBuckets`).
Second, for a user without a display name, "Save" is enabled before anything is edited,
and saving stores an empty name (`ProfileSettings.SavingUntouchedName`). A failed
generation still uses up a guest message (`ChatInterface.FailedExchange`). Also, a failed
generation leaves the partial text in `streamingMessage`, which is not cleared on that path.

The quota refusal branch of the send handler (src/components/ChatInterface.tsx:54-61) is
out of reach of the controls. The send button and the textarea (whose Enter key also calls
the handler) are both disabled whenever the quota refuses, and a hint is shown in their place
(lines 305, 327 and 336-343; `ChatInterface.RefusalOnlyBehindDisabledControls`). The lemmas
about refusals therefore describe the handler itself, called directly.

## Model

| member | source | states |
|---|---|---|
| `Text.Trim` | src/components/ChatInterface.tsx:52 | `trim()` gives the empty string exactly for an all-whitespace input. Its result neither starts nor ends with whitespace. A string whose ends are not whitespace is returned unchanged. |
| `Text.TrimCutsWhitespace` | src/components/ChatInterface.tsx:65 | `trim()` returns a contiguous slice of its input, and everything before and after that slice is whitespace. |
| `Text.TrimStart` | src/components/ChatInterface.tsx:65 | The result is the suffix of the input left after removing leading whitespace. Everything removed is whitespace. |
| `Text.TrimEnd` | src/components/ChatInterface.tsx:65 | The result is the prefix of the input left after removing trailing whitespace. Everything removed is whitespace. |
| `Text.LocalPart` | src/components/AuthModal.tsx:45 | `split('@')[0]` is a prefix of the text and contains no '@'. When it is shorter than the text, it is followed by an '@'. |
| `Text.LocalPartUnique` | src/components/AuthModal.tsx:45 | Any prefix without '@' that is the whole text or is followed by an '@' is exactly `split('@')[0]`, so the three facts above determine it. |
| `Text.NatToDecimal` | src/components/ChatInterface.tsx:64 | `toString()` of a clock reading is a non-empty string of digits with no leading zero. |
| `Text.DecimalRoundTrip` | src/components/ChatInterface.tsx:64 | Reading back the rendering of a number gives that number. |
| `Text.DecimalInjective` | src/components/ChatInterface.tsx:99 | Different clock readings render as different id strings. |
| `Text.IntToDecimal` | src/components/ChatSidebar.tsx:66 | An integer renders with a leading '-' exactly when it is negative; otherwise it starts with a digit. |
| `Text.IntRoundTrip` | src/components/ProfileSettings.tsx:150 | Reading back the rendering of an integer gives that integer. |
| `ChatInterface.QuotaMatchesDisplayedFigures` | src/components/ChatInterface.tsx:44-49 | A send is allowed exactly when `getMessageLimit` shows '∞' or `getCurrentCount` is below the limit it shows (lines 140-152). |
| `ChatInterface.GuestQuota` | src/components/ChatInterface.tsx:48 | A guest may send exactly while fewer than 3 messages have been counted. |
| `ChatInterface.UnlimitedNeverRefused` | src/components/ChatInterface.tsx:46 | A user with `maxMessages = -1` may always send, whatever the counts are. |
| `ChatInterface.SignedInIgnoresGuestCounter` | src/components/ChatInterface.tsx:45-47 | For a signed-in user the guest counter does not matter. The user may send exactly when `messageCount < maxMessages` or `maxMessages = -1`. |
| `ChatInterface.Step` | src/components/ChatInterface.tsx:71 | No event removes or rewrites a message: the transcript before an event is a prefix of the one after it. |
| `ChatInterface.IgnoredSendChangesNothing` | src/components/ChatInterface.tsx:52 | A press with blank input, or while a send is in flight, changes no state and signals nothing. |
| `ChatInterface.RefusedSendChangesNothing` | src/components/ChatInterface.tsx:54-61 | A call of the handler that the quota refuses changes no state. It asks for sign-in when there is no user, and for an upgrade otherwise. |
| `ChatInterface.AcceptedSend` | src/components/ChatInterface.tsx:63-95 | An accepted press appends exactly one user message with the trimmed input and `user?.id`. It clears the input, sets `isLoading`, and empties the streaming text and the accumulator. It counts one guest message exactly when there is no user, and requests a reply to the framed trimmed text with `gpt-4o-mini`. |
| `ChatInterface.SendButtonMatchesHandler` | src/components/ChatInterface.tsx:327 | The send button is enabled exactly when pressing it would dispatch a request. |
| `ChatInterface.RefusalOnlyBehindDisabledControls` | src/components/ChatInterface.tsx:305 | A call the quota refuses can only happen while both the send button (line 327) and the textarea are disabled. So the refusal at lines 54-61 cannot be reached from the controls. |
| `ChatInterface.MessagesOnlyGrow` | src/components/ChatInterface.tsx:71-116 | Over any sequence of events, the transcript is only ever appended to. |
| `ChatInterface.ChunksAccumulate` | src/components/ChatInterface.tsx:91-94 | Delivering chunks appends each of them, in order, to the accumulator and shows the accumulator as the streaming text. Nothing else changes. |
| `ChatInterface.Streaming` | src/components/ChatInterface.tsx:82-95 | Mid-stream, the streaming text equals the in-order concatenation of the chunks delivered so far. The send is still in flight, and the transcript holds only the new user message. |
| `ChatInterface.CompletedExchange` | src/components/ChatInterface.tsx:97-106 | A successful exchange appends exactly the user message and one assistant message that holds every chunk in order. Afterwards the streaming text is empty and `isLoading` is false. |
| `ChatInterface.FailedExchange` | src/components/ChatInterface.tsx:107-119 | A failed exchange appends exactly the user message and the fixed apology, however much text had streamed, so the partial text never enters the transcript. The guest message stays counted, `isLoading` is false, and the streaming text still holds the partial text. |
| `ChatInterface.ExchangeCounts` | src/components/ChatInterface.tsx:77-80 | An exchange the quota lets through adds two messages and ends with `isLoading` false. It counts one guest message exactly when there is no user. |
| `ChatInterface.GuestFourthSendAsksForSignIn` | src/components/ChatInterface.tsx:48-56 | After a guest's three exchanges, whatever their replies, the next call of the handler asks for sign-in and changes nothing. |
| `ChatInterface.FullFreePlanAsksForUpgrade` | src/components/ChatInterface.tsx:57-58 | For a user at 50 of 50 messages, the handler signals the upgrade flow, and the state is unchanged. |
| `ChatInterface.HelloIsAssembled` | src/components/ChatInterface.tsx:92-105 | With the chunks "Hel" and "lo", the reply stored in the transcript reads "Hello". |
| `ChatInterface.PartialReplyIsDiscarded` | src/components/ChatInterface.tsx:107-116 | With the chunk "Hel" and then an error, the transcript ends with the apology and not with "Hel". |
| `ChatInterface.Session.constructor` | src/components/ChatInterface.tsx:19-32 | The component starts with the greeting message, empty input and streaming text, no send in flight, and a guest counter of 0. |
| `ChatInterface.Session.SetInput` | src/components/ChatInterface.tsx:302 | Typing replaces the input and nothing else. |
| `ChatInterface.Session.Send` | src/components/ChatInterface.tsx:51-81 | The new state and the outcome are those of the send step. When a request is dispatched, the record of delivered chunks restarts empty. |
| `ChatInterface.Session.Chunk` | src/components/ChatInterface.tsx:91-94 | The new state is the chunk step's. The streaming text is the concatenation of all chunks delivered to this send. |
| `ChatInterface.Session.Complete` | src/components/ChatInterface.tsx:97-106 | Exactly one assistant message holding the concatenation of the delivered chunks is appended. The streaming text becomes empty and `isLoading` false. |
| `ChatInterface.Session.Fail` | src/components/ChatInterface.tsx:107-119 | Exactly one apology message is appended. `isLoading` becomes false, and the streaming text keeps the delivered chunks. |
| `App.ProviderDisplayName` | src/App.tsx:27 | The display name is never empty. It is the provider's non-empty name if there is one, else the email's non-empty text before the first '@', else "User". |
| `App.UserFromProvider` | src/App.tsx:22-34 | The user has the provider's id and avatar, and the email or "". It is on the free plan with no badges and 0 of 50 messages, so it may send straight away. |
| `App.SidebarShowsProviderName` | src/components/ChatSidebar.tsx:251 | For an account mapped from the provider, the sidebar shows the display name that `onAuthStateChanged` stored (src/App.tsx:27). |
| `App.SidebarShowsEmailLocalPart` | src/components/ChatSidebar.tsx:251 | For an account made by email sign-in, the sidebar shows the email's text before the first '@' (src/components/AuthModal.tsx:45). |
| `App.NewAccountsHaveNoDeveloperTools` | src/components/ChatSidebar.tsx:205 | Neither account builder hands out badges (src/App.tsx:30, src/components/AuthModal.tsx:48), so no account this app creates sees the developer section. |
| `App.OrElseFallsThroughOnEmpty` | src/App.tsx:26-27 | `x \|\| fallback` gives the fallback when the value is absent or empty, and the value otherwise. |
| `App.AppState.constructor` | src/App.tsx:13-17 | The app starts with no user, no current chat, both dialogs closed, and the auth state loading. |
| `App.AppState.OnAuthStateChanged` | src/App.tsx:22-39 | A snapshot with a user sets the mapped `User`. A snapshot without one sets no user. `isLoading` follows the snapshot. |
| `App.AppState.HandleLogin` | src/App.tsx:44-45 | The given user becomes the signed-in user, and nothing else changes. |
| `App.AppState.HandleLogout` | src/App.tsx:52-55 | Logout leaves no user and no current chat. |
| `App.AppState.HandleAuthRequired` | src/App.tsx:62-64 | Only `showAuth` changes, and it becomes true. |
| `App.AppState.HandleUpgradeRequired` | src/App.tsx:66-68 | Only `showPricing` changes, and it becomes true. |
| `App.AppState.SetShowAuth` | src/App.tsx:146 | The sign-in dialog's open-change callback sets `showAuth`. |
| `App.AppState.SetShowPricing` | src/App.tsx:152 | The pricing dialog's open-change callback sets `showPricing`. This includes the close at the end of its simulated payment (src/components/PricingModal.tsx:80-82). |
| `App.AppState.HandleNewChat` | src/App.tsx:70-71 | A new chat clears the current chat id. |
| `App.AppState.HandleSelectChat` | src/App.tsx:79-80 | Selecting a chat makes its id the current one. |
| `App.AppState.HandleDeleteChat` | src/App.tsx:87-90 | Deleting a chat clears the current chat id exactly when it is the deleted id, and leaves it unchanged otherwise. |
| `App.AppState.OnSidebar` | src/App.tsx:115-122 | Each sidebar callback has exactly its handler's effect on the current chat and the sign-in flag. |
| `App.AppState.OnSendOutcome` | src/App.tsx:135-139 | The chat component's refusal opens the sign-in dialog (no user) or the pricing dialog (quota used up). Other outcomes change neither flag. |
| `App.AppState.EmailAuth` | src/App.tsx:144-148 | An accepted email form signs in the account it built, closes the dialog, ends loading, and resets email, password and name to "". A rejected form leaves the user, the dialog flag and every form field unchanged. |
| `App.QuickActionStartsNewChat` | src/components/ChatSidebar.tsx:93-104 | Every quick action, whatever its label, leaves the app with no current chat. |
| `AuthModal.EmailUser` | src/components/AuthModal.tsx:42-51 | The account id is "email_" followed by the clock reading in decimal, and reads back as that reading. The email is kept exactly as entered. The display name is the entered name on sign-up, and the email's text before the first '@' on sign-in. The avatar is seeded by the email. The account starts on the free plan with no badges and 0 of 50 messages. |
| `AuthModal.EmailIdsFollowClock` | src/components/AuthModal.tsx:43 | Two accounts with the same id were made at the same clock reading. |
| `AuthModal.ButtonsMatchGuard` | src/components/AuthModal.tsx:133 | Each submit button is disabled exactly when the form is loading or its handler's guard would reject (sign-up button: line 205). |
| `AuthModal.Form.constructor` | src/components/AuthModal.tsx:18-21 | The form starts idle, with all fields empty. |
| `AuthModal.Form.SetEmail` | src/components/AuthModal.tsx:19 | Typing replaces the email field. |
| `AuthModal.Form.SetPassword` | src/components/AuthModal.tsx:20 | Typing replaces the password field. |
| `AuthModal.Form.SetName` | src/components/AuthModal.tsx:21 | Typing replaces the name field. |
| `AuthModal.Form.EmailAuth` | src/components/AuthModal.tsx:36-59 | With an empty email or password, or an empty name on sign-up, nothing changes and nobody signs in. Otherwise the built account is returned, loading ends, and email, password and name are all reset to "". |
| `ProfileSettings.InitialName` | src/components/ProfileSettings.tsx:17 | The name field starts as the display name, or as "" when there is none. |
| `ProfileSettings.Saved` | src/components/ProfileSettings.tsx:24 | A save gives a user identical to the input except for `displayName`, which becomes the edited text. |
| `ProfileSettings.WithNewAvatar` | src/components/ProfileSettings.tsx:30-33 | Avatar regeneration gives a user identical to the input except for `avatar`, which is seeded by the clock reading. |
| `ProfileSettings.SaveDisabledIffNoChange` | src/components/ProfileSettings.tsx:118 | When idle, "Save" is disabled exactly when saving would return the user unchanged. |
| `ProfileSettings.SavingUntouchedName` | src/components/ProfileSettings.tsx:17-24 | Saving the untouched field returns the same user when it has a display name. For a user without one, "Save" is enabled from the start, and saving stores "". |
| `ProfileSettings.UsageLimitText` | src/components/ProfileSettings.tsx:136 | The limit shows '∞' exactly when `maxMessages = -1`, and otherwise the number, which reads back as `maxMessages`. |
| `ProfileSettings.Remaining` | src/components/ProfileSettings.tsx:148-151 | There is no remaining count for an unlimited plan. Otherwise remaining plus used equals the limit. |
| `ProfileSettings.RemainingNotice` | src/components/ProfileSettings.tsx:148-151 | The Pro notice is shown exactly for an unlimited plan. Otherwise the line ends in " messages remaining this month". |
| `ProfileSettings.RemainingNoticeReadsBack` | src/components/ProfileSettings.tsx:150 | For a limited plan, the number in the notice reads back as the limit minus the messages used. |
| `ProfileSettings.RemainingAgreesWithQuota` | src/components/ProfileSettings.tsx:148-151 | The chat component lets a signed-in user send exactly when the panel shows no limit or a positive remaining count. |
| `ProfileSettings.Editor.constructor` | src/components/ProfileSettings.tsx:17-18 | The panel starts with the initial name and not loading. |
| `ProfileSettings.Editor.SetDisplayName` | src/components/ProfileSettings.tsx:95 | Typing replaces the edited name. |
| `ProfileSettings.Editor.Save` | src/components/ProfileSettings.tsx:20-28 | A save returns the user with the edited name. Loading ends, and the field keeps its text. |
| `ChatSidebar.DiffDays` | src/components/ChatSidebar.tsx:61-62 | The day count is the floor of the elapsed milliseconds divided by 86,400,000. |
| `ChatSidebar.FormatDateBuckets` | src/components/ChatSidebar.tsx:58-68 | "Today" is shown for less than a day elapsed, and "Yesterday" for one to two days. Any other count below 7, negative counts included, gives "n days ago". From 7 days on the timestamp goes to the locale date. |
| `ChatSidebar.DaysAgoReadsBack` | src/components/ChatSidebar.tsx:66 | The number in an "n days ago" label reads back as the day count. |
| `ChatSidebar.FutureTimestampIsMinusOneDay` | src/components/ChatSidebar.tsx:61-66 | A timestamp up to a day in the future is labelled "-1 days ago". |
| `ChatSidebar.InitialChatLabels` | src/components/ChatSidebar.tsx:31-56 | Rendered within a day of mounting, the three stock chats read "Yesterday", "2 days ago" and "3 days ago". |
| `ChatSidebar.Entries` | src/components/ChatSidebar.tsx:170-182 | There is one entry per chat, in order. Each carries the chat's id, its title and its relative date, and is highlighted exactly when its id is the current one. |
| `ChatSidebar.HistoryView` | src/components/ChatSidebar.tsx:168-199 | The chat list is shown only to a signed-in user. Without a user a sign-in prompt is shown. A user with no chats sees "No chats yet". |
| `ChatSidebar.AtMostOneHighlighted` | src/components/ChatSidebar.tsx:175 | When chat ids are distinct, at most one entry is highlighted. |
| `ChatSidebar.ProfileName` | src/components/ChatSidebar.tsx:251 | The profile name is the non-empty display name, else the email's text before the first '@'. |
| `ChatSidebar.QuickAction` | src/components/ChatSidebar.tsx:93-104 | Every quick action starts a new chat, whatever its label; the prompts table is never used. |
| `ChatSidebar.ChatClicked` | src/components/ChatSidebar.tsx:177 | Clicking a chat selects that chat's id. |

## Left out

- Rendering, styling and DOM effects are not modelled. This covers the JSX, the Tailwind
  classes, `scrollIntoView`, the textarea height, the clipboard, the avatars' first letters,
  and the "Messages Used" count shown beside the limit.
- The floating-point progress-bar width (src/components/ProfileSettings.tsx:143) is not
  modelled, because the model has no floating point.
- `toLocaleDateString` is a locale-dependent foreign call. The model returns
  `LocaleDate(timestamp)` in its place.
- The SDK itself is not modelled: `createClient`, `ai.streamText` internals, `auth.login`,
  `auth.logout` and the subscription mechanics. The stream is abstracted as chunk events, and
  each auth callback as one `AuthSnapshot`.
- The Google sign-in button (`handleGoogleAuth`, src/components/AuthModal.tsx:23-34) is not
  modelled. It calls the provider's login, closes the dialog, and sets and then clears
  `loading`. The provider's answer then arrives through `OnAuthStateChanged`.
- `setTimeout` delays are not modelled. The 1.5 s sign-in timer and the 1 s save timer run
  inside one atomic step, so the interval in which `loading` is true is not observable.
  `AuthModal.Form.EmailAuth` and `ProfileSettings.Editor.Save` set and clear it within that step.
- React's batching and scheduling are not modelled. Handlers are atomic and take effect in event order.
- Toasts, the `Toaster` and `console.error` are not modelled. None of them changes model state.
- The header (src/components/Header.tsx) is not modelled as a component. Its effects on the
  app state go through handlers that are modelled:
  - A profile save or a new avatar (`onUpdate={onLogin}`, line 150) and its own sign-in
    dialog (lines 139-143) both reach `App.AppState.HandleLogin`.
  - Its sign-out item (line 115) reaches `App.AppState.HandleLogout`.
  - Its profile, sign-in and pricing dialog flags are the header's own local state, and they
    are left out.
- The pricing dialog's plan list and its 2 s simulated payment are not modelled. The close at
  its end is `App.AppState.SetShowPricing(false)`.
- Clock readings are parameters, so id uniqueness is not claimed. JavaScript `Number`
  precision is not modelled: readings and counts are unbounded integers, which matches the
  source for every value below 2^53.
- `ChatInterface.UserMessage`: the id and the timestamp come from two separate
  `Date.now()` calls, so they are separate parameters (`idClock`, `stampClock`). The same
  holds for the assistant messages.
- `App.AppState.HandleLogin`: the welcome toast is not modelled.
- `onDeleteChat` is handed to the sidebar but no control calls it. `HandleDeleteChat` is
  modelled anyway, reachable through `OnSidebar`.
