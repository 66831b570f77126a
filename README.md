# Super AI chat front-end: a verified model of its state logic

The application is a client-side chat page with a simulated assistant, a colour-theme
provider, a help page with a searchable FAQ and a settings page. Apart from markup, its logic
is a handful of state transitions over lists, strings and records. This project models them
in Dafny and proves what they promise:

- **Chat page** (`chat.dfy`, module `Chat`). The conversation store is the class
  `ChatPage`. Its fields are the component's state: the conversations, the active id, the
  search term, the draft, the typing flag and the delete dialog. Each handler is a method that
  changes the fields step by step, like the source. Each method's `ensures` ties the new
  state to a transition function (`AfterSend`, `AfterReply`, `AfterConfirmDelete`,
  `AfterCancelDelete`) on a `ChatState` snapshot. The lemmas state the promised properties
  about those functions. The 2-second timer of a send is the separate method `Reply`. It
  receives a `PendingReply` holding what the timer's closure captured: the id that was active
  at send time and the user's text.
- **Theme provider** (`theme.dfy`, module `Theme`). `ThemeProvider` has three fields: the
  theme, the browser storage as a `map`, and the root element's class list as a `seq`.
  `setTheme` and `toggleTheme` write through to storage. `Apply` removes `light`/`dark` and
  then adds the mode. `SyncRoot` is the effect that resolves `system` against the
  colour-scheme preference.
- **Help page** (`help.dfy`, module `Help`). The order-preserving FAQ filter and the "No
  results" condition.
- **Settings page** (`settings.dfy`, module `Settings`). The keyed record update and the
  avatar initials. The initials are modelled through `split(' ')` and are proved equal to an
  independent definition: the first letter of each word.
- Shared helpers: `Options` (the `Option` type); `Seqs` (`Array.prototype.filter` and
  subsequences); `Text` (ASCII `toLowerCase`, `includes`, and `trim` with JavaScript's set of
  whitespace characters).

JavaScript truthiness is written out where the source relies on it:
- `if (activeConversation)` and `if (conversationToDelete)` test for "not null and not
  empty" (`Chat.IsSet`).
- The deletion notice falls back to `'Conversation'` when the title is empty, as well as when
  the conversation is missing.
- The stored theme falls back to the default when it is absent or empty.

The stored theme is cast to the theme type without a check, so in the model the theme is any
string. `NextTheme` sends every value other than `system` and `light` to `system`.

Details of the code the model keeps:
- The title is the first 30 characters of the untrimmed draft followed by three ASCII dots.
- The composer's hints (web/src/pages/Chat.tsx:446 and :485-487) name Enter and Cmd+Enter as
  sending and Shift+Enter as a new line. The handler also sends on Ctrl+Enter and on
  Ctrl/Cmd+Shift+Enter.
- Ids are clock readings and are not guaranteed unique. The user message and a new
  conversation each read the clock (web/src/pages/Chat.tsx:114 and :128), so `AfterSend` and
  `Send` take two ids. The model claims no uniqueness, and the filters keep every copy of a
  repeated conversation.
- A reply whose send had no active conversation goes to whatever conversation is first when
  the timer fires (`Chat.ReplyFollowsListHead`).

The table below lists the members whose contracts state the properties. They are stated
about these definitions, which carry no contract of their own:
- `Chat.AfterSend`, `Chat.AfterReply`, `Chat.AfterConfirmDelete` and `Chat.AfterCancelDelete`
  (web/src/pages/Chat.tsx:110-163 and :89-108).
- `Chat.ShowAvatar` and `Chat.IsLastInGroup` (web/src/pages/Chat.tsx:315-317).
- `Theme.InitialTheme` (web/src/hooks/useTheme.tsx:30).
- `Help.ShowsNoResults` (web/src/pages/Help.tsx:146).
- `Settings.Initials` (web/src/pages/Settings.tsx:61).

## Model

| member | source | states |
|---|---|---|
| `Chat.Title` | web/src/pages/Chat.tsx:129 | a draft of at most 30 characters is the title verbatim; a longer one gives its first 30 characters followed by "..."; the title never exceeds 33 characters |
| `Chat.ReplyQuotesUserText` | web/src/pages/Chat.tsx:145 | the simulated reply contains the user's text verbatim between double quotes |
| `Chat.AppendToId` | web/src/pages/Chat.tsx:121-125 | the list keeps its length, order, ids and titles; each conversation with the id gets the message appended at the end; every other conversation is unchanged |
| `Chat.AppendAtFirst` | web/src/pages/Chat.tsx:157-161 | only the conversation at index 0 gets the message at the end; the others and the length are unchanged; an empty list stays empty |
| `Chat.Find` | web/src/pages/Chat.tsx:91 | a result has the id and is in the list; no result exactly when no conversation has the id |
| `Chat.FindReturnsFirst` | web/src/pages/Chat.tsx:177 | `find` returns the first conversation carrying the id |
| `Chat.Current` | web/src/pages/Chat.tsx:177 | no active id gives no conversation; otherwise a conversation is found exactly when one has the active id, and it has that id |
| `Chat.FilteredConversations` | web/src/pages/Chat.tsx:178-180 | an order-preserving subsequence holding exactly the conversations whose lower-cased title includes the lower-cased term, each matching one as many times as in the list |
| `Chat.EmptyTermListsAll` | web/src/pages/Chat.tsx:178-180 | an empty search term lists the whole list, in order |
| `Chat.TitleSearchIsCaseInsensitive` | web/src/pages/Chat.tsx:179 | "Hello World" is found by "hello", "WORLD" and "lo wo", not by "xyz" |
| `Chat.RemoveId` | web/src/pages/Chat.tsx:92 | an order-preserving subsequence keeping exactly the conversations whose id differs, each as many times as in the list; no conversation with the id remains |
| `Chat.DeletedTitle` | web/src/pages/Chat.tsx:91 | never empty; the title of the first conversation with the id when that title is non-empty; "Conversation" when that title is empty or no conversation has the id |
| `Chat.SendsOnKeyPress` | web/src/pages/Chat.tsx:166-175 | a key press sends at most once, and sends exactly when the key is Enter and Shift is not held or Ctrl/Meta is |
| `Chat.GroupEndPrecedesGroupStart` | web/src/pages/Chat.tsx:315-317 | a message is the last of its group exactly when the next message shows an avatar |
| `Chat.AvatarsMatchGroupEnds` | web/src/pages/Chat.tsx:315-317 | the number of messages showing an avatar equals the number of messages ending a group |
| `Chat.SendBlankIsNoOp` | web/src/pages/Chat.tsx:111 | sending an empty or whitespace-only draft changes no field and schedules no reply |
| `Chat.SendSchedulesReply` | web/src/pages/Chat.tsx:137-141 | a send clears the draft, sets the typing flag and schedules one reply carrying the user text and the id active at send time |
| `Chat.SendWithoutActiveCreatesConversation` | web/src/pages/Chat.tsx:126-134 | with no active conversation the list grows by one; the new conversation is first, has the conversation id, the derived title and exactly the user's message under the message id, and becomes active; the rest of the list follows unchanged |
| `Chat.SendToActiveAppends` | web/src/pages/Chat.tsx:120-125 | with an active conversation the list keeps its length, order, ids and titles; conversations with the active id get the message at the end; all others are unchanged |
| `Chat.ReplyAppendsOneAssistantMessage` | web/src/pages/Chat.tsx:141-163 | the reply clears the typing flag and appends exactly one assistant message quoting the user's text, to the conversations with the captured id, or to index 0 when none was captured |
| `Chat.ReplyFollowsListHead` | web/src/pages/Chat.tsx:156-161 | when a second chat is started and sent before the first reply fires, that reply lands in the newer conversation and the first conversation gets none |
| `Chat.ConfirmDeleteRemoves` | web/src/pages/Chat.tsx:89-103 | removes every conversation with the pending id and keeps the rest in order, with their multiplicities; clears the active id exactly when it was that id; the notice names the pre-deletion title or "Conversation"; the dialog is closed |
| `Chat.ConfirmWithoutPendingOnlyCloses` | web/src/pages/Chat.tsx:89-103 | with no pending id, confirming only closes the dialog and shows no notice |
| `Chat.CancelDeleteKeepsStore` | web/src/pages/Chat.tsx:105-108 | cancelling closes the dialog and forgets the pending id; conversations, active id, draft and typing flag are unchanged |
| `Chat.SendKeepsConsistent` | web/src/pages/Chat.tsx:110-138 | after a send, ids are still non-empty and the active id still names a conversation |
| `Chat.ReplyKeepsConsistent` | web/src/pages/Chat.tsx:141-163 | the reply step keeps ids non-empty and the active id resolvable |
| `Chat.ConfirmDeleteKeepsConsistent` | web/src/pages/Chat.tsx:89-103 | after a deletion the active id still names a conversation, or has been cleared by the same step |
| `Chat.ChatPage.constructor` | web/src/pages/Chat.tsx:37-48 | the initial state: no conversations, no active id, empty draft and search, not typing, dialog closed |
| `Chat.ChatPage.Shown` | web/src/pages/Chat.tsx:236 | the sidebar lists, in order and with their multiplicities, exactly the conversations whose lower-cased title includes the lower-cased search term |
| `Chat.ChatPage.SetDraft` | web/src/pages/Chat.tsx:448 | only the draft changes |
| `Chat.ChatPage.SetSearchTerm` | web/src/pages/Chat.tsx:227 | only the search term changes |
| `Chat.ChatPage.StartNewChat` | web/src/pages/Chat.tsx:214 | only the active id changes, to none |
| `Chat.ChatPage.SelectShown` | web/src/pages/Chat.tsx:236-239 | the clicked listed conversation becomes active; nothing else changes |
| `Chat.ChatPage.RequestDelete` | web/src/pages/Chat.tsx:84-87 | records the pending id and opens the dialog; nothing else changes |
| `Chat.ChatPage.Send` | web/src/pages/Chat.tsx:110-138 | the new state and the scheduled reply are those of `AfterSend`; the invariant is kept |
| `Chat.ChatPage.Reply` | web/src/pages/Chat.tsx:141-163 | the new state is that of `AfterReply` for the captured id and text; the invariant is kept |
| `Chat.ChatPage.HandleKeyPress` | web/src/pages/Chat.tsx:166-175 | a key press that does not send changes nothing; one that sends has exactly the effect of one send |
| `Chat.ChatPage.ConfirmDelete` | web/src/pages/Chat.tsx:89-103 | the new state and the notice are those of `AfterConfirmDelete`; the invariant is kept |
| `Chat.ChatPage.CancelDelete` | web/src/pages/Chat.tsx:105-108 | the new state is that of `AfterCancelDelete` |
| `Text.TrimEmptyIffBlank` | web/src/pages/Chat.tsx:111 | `trim()` yields the empty string exactly when every character is whitespace |
| `Theme.StoredTheme` | web/src/hooks/useTheme.tsx:30 | the storage lookup yields a value exactly when the key is stored, and that value is the stored one |
| `Theme.NextTheme` | web/src/hooks/useTheme.tsx:58 | the next theme is one of the three themes and differs from the current one; a value outside the three goes to `system` |
| `Theme.ToggleCycles` | web/src/hooks/useTheme.tsx:58 | the toggle turns system -> light -> dark -> system, so three toggles from any theme return to it after visiting the other two |
| `Theme.ResolvedMode` | web/src/hooks/useTheme.tsx:40-48 | the applied mode is dark exactly for `dark`, or for `system` when the dark query matches; light symmetrically; any other theme is applied as itself |
| `Theme.RemoveModes` | web/src/hooks/useTheme.tsx:36 | keeps, in order, exactly the classes other than `light` and `dark` |
| `Theme.AddClass` | web/src/hooks/useTheme.tsx:37 | the class is present afterwards; no other class appears or disappears; existing order is kept |
| `Theme.ApplyMode` | web/src/hooks/useTheme.tsx:35-38 | the applied class is present, the other mode is absent, and every unrelated class is present exactly when it was before |
| `Theme.ApplyLeavesOneMode` | web/src/hooks/useTheme.tsx:35-38 | applying `light` or `dark` leaves exactly one of the two on the root |
| `Theme.ApplyIdempotent` | web/src/hooks/useTheme.tsx:35-38 | applying the same mode twice gives the same class list as applying it once |
| `Theme.StoredThemeSurvivesReload` | web/src/hooks/useTheme.tsx:29-31 | a theme a setter stored is the theme a new provider starts with |
| `Theme.UnsetStorageGivesDefault` | web/src/hooks/useTheme.tsx:26-31 | with nothing or an empty string stored, the provider starts in its default |
| `Theme.ThemeProvider.constructor` | web/src/hooks/useTheme.tsx:24-31 | the initial theme is the stored value when non-empty, otherwise `defaultTheme`, itself `system` by default |
| `Theme.ThemeProvider.SetTheme` | web/src/hooks/useTheme.tsx:53-56 | storage maps the key to the new theme, the theme is the new one, and the stored value equals the theme |
| `Theme.ThemeProvider.ToggleTheme` | web/src/hooks/useTheme.tsx:57-61 | the theme advances by `NextTheme` and is written to storage, so the stored value equals the theme |
| `Theme.ThemeProvider.Apply` | web/src/hooks/useTheme.tsx:35-38 | the class list becomes `ApplyMode` of the old one; theme and storage are unchanged |
| `Theme.ThemeProvider.SyncRoot` | web/src/hooks/useTheme.tsx:33-49 | the class list becomes `ApplyMode` of the old one for the resolved mode |
| `Help.FilteredFaqs` | web/src/pages/Help.tsx:78-81 | an order-preserving subsequence of the FAQs holding exactly those whose lower-cased question or answer includes the lower-cased query, each as many times as in the list |
| `Help.EmptyQueryKeepsAll` | web/src/pages/Help.tsx:78-81 | an empty query keeps every FAQ, in order |
| `Help.NarrowingQueryNarrowsResult` | web/src/pages/Help.tsx:78-81 | when the new query contains the old one, the new result is a subsequence of the old result |
| `Help.NoResultsIffNothingMatches` | web/src/pages/Help.tsx:146 | on a non-empty FAQ list, the "No results" notice shows exactly when no FAQ matches the query |
| `Settings.WithSetting` | web/src/pages/Settings.tsx:25-30 | the key maps to the new value, added if absent; every other key keeps its value; no other key appears |
| `Settings.ChangeIsIdempotent` | web/src/pages/Settings.tsx:25-30 | making the same change twice equals making it once |
| `Settings.LaterChangeWins` | web/src/pages/Settings.tsx:25-30 | of two changes to one key, the later value wins |
| `Settings.ChangesToDifferentKeysCommute` | web/src/pages/Settings.tsx:25-30 | changes to different keys commute |
| `Settings.SplitOnSpace` | web/src/pages/Settings.tsx:61 | `split(' ')` yields at least one piece and no piece contains a space |
| `Settings.SplitJoinRoundTrip` | web/src/pages/Settings.tsx:61 | joining the pieces with single spaces gives the name back |
| `Settings.FirstCharsOfWords` | web/src/pages/Settings.tsx:61 | the mapped-and-joined result has one character per non-empty piece, its first character, in order; empty pieces contribute nothing |
| `Settings.InitialsAtMostOnePerPiece` | web/src/pages/Settings.tsx:61 | there are never more initials than pieces |
| `Settings.InitialsAreWordStarts` | web/src/pages/Settings.tsx:61 | the initials are exactly the non-space characters at the start of the name or after a space |
| `Settings.InitialsOfDefaultName` | web/src/pages/Settings.tsx:16 | the default name "John Doe" gives "JD" |
| `Settings.SettingsPage.constructor` | web/src/pages/Settings.tsx:15-23 | the initial record holds the seven default settings |
| `Settings.SettingsPage.HandleSettingChange` | web/src/pages/Settings.tsx:25-30 | the record becomes `WithSetting` of the old record |
| `Settings.SettingsPage.AvatarInitials` | web/src/pages/Settings.tsx:61 | the avatar shows the first letter of each word of the name |

## Left out

- Markup, styling, the sidebar and mobile layout, the resize listener, the textarea
  auto-height, `scrollIntoView`, `preventDefault` and the voice-recording toggle: rendering
  and browser plumbing with no state logic.
- The Send button is disabled while a reply is pending (web/src/pages/Chat.tsx:473), but the
  Enter key is not, so `Send` has no precondition on the typing flag. The button's disabled
  state is a rendering detail.
- Message timestamps and `updatedAt`: they come from the clock, and `formatDate` also depends
  on the time zone and the locale. The message and conversation records carry no time.
- Timing and batching: the 2-second delay and React's asynchronous state batching are not
  modelled. `Reply` is a separate step that any number of other steps may precede. The title
  lookup for the deletion notice reads the same list that is then filtered, as in a
  sequential run.
- Id generation with `Date.now()`: ids are arguments. `Valid` asks only that they are
  non-empty.
- Text semantics:
  - `toLowerCase` covers ASCII letters only.
  - `slice(0, 30)` and `n[0]` count characters, not UTF-16 code units.
  - Strings are character sequences with no Unicode normalisation.
- The notification sink: `ConfirmDelete` returns the notice instead of displaying it.
  `handleSave`'s `console.log` is left out.
- Browser storage and `matchMedia`: storage is a map field, and the dark preference is an
  argument of `SyncRoot`. The media-query change listener is left out.
- The `useTheme` hook is left out. It only reads the context.
- The six FAQ entries: the filter is modelled and proved for every FAQ list, and the
  constant texts are not reproduced.
- Settings values are typed `any` in the source. The model has text and flag values, the
  kinds the page writes. `AvatarInitials` requires the name to be text, because the page only
  ever writes the input's string there.
- Theme.ApplyLeavesOneMode: stated for `light` and `dark`, the two values `apply`'s type
  admits. A stored theme outside the three themes passes the unchecked cast
  (web/src/hooks/useTheme.tsx:30). If it has no whitespace, it is added as a class by itself
  and leaves neither mode on the root.
- Theme.ApplyMode: a stored value containing ASCII whitespace makes `classList.add` throw
  (web/src/hooks/useTheme.tsx:37, reached from :47) after `remove('light', 'dark')` has run.
  The model does not capture that error path: it adds the value as one class.
- Landing, Navbar and Profile pages: static content and routing. Profile's initials repeat
  the Settings expression.
