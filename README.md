# Streamify: a Dafny model of its client-side bookkeeping and CORS policy

Streamify is a language-exchange application. Users befriend each other,
chat and make video calls. Chat and video run on a third-party service.
The application's own logic around that service is small but stateful.
This project models it in Dafny and proves properties about it:

- **Unread ledger** (`HomePage`): a map from a friend's id to an unread
  count. It is seeded once from the counts the chat service reports,
  friend by friend, with a per-friend fallback to 0. After that,
  "message.new" events from others add 1 to the sender's entry. A
  "message.read" event by the user zeroes every friend whose conversation
  it names.
- **Conversation ids** (`Channels`): the two user ids sorted and joined
  with "-". Both users derive the same id.
- **Message ticks** (`MessageStatus`): each of one's own messages shows
  read, delivered or sent.
- **CORS policy** (`Cors`): the backend's allow-list and its preview rule.
- **Smaller pieces**: the outgoing friend-request set and its button
  (`NewLearnersPage`), the chat page's channel, notification rule and
  call link (`ChatPage`), the channel header's choice of the other member
  (`ChannelHeader`), the language-flag lookup (`FriendCard`), and the
  theme store with its persisted dark-mode flag (`ThemeStore`, a class).

The chat service is abstract. Each friend's reported unread count is a
function `fetch` from a conversation id to an outcome. The service's events
are a sequence of `ChatEvent` values. Local storage is a `map<string, string>`.
Timestamps are integers. `Wrappers` holds `Option`, which stands for
JavaScript's `undefined`. `Text` holds string order, substring search and
ASCII lower-casing.

Ids are not checked for the separator "-". `Channels.DashedIdsCollide`
shows that two different pairs can share an id, and
`Channels.ChannelIdInjective` proves that ids without "-" never collide.

The home page resets a count when a "message.read" event's `channel_id`
field equals "messaging:" followed by the conversation id. The model takes
that field as the service delivers it (`MessageRead.eventChannelId`).
`HomePage.Walkthrough` assumes the service puts the "type:id" form in
`channel_id`. If the service puts the bare id there, no read event ever
resets a count.

## Model

| member | source | states |
|---|---|---|
| Channels.ChannelId | frontend/src/pages/HomePage.jsx:92 | the id is the two ids in lexicographic order with "-" between them |
| Channels.ChannelIdSymmetric | frontend/src/pages/ChatPage.jsx:145-149 | both argument orders give the same id |
| Channels.ChannelIdExample | frontend/src/pages/ChatPage.jsx:145 | "u1" and "u2" give "u1-u2" in either order |
| Channels.ChannelIdInjective | frontend/src/pages/HomePage.jsx:126-128 | for a fixed user and dash-free ids, different peers get different ids |
| Channels.DashedIdsCollide | frontend/src/pages/HomePage.jsx:127 | ids are not validated: ("a-b","c") and ("a","b-c") share the id "a-b-c" |
| Text.LexLe | frontend/src/pages/HomePage.jsx:92 | the string order that the default `sort()` applies to the two ids: character by character, a prefix first |
| Text.LexLeMeaning | frontend/src/pages/ChatPage.jsx:145 | `a` sorts no later than `b` iff `a` is a prefix of `b` or, at the first position where they differ, `a` has the smaller character |
| Text.Lower | frontend/src/components/FriendCard.jsx:45 | `toLowerCase` keeps the length and lower-cases each ASCII capital, leaving every other character as it is |
| Text.Contains | backend/src/server.js:33 | `includes` is true iff the needle occurs at some position of the string |
| HomePage.UpdateUnreadCounts | frontend/src/pages/HomePage.jsx:88-107 | the loop fills the counts friend by friend and yields exactly the seeded ledger |
| HomePage.Seeded | frontend/src/pages/HomePage.jsx:88-106 | the reference for `updateUnreadCounts`: friends in order, each entry (over)written with that conversation's count or 0; its keys and values are stated by SeededShape |
| HomePage.SeededShape | frontend/src/pages/HomePage.jsx:89-99 | after seeding, the keys are exactly the friends; each value is the reported count, or 0 when none was reported or the watch failed |
| HomePage.FailureIsIsolated | frontend/src/pages/HomePage.jsx:93-103 | a failed fetch zeroes only its friend and keeps the keys; every friend with another conversation keeps its count |
| HomePage.FailureSparesOtherFriends | frontend/src/pages/HomePage.jsx:91-104 | with dash-free ids, a failed fetch for one friend leaves every other friend's count as it was |
| HomePage.OnMessageNew | frontend/src/pages/HomePage.jsx:112-120 | a message from anyone but self raises the sender's entry by exactly 1, a missing entry counting as 0, with no friend check; other entries are unchanged; a message from self changes nothing |
| HomePage.ResetMatching | frontend/src/pages/HomePage.jsx:126-134 | visiting the friends in order zeroes exactly those whose `"messaging:"` + id equals the event's channel id; the keys gain exactly those friends and every other entry is unchanged |
| HomePage.OnMessageRead | frontend/src/pages/HomePage.jsx:123-136 | a read by self zeroes exactly the matching friends and leaves the rest; a read by anyone else changes nothing |
| HomePage.NewMessagesAddUp | frontend/src/pages/HomePage.jsx:114-118 | n new messages from a peer other than self raise that peer's count by exactly n; the keys gain only that peer (none when n is 0); other entries are unchanged |
| HomePage.OwnMessagesIgnored | frontend/src/pages/HomePage.jsx:114 | any number of messages sent by self leave the ledger as it was |
| HomePage.ReadClearsThatFriend | frontend/src/pages/HomePage.jsx:124-133 | self reading a friend's conversation zeroes that friend whatever the count was |
| HomePage.ReadSparesOtherFriends | frontend/src/pages/HomePage.jsx:126-132 | with dash-free ids, self reading one friend's conversation leaves every other id's count alone |
| HomePage.Session | frontend/src/pages/HomePage.jsx:66-143 | with no token, no user, no friends or no connection, the ledger stays empty; otherwise it starts with exactly the friends' keys |
| HomePage.DisplayedCounts | frontend/src/pages/HomePage.jsx:182 | the count a card gets is 0 while tracking is off, and the service's count for that friend right after seeding |
| HomePage.Walkthrough | frontend/src/pages/HomePage.jsx:89-133 | "u1" with friend "u2" and 3 unread: 3, then 4 after a message from "u2", then 0 after "u1" reads "messaging:u1-u2" |
| HomePage.HomeOutgoingIds | frontend/src/pages/HomePage.jsx:55-63 | the home page's outgoing-id update, where data may be undefined, agrees with the new-learners page in every case; undefined data keeps the previous set |
| NewLearnersPage.RefreshOutgoingIds | frontend/src/pages/NewLearnersPage.jsx:32-40 | the effect's loop collects the recipient ids; state is replaced only when the list is non-empty |
| NewLearnersPage.OutgoingIdsAreRecipients | frontend/src/pages/NewLearnersPage.jsx:33-38 | for a non-empty list, an id is in the new set iff some request is addressed to it |
| NewLearnersPage.EmptyListKeepsIds | frontend/src/pages/NewLearnersPage.jsx:22-34 | no data (defaulted to `[]`) or an empty list leaves the previous set unchanged |
| NewLearnersPage.Button | frontend/src/pages/NewLearnersPage.jsx:75-145 | the button reads "Request Sent" iff the user's id is in the set; it is disabled iff the request was sent or a request is pending |
| ChatPage.OpenChannel | frontend/src/pages/ChatPage.jsx:145-153 | the channel is of type "messaging", its members are exactly [self, target], its id is the one the target would derive, and it is the conversation the unread ledger watches |
| ChatPage.BothPartiesOpenOneChannel | frontend/src/pages/ChatPage.jsx:145-153 | both users open the same channel id with the same two members |
| ChatPage.ShouldNotify | frontend/src/pages/ChatPage.jsx:162 | a desktop notification is shown iff the sender is not the signed-in user and the page is hidden; NotifiedMessagesAreCounted relates it to the ledger |
| ChatPage.NotifiedMessagesAreCounted | frontend/src/pages/ChatPage.jsx:158-163 | a notification fires only for someone else's message on a hidden page, and such a message is one the ledger counts; one's own messages neither notify nor count |
| ChatPage.HandleVideoCall | frontend/src/pages/ChatPage.jsx:187-197 | with no channel nothing is sent; otherwise the text is "I've started a video call. Join me here: " followed by origin + "/call/" + channel id |
| ChatPage.CallLinkRoundTrip | frontend/src/pages/ChatPage.jsx:189-193 | the channel id can be read back from the sent message |
| MessageStatus.AnyOtherRead | frontend/src/components/MessageStatus.jsx:8-11 | true iff some entry belongs to a user other than the author and has a last read at or after the creation time |
| MessageStatus.Status | frontend/src/components/MessageStatus.jsx:3-27 | no indicator for others' messages; exactly one of read, delivered or sent otherwise, with read > delivered > sent; read iff another user's last read is at or after creation; delivered iff status is "received" |
| MessageStatus.OwnEntryNeverCounts | frontend/src/components/MessageStatus.jsx:9 | adding the author's own read entry anywhere never changes the indicator |
| MessageStatus.NoReadMapIsUnread | frontend/src/components/MessageStatus.jsx:7 | a missing read map reads as empty: delivered or sent, never read |
| MessageStatus.ReadAtCreationCounts | frontend/src/components/MessageStatus.jsx:10 | a last read equal to the creation time counts as read (the comparison is non-strict) |
| MessageStatus.ReadIsStable | frontend/src/components/MessageStatus.jsx:8-11 | a read message stays read when more entries arrive |
| Cors.KeepTruthy | backend/src/server.js:24 | `.filter(Boolean)` keeps exactly the present, non-empty strings, and never lengthens the list |
| Cors.KeepTruthyKeepsOrder | backend/src/server.js:24 | filtering a concatenation concatenates the filtered parts, and one element is kept exactly when truthy, so the result lists the truthy strings in list order |
| Cors.AllowedOrigins | backend/src/server.js:19-24 | the list is the two fixed origins, then `FRONTEND_URL` only when it is set and non-empty |
| Cors.Decide | backend/src/server.js:28-37 | exactly one reply per request: allow iff the origin is missing or empty, is listed exactly, or contains both "streamify-video-calls" and ".vercel.app"; otherwise reject with "Not allowed by CORS" |
| Cors.ConfiguredOriginsAllowed | backend/src/server.js:19-34 | both fixed origins and a set `FRONTEND_URL` are allowed |
| Cors.EmptyFrontendUrlDropped | backend/src/server.js:23-24 | an empty `FRONTEND_URL` is the same as none |
| Cors.PreviewRuleIsSubstringMatch | backend/src/server.js:33 | any origin with the two names next to each other is allowed, whatever surrounds them, including hosts under another domain |
| Cors.DotlessUnlistedRejected | backend/src/server.js:33-37 | an unlisted origin without a dot, such as another localhost port, is rejected |
| ChannelHeader.FindOther | frontend/src/components/CustomChannelHeader.jsx:10-11 | none iff every member has the client's user id; otherwise the first member, in member order, whose user id differs |
| ChannelHeader.Header | frontend/src/components/CustomChannelHeader.jsx:10-39 | a peer is shown iff the chosen member has a user; the title is the name, or "User" when the name is empty or missing; the count is `member_count`, or 2 when it is 0 or missing |
| ChannelHeader.TwoPartyChannelShowsPeer | frontend/src/components/CustomChannelHeader.jsx:11-36 | in a channel of self and one peer, in either order, the header shows the peer, also when self has no user id |
| ChannelHeader.AloneShowsNoPeer | frontend/src/components/CustomChannelHeader.jsx:11-25 | a channel whose only members are self shows no avatar or title |
| FriendCard.LanguageFlag | frontend/src/components/FriendCard.jsx:42-58 | no flag for a missing or empty language or one with no code; otherwise src is "https://flagcdn.com/24x18/" + code + ".png" and alt is the lower-cased language + " flag" |
| FriendCard.CaseInsensitive | frontend/src/components/FriendCard.jsx:45-46 | names equal up to ASCII case get the same flag |
| FriendCard.FlagNamesItsCode | frontend/src/components/FriendCard.jsx:51-52 | the table's code can be read back from the image URL, and the alt text's language part is lower case |
| ThemeStore.StoredDarkMode | frontend/src/store/useThemeStore.js:5 | the flag a page load reads: true iff storage holds exactly "true" under "streamify-dark-mode"; PersistRoundTrip and OnlyExactTrueIsDark state its properties |
| ThemeStore.PersistRoundTrip | frontend/src/store/useThemeStore.js:5-15 | a stored `String(b)` is read back as b |
| ThemeStore.OnlyExactTrueIsDark | frontend/src/store/useThemeStore.js:5 | any stored text other than exactly "true" starts in light mode |
| ThemeStore.Store.constructor | frontend/src/store/useThemeStore.js:3-5 | the theme starts as "streamify"; dark mode starts on iff storage holds exactly "true" under "streamify-dark-mode" |
| ThemeStore.Store.SetTheme | frontend/src/store/useThemeStore.js:7-10 | the theme becomes "streamify" whatever the argument; nothing else changes |
| ThemeStore.Store.ToggleDarkMode | frontend/src/store/useThemeStore.js:12-18 | the flag is negated, so two toggles restore it; "true"/"false" matching the new flag is stored; the theme is unchanged; storage and flag stay consistent |

## Left out

- The chat and video service itself: connecting, watching channels, event delivery, sending messages and call handling. Its answers and events are inputs.
- Listener registration and removal, effect cleanup, and async ordering. These are lifecycle and concurrency concerns. Events are applied one at a time, in arrival order, after seeding completes.
- HomePage.Seeded: each conversation's reported count is a function of the conversation id, so watching the same channel twice gives the same answer. A network whose answers vary between calls is not modelled.
- Channels.ChannelId: JavaScript compares strings by UTF-16 code unit. The model compares Unicode code points. The two orders differ only for characters outside the Basic Multilingual Plane.
- Text.Lower: `toLowerCase` is modelled on ASCII letters only.
- FriendCard.LanguageFlag: the language table is a parameter. It lives in the constants file, which is not part of this model. Inherited object properties such as "constructor" are not modelled as table entries.
- MessageStatus.Status: dates are integer timestamps. Unparseable dates, whose comparisons are always false in JavaScript, are not modelled.
- ChannelHeader.Header: a `member_count` of NaN is not modelled. Only 0 and a missing value are falsy here.
- Rendering, styling, routing, toasts, browser notifications, sounds and `toLocaleTimeString` formatting.
- The database connection, middleware, routes and server start-up in server.js. These are I/O.
