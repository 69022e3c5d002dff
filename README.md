# Group-chat client: decision logic of the screens

This project models the decision logic inside the event handlers of a
group-chat web client. Users create password-protected chat groups that are
identified by a five-digit code, join groups by code and password, set up and
edit a profile, and send messages in a chat room. The client does all of this
by direct calls to a hosted document database. Here that database is an
in-memory store (`Store.Database`) with four collections, each a map from
document id to record: `groups`, `users`, `usernames` (the username
reservations) and `messages` (the messages of each group, in creation order).

Each core screen is one module. Its React state (`error`, `loading`,
`editing`, the inputs, the chat room's message list and profile cache) is a
class whose methods are the handlers. Each handler states in its `ensures`
what every outcome leaves in the screen's state and in the store. The pure
parts are functions, and lemmas prove their properties:

- trimming;
- username normalisation and the username pattern;
- the group code generator;
- the new member list;
- the profile-fetch selection;
- the display-name and avatar fallbacks.

Every remote call becomes a `Reply` parameter: it either completes (`Done`) or
rejects with a message (`Rejected(m)`). So each handler is proved for every
combination of successes and failures. The random draw in the code generator
is a parameter `r` in [0, 90000). So are the document id the database assigns
to a new group and the snapshot of a query.

- `Text`: whitespace, `trim`, ASCII `toLowerCase`/`toUpperCase`.
- `Store`: the records, `Reply`, `Option`, the `Database` class.
- `JoinGroup` (`JoinGroup.js`): the join rule.
- `CreateGroup` (`CreateGroup.js`): the code generator and group creation.
- `ProfileSetup` (`ProfileSetup.js`): username normalisation and profile creation.
- `Profile` (`Profile.js`): saving and cancelling a name edit.
- `ChatRoom` (`ChatRoom.js`): the message list, the profile cache, the owner flag, sending, and display fallbacks.

## Model

| member | source | states |
|---|---|---|
| `Text.Trim` | client/src/components/Profile.js:18-26 | `trim()`: the result is empty exactly when the input is all whitespace; otherwise it starts and ends with non-whitespace. It is the slice of the input that follows the leading whitespace, and only whitespace comes after it. |
| `Text.TrimIdempotent` | client/src/components/Profile.js:26-30 | Trimming a trimmed name changes nothing, so the saved name is already trimmed. |
| `Text.LowerChar` | client/src/components/ProfileSetup.js:17 | ASCII `toLowerCase` of one character: a capital becomes its own lower-case letter (code point + 32), and every other character is unchanged. |
| `Text.Lower` | client/src/components/ProfileSetup.js:17 | `toLowerCase` keeps the length, replaces each capital by its own lower-case letter and keeps every other character, so no upper-case letter is left. |
| `Text.UpperChar` | client/src/components/ChatRoom.js:221 | ASCII `toUpperCase` of one character: the result is never lower-case, and lower-casing it gives back the letter. |
| `JoinGroup.IsCodeQuery` | client/src/components/JoinGroup.js:23-25 | The snapshot of `where('code', '==', groupCode)`: every group with that code, each listed once, and no other group. |
| `JoinGroup.FirstMatchDecides` | client/src/components/JoinGroup.js:27-31 | The snapshot is empty exactly when no group has the code. Otherwise its first entry is a group with that code, and that entry is used. |
| `JoinGroup.CheckGroup` | client/src/components/JoinGroup.js:34-42 | The password check comes before the membership check. 'Incorrect password' exactly when the password differs. 'You are already a member of this chat' exactly when the password matches and the uid is a member. No refusal exactly when neither holds. |
| `JoinGroup.AppendMember` | client/src/components/JoinGroup.js:45-47 | The new member list is one longer, keeps the old list as its prefix and ends with the uid. It contains exactly the old members and the uid. It stays duplicate-free when the uid was new. |
| `JoinGroup.JoinKeepsMembersDistinct` | client/src/components/JoinGroup.js:40-47 | A join keeps every group's member list duplicate-free. |
| `JoinGroup.Form.constructor` | client/src/components/JoinGroup.js:8-11 | The form starts with empty inputs, no error and `loading` false. |
| `JoinGroup.Form.SetGroupCode` | client/src/components/JoinGroup.js:73 | The code input's change handler stores the value. |
| `JoinGroup.Form.SetPassword` | client/src/components/JoinGroup.js:88 | The password input's change handler stores the value. |
| `JoinGroup.Form.HandleSubmit` | client/src/components/JoinGroup.js:15-55 | A failed query sets its message. No match gives 'Invalid chat code'. Then comes the password check, then the membership check, each with its own message. A failed update sets its message. Every failure leaves the store unchanged. On success only the first match's `members` changes, to the old list plus the uid, and the error is cleared. Other groups, other fields and the set of group ids are unchanged. Duplicate-free member lists stay duplicate-free. `loading` is false afterwards. |
| `CreateGroup.Decimal` | client/src/components/CreateGroup.js:18 | `toString()` of a non-negative integer: at least one character, all decimal digits, and no leading zero when the number is 10 or more. |
| `CreateGroup.DecimalRoundTrip` | client/src/components/CreateGroup.js:18 | Reading the decimal string of `n` back as digits gives `n`. |
| `CreateGroup.FiveDigits` | client/src/components/CreateGroup.js:17-19 | Every integer in [10000, 99999] has exactly five decimal digits. |
| `CreateGroup.GenerateGroupCode` | client/src/components/CreateGroup.js:17-19 | The generated code has five digits, the format the join form asks for (JoinGroup.js:75). Its value is 10000 + r, which lies in [10000, 99999]. |
| `CreateGroup.CodesDistinct` | client/src/components/CreateGroup.js:18 | Different random draws give different codes. |
| `CreateGroup.Form.constructor` | client/src/components/CreateGroup.js:8-13 | The form starts with empty inputs, no error and `loading` false. |
| `CreateGroup.Form.SetGroupName` | client/src/components/CreateGroup.js:78 | The name input's change handler stores the value. |
| `CreateGroup.Form.SetPassword` | client/src/components/CreateGroup.js:92 | The password input's change handler stores the value. |
| `CreateGroup.Form.HandleSubmit` | client/src/components/CreateGroup.js:21-53 | A password shorter than 6 gives 'Password must be at least 6 characters' and nothing else changes. Length 6 is accepted. A failed write gives 'Failed to create chat: ' followed by the message, resets `loading` and writes nothing. On success exactly one group is added under the new id: name and password as entered, the generated code, `createdBy` the creator and `members` exactly `[creator]`. Every existing group is unchanged. |
| `ProfileSetup.ReplaceSpaceRuns` | client/src/components/ProfileSetup.js:17 | `replace(/\s+/g, '_')`: no whitespace is left and the result is no longer than the input. It is empty only for an empty input. Each character is '_' or comes from the input. |
| `ProfileSetup.ReplaceSplitsAtRun` | client/src/components/ProfileSetup.js:17 | A maximal run of whitespace becomes exactly one '_', and the text on each side of it is replaced independently. |
| `ProfileSetup.ReplaceKeepsSpaceless` | client/src/components/ProfileSetup.js:17 | Text without whitespace passes through the replacement unchanged. |
| `ProfileSetup.ReplaceKeepsNonSpace` | client/src/components/ProfileSetup.js:17 | Every non-whitespace character of the input survives the replacement. |
| `ProfileSetup.NormalizeUsername` | client/src/components/ProfileSetup.js:15-19 | The normalised username contains no whitespace and no upper-case letter. It is empty only for an empty input. |
| `ProfileSetup.NormalizeIdempotent` | client/src/components/ProfileSetup.js:17 | Normalising a normalised username changes nothing. |
| `ProfileSetup.NormalizedMatchesPattern` | client/src/components/ProfileSetup.js:17-31 | A typed username passes the submit pattern `^[a-z0-9_]+$` exactly when it is non-empty and made only of ASCII letters, digits, '_' and whitespace. |
| `ProfileSetup.NormalizedNotBlank` | client/src/components/ProfileSetup.js:17-26 | A non-empty typed username is never blank after normalisation; whitespace alone becomes '_'. |
| `ProfileSetup.Precheck` | client/src/components/ProfileSetup.js:24-31 | 'All fields are required' exactly when either field is blank after trimming. The pattern message exactly when both are non-blank and the username fails the pattern. No refusal exactly when the full name is non-blank and the username matches. |
| `ProfileSetup.FailureMessage` | client/src/components/ProfileSetup.js:66 | The error shown is the failure's own message when it has one, and 'Failed to create profile' when it is empty. |
| `ProfileSetup.Form.constructor` | client/src/components/ProfileSetup.js:8-11 | The dialog starts with empty inputs, no error and `loading` false. |
| `ProfileSetup.Form.SetFullName` | client/src/components/ProfileSetup.js:93 | The full-name input's change handler stores the value. |
| `ProfileSetup.Form.HandleUsernameChange` | client/src/components/ProfileSetup.js:15-19 | The stored username is the normalised input. |
| `ProfileSetup.Form.HandleSubmit` | client/src/components/ProfileSetup.js:21-70 | A failed precheck sets its message and nothing is read or written. A failed read, a reserved username ('Username is already taken') or a failed profile write writes nothing. A failed reservation write leaves the profile written but the username unreserved. On success `users[uid]` is the untrimmed full name, the username and the account email, `usernames[username]` is the uid, and the context profile is set. `loading` is false after every outcome that reaches the database. |
| `ProfileSetup.Form.Save` | client/src/components/ProfileSetup.js:33-69 | The `try` block on its own: every outcome of the reservation read and the two writes, as listed for `HandleSubmit`, with `loading` false at the end. |
| `Profile.Editor.constructor` | client/src/components/Profile.js:10-13 | The page starts out of editing mode, with no error and `loading` false. The input holds the full name of the profile present at mount, and is empty when the user context has not loaded one yet. |
| `Profile.Editor.OnProfileChanged` | client/src/components/Profile.js:8-11 | A profile published by the user context after mount replaces the page's profile. The input and the editing mode stay as they were, because the input's state is initialised only once. |
| `Profile.Editor.OnProfileChangedSynced` | client/src/components/Profile.js:8-11 | Corrected handling of the same event: outside editing mode the input takes the new profile's full name. |
| `Profile.LateProfileSave` | client/src/components/Profile.js:11-20 | The page is mounted before the profile loads. The profile then arrives with a non-blank full name, and the user edits and saves without typing. The save is refused with 'Name cannot be empty', and the input is still empty. |
| `Profile.LateProfileSaveSynced` | client/src/components/Profile.js:11-37 | The same sequence with the corrected handler: the save succeeds and stores the trimmed full name. |
| `Profile.Editor.StartEditing` | client/src/components/Profile.js:95 | The edit button enters editing mode. |
| `Profile.Editor.SetFullName` | client/src/components/Profile.js:56 | The name input's change handler stores the value. |
| `Profile.Editor.HandleSubmit` | client/src/components/Profile.js:15-37 | A name that is blank after trimming gives 'Name cannot be empty' and nothing else changes. A failed update gives 'Failed to update profile', stays in editing mode and writes nothing. On success the stored and the local full name both become the trimmed input, which is non-empty and trimmed. Nothing else in either record changes, so username and email are kept. Editing mode is left. `loading` is false afterwards. |
| `Profile.Editor.Cancel` | client/src/components/Profile.js:70-73 | Cancel leaves editing mode and resets the input to the profile's current full name. |
| `ChatRoom.FromSnapshot` | client/src/components/ChatRoom.js:107-112 | The message list has one entry per snapshot document, in snapshot order. Each entry carries its document id and its fields. |
| `ChatRoom.MissingUids` | client/src/components/ChatRoom.js:49-54 | The uids to fetch are never in the cache. A uid is fetched exactly when some message has it and it is not cached. There is at most one fetch per message. |
| `ChatRoom.MissingUidsCounts` | client/src/components/ChatRoom.js:49-54 | An uncached sender is fetched once for each of its messages, and a cached sender is never fetched. |
| `ChatRoom.DisplayName` | client/src/components/ChatRoom.js:208-211 | The fallback chain: the cached profile's full name if the sender is cached, else the message's `userName` if non-empty, else 'Unknown User'. |
| `ChatRoom.AvatarInitial` | client/src/components/ChatRoom.js:221 | The avatar is '?' for an empty name. Otherwise it is the first character of the name, up to ASCII case. With the model's whole-character ASCII case mapping it is one character and never a lower-case letter. |
| `ChatRoom.AvatarUnknownOnlyFromCache` | client/src/components/ChatRoom.js:208-221 | The avatar is '?' exactly when the display name is empty or starts with '?'. An empty name can only come from a cached profile: the fallbacks are never empty. |
| `ChatRoom.Room.constructor` | client/src/components/ChatRoom.js:22-27 | The room starts with no messages, an empty input, no error, an empty cache and `isOwner` false. |
| `ChatRoom.Room.LoadGroupDetails` | client/src/components/ChatRoom.js:61-79 | When the group exists, the room takes its name, and `isOwner` holds exactly when `createdBy` is the current uid. A missing group gives 'This group has been deleted by the owner'. A failed read gives 'Failed to load group'. |
| `ChatRoom.Room.OnMessagesSnapshot` | client/src/components/ChatRoom.js:107-112 | Each snapshot replaces the whole message list. |
| `ChatRoom.Room.ProfilesToFetch` | client/src/components/ChatRoom.js:49-54 | The loop starts exactly the fetches `MissingUids` describes, in message order, and changes nothing. |
| `ChatRoom.Room.OnProfileFetched` | client/src/components/ChatRoom.js:35-47 | A successful fetch of an existing profile merges that one entry into the cache. A failed read or a missing document leaves the cache as it was. Every other entry is kept. |
| `ChatRoom.Room.SetNewMessage` | client/src/components/ChatRoom.js:255 | The message input's change handler stores the value. |
| `ChatRoom.Room.HandleSubmit` | client/src/components/ChatRoom.js:128-146 | Text that is blank after trimming is not sent and nothing changes. A sent message records the untrimmed text, the sender's uid, full name and username, appended to the group's messages. The input is cleared only when the write succeeds. A failed write keeps the text, sets 'Failed to send message' and writes nothing. |

## Left out

- Database and authentication calls are not modelled; each becomes a `Reply` parameter. Their internals are foreign code. This covers reading, writing, adding documents, subscribing and server timestamps.
- How the database orders and evaluates queries is not modelled. A query's snapshot is an input, constrained by `JoinGroup.IsCodeQuery`. The chat room's messages snapshot is not constrained at all.
- The new group's `createdAt` and the ISO dates in the profile and reservation documents are not modelled. They are timestamps or clock reads.
- `Math.random` float arithmetic in the code generator is not modelled. The draw is an integer `r` in [0, 90000), added to 10000.
- Auto-generated document ids are not modelled. The new group's id is a parameter and must not already be a group id.
- Concurrency is not modelled: one handler runs to completion at a time. This excludes the read-modify-write race on `members` when two joins run together, the race between the username check and the reservation, and the timing of subscriptions.
- Whitespace, `trim` and upper/lower case are ASCII-only. JavaScript's Unicode whitespace class and case mapping are not modelled.
- `ChatRoom.AvatarInitial`: the model takes the first Unicode scalar of the name, while the source indexes the first UTF-16 code unit. For a name that starts with a character outside the Basic Multilingual Plane, the source shows a lone surrogate. JavaScript's `toUpperCase` can also produce several characters, for example "SS" for 'ß'; the model's result is one character.
- `CreateGroup.Form.HandleSubmit`: the password length counts Unicode scalar values, while JavaScript's `length` counts UTF-16 code units.
- The browser's own form validation is not modelled: `required`, `minLength` and the `pattern` attributes. The handlers are modelled for every input, and the join code pattern appears only as `Store.IsGroupCode`.
- `ChatRoom.FromSnapshot`: documents are assumed to hold no `id` field. In the source, such a field would override the document id through the object spread.
- `ChatRoom.DisplayName`: an absent `userName`, or a cached profile without `fullName`, is modelled as the empty string.
- `Profile.Editor.HandleSubmit`: the update of a missing user document is modelled as a failure, as the database rejects it. Other failures become the `Reply` parameter.
- `Profile.Editor.HandleSubmit` and `Profile.Editor.Cancel` require a loaded profile. The form that calls them is rendered only while the user context holds one (Profile.js:39).
- Navigation and timed redirects are not modelled, nor `onComplete`'s page reload. That includes the redirect after a join, after a creation, and after a group deletion is detected. These are UI plumbing.
- The messages subscription's error callback is not modelled. On 'permission-denied' it sets 'This group has been deleted by the owner' and redirects (ChatRoom.js:113-119).
- The `console.error` logging in the handlers' failure paths is not modelled. It is output only.
- The group-document subscription and the mapping of its error codes are not modelled, nor the delete-group handler with its confirmation dialog. These are also UI plumbing.
- JSX rendering and CSS are not modelled, including the alignment of the user's own messages.
- Routing, theming, navigation bar, profile menu and sign-up glue are not part of this model. This covers `App.js`, `Navigation.js`, `NotFound.js`, `ThemeToggle.js`, `ProfileMenu.js`, `RequireProfile.js`, `Groups.js`, `UserContext.js` and `Signup.js`.

## Findings

| source | as written | input that shows it | evidently intended | confidence | as-written member | corrected member |
|---|---|---|---|---|---|---|
| client/src/components/Profile.js:11 | The name input is initialised from the profile only when the page mounts. The route is not guarded by a loaded profile, so a profile that arrives later never reaches the input. | Open /profile directly, so the user context is still loading at mount. The profile then arrives with full name "Ann". Press "Edit Profile", then "Save" without typing. The input is empty and the save fails with 'Name cannot be empty'. | While the page is not editing, the input shows the current profile's full name, so saving an unchanged name succeeds. | medium, not executed | `Profile.LateProfileSave` (with `Profile.Editor.OnProfileChanged`) | `Profile.LateProfileSaveSynced` (with `Profile.Editor.OnProfileChangedSynced`) |
