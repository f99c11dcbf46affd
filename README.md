# ChatApp core, modelled in Dafny

This project models the core of a small chat application: an Express/Mongoose
backend and a React client.

On the backend it models two stores:

- **Message ledger**: send, history, mark-read, delete and edit. The collection is kept in insertion order. Every `newMessage` socket emit is recorded in an outbox.
- **User directory**: signup, login, the friend list, add-friend, the profile lookup and the online-status change. Every `statusChanged` broadcast is recorded.

On the client it models the rules the pages and dialogs apply before and after
they talk to the server:

- the email check and the add-friend guards;
- the error texts shown for a failed add-friend;
- the friend search;
- the forward dialog's selection and its nested send loop;
- the signup password checks and their feedback;
- the profile form and avatar checks;
- the dashboard's send guard, message dropdown and `newMessage` handler.

What the client receives from the outside world is an input to each operation:

- the result of each HTTP request;
- whether each forwarded send succeeds;
- what `prompt` returned;
- the chosen file.

Requests the client makes are recorded in a sequence, in the order they are made.

Layout, one module per source file plus three shared modules:

| module | file | models |
|---|---|---|
| `Wrappers` | wrappers.dfy | optional JSON fields, JavaScript truthiness and `a \|\| b` |
| `JsString` | js_string.dfy | ECMAScript whitespace, `trim`, ASCII `toLowerCase`, `includes`, `startsWith`, UTF-16 `length` |
| `MessageModel`, `MessageController` | message_model.dfy, message_controller.dfy | the message schema and the message handlers (class `Ledger`) |
| `UserModel`, `UserController` | user_model.dfy, user_controller.dfy | the user schema and the user handlers (class `UserStore`) |
| `ClientTypes` | client_types.dfy | the records the client passes around |
| `EmailCheck` | email_check.dfy | the regular expression `^[^\s@]+@[^\s@]+\.[^\s@]+$` as a structural check, proved equal to the pattern |
| `AddFriendRules`, `AddFriendPage`, `AddFriendModal` | add_friend_rules.dfy, add_friend.dfy, add_friend_modal.dfy | the add-friend form, shared by the page and the dialog |
| `Lists`, `FriendSearch` | lists.dfy, friend_search.dfy | `Array.prototype.filter` and the name search |
| `ForwardModal` | forward_modal.dfy | the forward dialog |
| `SignupPage`, `ProfilePage`, `DashboardPage` | signup.dfy, profile.dfy, dashboard.dfy | the three pages |

## Model

| member | source | states |
|---|---|---|
| MessageModel.Create | backend/models/messageModel.js:3-29 | a draft is stored iff sender and receiver are present; content and image default to "", isRead to false, both timestamps to the creation time |
| MessageController.Conversation | backend/controllers/MessageController.js:8-14 | the history filter keeps exactly the messages between the two users, in either direction |
| MessageController.Locate | backend/controllers/MessageController.js:88-89 | finds a position holding the id, and finds none exactly when no message has it |
| MessageController.Without | backend/controllers/MessageController.js:88 | the collection after deleting an id holds exactly the messages with other ids |
| MessageController.MarkRead | backend/controllers/MessageController.js:71-74 | `updateMany` keeps every message in place with its id, creation time and content, and leaves no unread message from `sender` to `reader` |
| MessageController.EditContent | backend/controllers/MessageController.js:111-115 | `findByIdAndUpdate(id, {content})` keeps every message in place with its id, creation time and read flag, and the edited message takes the given content |
| MessageController.Ledger.GetMessages | backend/controllers/MessageController.js:3-21 | always 200. The body is exactly the pair's messages, ascending by creation time; an empty history is a success |
| MessageController.Ledger.SendMessage | backend/controllers/MessageController.js:30-60 | a missing receiver, or neither content nor image, gives 400 with no message and no emit. Otherwise exactly one message is appended (sender = caller, isRead false) and one `newMessage` goes to the receiver's room with time = createdAt, then 201 |
| MessageController.Ledger.MarkMessagesAsRead | backend/controllers/MessageController.js:66-76 | the collection becomes `MarkRead` of the old one; no emit; always a success |
| MessageController.Ledger.DeleteMessage | backend/controllers/MessageController.js:85-98 | an absent id gives 404 with nothing changed. Otherwise exactly that message is removed, the rest keep their order, and there is no ownership check or emit |
| MessageController.Ledger.EditMessage | backend/controllers/MessageController.js:108-126 | an absent id gives 404 with nothing changed. Otherwise only that message's content (and its update time) changes, and the updated message is returned |
| MessageController.ConversationAscending | backend/controllers/MessageController.js:15 | the history taken from the ascending collection is ascending |
| MessageController.SortedHistoryIsConversation | backend/controllers/MessageController.js:8-15 | any ascending arrangement of the pair's messages equals the stored-order filter, so `.sort({createdAt: 1})` is the identity here |
| MessageController.AscendingSameMembers | backend/controllers/MessageController.js:15 | two strictly ascending sequences with the same members are equal |
| MessageController.ConversationSymmetric | backend/controllers/MessageController.js:10-13 | the history is the same whichever of the two users asks |
| MessageController.ConversationAppend | backend/controllers/MessageController.js:44-49 | a new message joins the end of its own pair's history and no other |
| MessageController.RemoveAtIsWithout | backend/controllers/MessageController.js:88 | with unique ids, removing the found position removes exactly that id |
| MessageController.SpliceWellFormed | backend/controllers/MessageController.js:88 | removing one message keeps the collection ascending, with unique ids and every id and time behind the counters |
| MessageController.WithoutAbsent | backend/controllers/MessageController.js:88-94 | deleting an id nobody has changes nothing |
| MessageController.DeleteTwiceNotFound | backend/controllers/MessageController.js:88-94 | after a delete the id is gone, so a second delete is a 404 |
| MessageController.MarkReadLeavesNoneUnread | backend/controllers/MessageController.js:71-74 | afterwards, no unread message from friend to caller remains |
| MessageController.MarkReadFrame | backend/controllers/MessageController.js:71-74 | only unread friend→caller messages change, and only their read flag and update time; the reverse direction is untouched |
| MessageController.MarkReadIdempotent | backend/controllers/MessageController.js:71-74 | a second mark-read changes nothing |
| MessageController.EditOnlyContent | backend/controllers/MessageController.js:111-115 | edit keeps sender, receiver, image, read flag and creation time; every other message is unchanged |
| MessageController.SendThenHistory | backend/controllers/MessageController.js:44-60 | after a send, the pair's history ends with the new unread message |
| UserModel.Public | backend/controllers/UserController.js:49-51 | `select("-password")` keeps every field except the password |
| UserModel.NewUser | backend/models/userModel.js:3-42 | validation fails iff name, email or password is empty. Otherwise friends is empty, avatar and status are "", lastSeen is now, isOnline is the given flag |
| UserModel.InsertKeepsEmailsUnique | backend/models/userModel.js:9-13 | adding a user whose email is free keeps the unique index |
| UserModel.EmailNamesOneUser | backend/models/userModel.js:12 | with the unique index, an email names one user |
| UserController.Populate | backend/controllers/UserController.js:92-94 | the populated list holds, without passwords, only friends that exist |
| UserController.PopulateAllPresent | backend/controllers/UserController.js:92-104 | when every friend exists, the populated list matches the id list entry for entry |
| UserController.UserStore.SignUp | backend/controllers/UserController.js:5-41 | an existing email gives 400 and a missing field gives 500, both with no change. Otherwise exactly one new online user is added and returned with 201 |
| UserController.UserStore.Login | backend/controllers/UserController.js:45-84 | no exact email+password match gives 401 with no change. On a match, only that user becomes online with a new lastSeen, and the reply carries the profile read before the update |
| UserController.UserStore.GetFriends | backend/controllers/UserController.js:87-105 | unknown caller gives 404. Otherwise the populated friend list: exactly one password-free profile per listed friend, in list order. This holds because the store keeps every friend id naming a stored user |
| UserController.UserStore.AddFriend | backend/controllers/UserController.js:115-160 | guards in source order: missing email 400, unknown caller 404, unknown email 404, already a friend 400, none of them changing anything. Otherwise the friend's id is appended to the caller's list only |
| UserController.AddFriendTouchesOnlyCaller | backend/controllers/UserController.js:149-150 | an add-friend leaves every user except the caller unchanged, the friend included |
| UserController.UserStore.GetUserData | backend/controllers/UserController.js:170-185 | unknown caller gives 404; otherwise the caller without password |
| UserController.UserStore.ChangeOnlineStatus | backend/controllers/UserController.js:195-225 | unknown caller gives 404 with no change. Otherwise isOnline takes the flag's truthiness and one `statusChanged` is broadcast to everyone, carrying the status text |
| Wrappers.OrElse | frontend/src/pages/Profile.jsx:25-29 | `s \|\| fallback`: the string when it is non-empty, the fallback otherwise |
| JsString.BlankIffAllWhitespace | frontend/src/pages/AddFriend.jsx:27 | `!s.trim()` holds exactly when every character is ECMAScript whitespace |
| JsString.LowerIdempotent | frontend/src/pages/Dashboard.jsx:30 | lower-casing twice is lower-casing once |
| JsString.Utf16Length | frontend/src/pages/Signup.jsx:32 | `.length` lies between the number of code points and twice that |
| EmailCheck.ValidateEmail | frontend/src/pages/AddFriend.jsx:13-16 | an accepted address has at least five characters, an '@' and no whitespace |
| EmailCheck.ValidateEmailIsPattern | frontend/src/pages/AddFriend.jsx:13-16 | the structural check holds iff the string matches `^[^\s@]+@[^\s@]+\.[^\s@]+$` |
| EmailCheck.ValidEmailIsTrimmed | frontend/src/pages/AddFriend.jsx:32-39 | an accepted email is non-empty and unchanged by `trim`, so the request carries the text as typed |
| AddFriendRules.ValidAfterInput | frontend/src/components/AddFriendModal.jsx:16-20 | the field's flag is up iff the text matches the pattern or is empty |
| AddFriendRules.SubmitGuard | frontend/src/components/AddFriendModal.jsx:22-37 | a whitespace-only field is Blank. A non-blank field that does not match is Malformed. Otherwise the request carries the matching email |
| AddFriendRules.Typed | frontend/src/components/AddFriendModal.jsx:16-20 | typing sets the field and recomputes the flag, which then tracks the email |
| AddFriendRules.Submitted | frontend/src/components/AddFriendModal.jsx:22-74 | blank: one "enter an email" toast. Malformed: the flag goes down with one "valid email" toast. Matching: exactly one request for the email. The flag keeps tracking the field |
| AddFriendRules.Succeeded | frontend/src/components/AddFriendModal.jsx:39-41 | success clears the field and shows one toast naming the friend |
| AddFriendRules.Failed | frontend/src/components/AddFriendModal.jsx:44-71 | failure adds one error toast with the friendly text and changes nothing else |
| AddFriendRules.FriendlyError | frontend/src/components/AddFriendModal.jsx:46-68 | never empty. No message gives the default text. Each of the four known messages gets its own rephrasing, the self-add one with the emoji. Messages outside the four known ones pass through unchanged |
| AddFriendRules.BackendFailuresShown | frontend/src/components/AddFriendModal.jsx:51-67 | the add-friend handler's three guard messages are rephrased; "User not found" and the server error pass through |
| AddFriendRules.SelfAddNeverSent | frontend/src/components/AddFriendModal.jsx:59 | the self-add case maps a message the backend never sends |
| AddFriendRules.SubmitDisabled | frontend/src/components/AddFriendModal.jsx:157-159 | while idle, with the flag tracking the field, the button is enabled exactly when the field matches the pattern |
| AddFriendRules.EnabledSubmitSends | frontend/src/components/AddFriendModal.jsx:157-159 | when `handleSubmit` runs while the button is enabled and idle, its guards never fire and the request goes out (the browser's own form validation is not modelled, see Left out) |
| AddFriendPage.PageFriendlyError | frontend/src/pages/AddFriend.jsx:49-75 | the page's own mapping, as written (see Findings) |
| AddFriendPage.GarbledSelfAdd | frontend/src/pages/AddFriend.jsx:64-65 | the page's self-add text differs from the dialog's |
| AddFriendPage.PageMappingElsewhere | frontend/src/pages/AddFriend.jsx:51-72 | on every other message the two mappings agree |
| AddFriendPage.PageFailed | frontend/src/pages/AddFriend.jsx:49-75 | a failed request adds one error toast with the page's own wording and changes nothing else |
| AddFriendPage.PageFailedElsewhere | frontend/src/pages/AddFriend.jsx:49-75 | the page's failure handling equals the dialog's on every message except the self-add one, where only the toast differs |
| AddFriendPage.Page.HandleEmailChange | frontend/src/pages/AddFriend.jsx:18-22 | the form becomes `Typed` of the old form; the flag keeps tracking the field |
| AddFriendPage.Page.HandleSubmit | frontend/src/pages/AddFriend.jsx:24-39 | the form becomes `Submitted` of the old form |
| AddFriendPage.Page.HandleKeyPress | frontend/src/pages/AddFriend.jsx:81-85 | Enter submits; any other key changes nothing |
| AddFriendPage.Page.OnSuccess | frontend/src/pages/AddFriend.jsx:41-43 | the form becomes `Succeeded` of the old form |
| AddFriendPage.Page.OnError | frontend/src/pages/AddFriend.jsx:49-75 | the form becomes `PageFailed` of the old form, with the page's as-written wording; the flag keeps tracking the field |
| AddFriendModal.Modal.HandleEmailChange | frontend/src/components/AddFriendModal.jsx:16-20 | as on the page, while the dialog is shown; the close count is unchanged |
| AddFriendModal.Modal.HandleSubmit | frontend/src/components/AddFriendModal.jsx:22-37 | as on the page, while the dialog is shown |
| AddFriendModal.Modal.HandleKeyPress | frontend/src/components/AddFriendModal.jsx:76-83 | the handler as written: Enter submits, the Escape branch asks the parent to close once, and other keys do nothing. Escape never reaches this handler in a browser (see Left out) |
| AddFriendModal.Modal.Cancel | frontend/src/components/AddFriendModal.jsx:93-94 | the close buttons ask the parent to close once and change nothing else |
| AddFriendModal.Modal.OnSuccess | frontend/src/components/AddFriendModal.jsx:39-42 | as on the page, plus exactly one close request |
| AddFriendModal.Modal.OnError | frontend/src/components/AddFriendModal.jsx:44-71 | as on the page; the dialog stays open |
| Lists.Filter | frontend/src/components/ForwardModal.jsx:32-34 | `filter` keeps exactly the passing elements and never grows the list |
| Lists.FilterAppend | frontend/src/components/ForwardModal.jsx:32-34 | filtering keeps relative order: it splits over concatenation |
| Lists.RemoveAll | frontend/src/components/ForwardModal.jsx:19 | `filter(x => x !== id)` holds every other element and no `id` |
| Lists.FilterDistinct | frontend/src/components/ForwardModal.jsx:19 | filtering never introduces a repeat |
| FriendSearch.FilteredFriends | frontend/src/pages/Dashboard.jsx:29-31 | the listed friends are exactly those whose lower-cased name contains the lower-cased term (the same filter as frontend/src/components/ForwardModal.jsx:12-14) |
| FriendSearch.EmptySearchKeepsAll | frontend/src/pages/Dashboard.jsx:29-31 | an empty term lists every friend in order |
| FriendSearch.SearchKeepsOrder | frontend/src/pages/Dashboard.jsx:29-31 | the listed friends keep their relative order |
| FriendSearch.SearchIgnoresTermCase | frontend/src/pages/Dashboard.jsx:30 | lower-casing the term first changes nothing |
| ForwardModal.Toggle | frontend/src/components/ForwardModal.jsx:16-22 | the friend's membership flips, no one else's changes, and a new friend goes to the end |
| ForwardModal.ToggleTwice | frontend/src/components/ForwardModal.jsx:16-22 | toggling an unselected friend twice restores the selection exactly |
| ForwardModal.ToggleKeepsDistinct | frontend/src/components/ForwardModal.jsx:16-22 | the selection never holds a friend twice |
| ForwardModal.CheckboxClick | frontend/src/components/ForwardModal.jsx:134-139 | a checkbox click as written (two toggles) never changes the friend's membership (see Findings) |
| ForwardModal.CheckboxCannotSelect | frontend/src/components/ForwardModal.jsx:134-139 | ticking an unselected friend's checkbox leaves the selection as it was |
| ForwardModal.KeyOf | frontend/src/components/ForwardModal.jsx:33 | `msg._id \|\| msg.id`: the `_id` when truthy, otherwise the `id` when present, otherwise undefined |
| ForwardModal.MessagesToForward | frontend/src/components/ForwardModal.jsx:32-34 | exactly the listed messages whose key is selected |
| ForwardModal.ForwardedText | frontend/src/components/ForwardModal.jsx:41 | `content \|\| text`, and "undefined" when both are missing |
| ForwardModal.ForwardRequest | frontend/src/components/ForwardModal.jsx:39-43 | receiver, "Forwarded: " prefix, image or "" |
| ForwardModal.IsSelected | frontend/src/components/ForwardModal.jsx:33 | a message is selected iff its truthy `_id`, or else its `id`, is among the selected ids; a message with neither is never selected |
| ForwardModal.Row | frontend/src/components/ForwardModal.jsx:38-44 | one request per message, in message order |
| ForwardModal.Plan | frontend/src/components/ForwardModal.jsx:37-45 | the requests of the nested loops, friend by friend; every one goes to a selected friend |
| ForwardModal.PlanSize | frontend/src/components/ForwardModal.jsx:37-45 | the nested loop plans friends × messages requests |
| ForwardModal.PlanPrefix | frontend/src/components/ForwardModal.jsx:37-45 | the plan for the first friends is the start of the whole plan |
| ForwardModal.PlanAt | frontend/src/components/ForwardModal.jsx:37-45 | friend-major order: request (i, j) sits at i·\|messages\| + j |
| ForwardModal.ForwardRow | frontend/src/components/ForwardModal.jsx:38-44 | the inner loop issues a prefix of the row; it is the whole row iff no send failed, and otherwise it ends with the first failure |
| ForwardModal.ForwardAll | frontend/src/components/ForwardModal.jsx:37-45 | the outer loop issues a prefix of the plan; it is the whole plan iff no send failed, and otherwise it ends with the first failure |
| ForwardModal.Modal.ToggleFriendSelection | frontend/src/components/ForwardModal.jsx:16-22 | the selection becomes `Toggle` of the old one and stays free of repeats |
| ForwardModal.Modal.SetSearchTerm | frontend/src/components/ForwardModal.jsx:99 | the search term takes the typed text and nothing else changes |
| ForwardModal.Modal.HandleForward | frontend/src/components/ForwardModal.jsx:24-58 | no friend selected: one error toast and no request. Otherwise the plan's requests are issued in order up to the first failure. All delivered: success toast naming the count, one close request, selection cleared. A failure: error toast, selection kept |
| ForwardModal.Modal.Cancel | frontend/src/components/ForwardModal.jsx:168 | one close request; the selection is kept |
| SignupPage.InitialForm | frontend/src/pages/Signup.jsx:10-16 | all fields empty except the default status line |
| SignupPage.WithField | frontend/src/pages/Signup.jsx:21-24 | the named field takes the value and every other field is kept |
| SignupPage.PasswordProblem | frontend/src/pages/Signup.jsx:28-35 | a mismatch is reported first. Then a password under 8 UTF-16 units. No problem iff equal and long enough |
| SignupPage.EightCharactersSuffice | frontend/src/pages/Signup.jsx:32 | eight code points always pass the length check |
| SignupPage.FourEmojiPass | frontend/src/pages/Signup.jsx:32 | four astral-plane characters count as eight and pass |
| SignupPage.Outcome | frontend/src/pages/Signup.jsx:44-54 | only a successful body stores its token, with the success toast. An unsuccessful body shows its message or "Signup failed". A thrown error shows the fixed text |
| SignupPage.Received | frontend/src/pages/Signup.jsx:39-42 | a non-2xx reply is a thrown error, as axios does |
| SignupPage.BackendSignupFeedback | frontend/src/pages/Signup.jsx:44-54 | against this backend a 201 stores the token, and 400/500 show the fixed error text, never the server's message |
| SignupPage.Page.HandleChange | frontend/src/pages/Signup.jsx:21-24 | only the named field changes |
| SignupPage.Page.HandleSubmit | frontend/src/pages/Signup.jsx:26-41 | a password problem gives one toast and no request. Otherwise loading starts and exactly one request with the whole form is made |
| SignupPage.Page.OnResult | frontend/src/pages/Signup.jsx:44-57 | loading ends, one toast, and the token is stored only on success |
| ProfilePage.Prefill | frontend/src/pages/Profile.jsx:22-31 | each field is the record's value, or "" where it is missing or empty |
| ProfilePage.PrefillRoundTrip | frontend/src/pages/Profile.jsx:24-28 | a record holding a form's values prefills exactly that form |
| ProfilePage.WithField | frontend/src/pages/Profile.jsx:33-39 | the named field takes the value and the other two are kept |
| ProfilePage.RetypeIsNoChange | frontend/src/pages/Profile.jsx:33-39 | an input change leaves the form as it is iff it re-enters the current value |
| ProfilePage.CheckAvatar | frontend/src/pages/Profile.jsx:41-63 | no file: nothing. Over 5 MiB: the size error, whatever the type. Otherwise a type not starting with "image/": the type error. Otherwise the file is taken |
| ProfilePage.AvatarLimitInclusive | frontend/src/pages/Profile.jsx:45 | exactly 5 MiB is accepted and one byte more is refused |
| ProfilePage.SizeCheckedFirst | frontend/src/pages/Profile.jsx:45-54 | an oversized non-image gets the size complaint |
| ProfilePage.Page.SyncFromUserData | frontend/src/pages/Profile.jsx:22-31 | a present record refills the form and the preview; an absent one changes neither |
| ProfilePage.Page.StartEditing | frontend/src/pages/Profile.jsx:276 | enters edit mode and changes nothing else |
| ProfilePage.Page.HandleInputChange | frontend/src/pages/Profile.jsx:33-39 | only the named field changes |
| ProfilePage.Page.HandleAvatarChange | frontend/src/pages/Profile.jsx:41-63 | a refused file adds its toast and keeps the pending file; an accepted one becomes the pending file |
| ProfilePage.Page.HandleSubmit | frontend/src/pages/Profile.jsx:65-68 | exactly one update with the current form and pending file |
| ProfilePage.Page.OnSubmitResult | frontend/src/pages/Profile.jsx:69-73 | only a success leaves edit mode and drops the pending file |
| ProfilePage.Page.HandleCancel | frontend/src/pages/Profile.jsx:76-87 | the form and preview return to the record, the pending file is dropped, edit mode ends |
| DashboardPage.SendPayload | frontend/src/pages/Dashboard.jsx:33-43 | a request exists iff the message has a non-whitespace character and a friend is selected. It carries that friend's id, the untrimmed text and image "" |
| DashboardPage.SendPayloadAccepted | frontend/src/pages/Dashboard.jsx:34-42 | every request the composer makes passes the server's send guard (backend/controllers/MessageController.js:36) |
| DashboardPage.ToggleDropdown | frontend/src/pages/Dashboard.jsx:267-269 | clicking the open message closes the menu; any other click opens that message's menu |
| DashboardPage.ToggleDropdownTwice | frontend/src/pages/Dashboard.jsx:267-269 | a second click on the message just opened closes it |
| DashboardPage.IdlessMenusOpenTogether | frontend/src/pages/Dashboard.jsx:267-272 | messages without `_id` share the key `undefined`, so their menus open together |
| DashboardPage.ChooseOption | frontend/src/pages/Dashboard.jsx:278-290 | "delete" deletes the message. "edit" edits it iff the prompt returned a non-empty string, with that string. "forward" and "reply" do nothing |
| DashboardPage.OnlyDeleteAndEditAct | frontend/src/pages/Dashboard.jsx:274-290 | of the four options, two act when the prompt returns text and one otherwise |
| DashboardPage.Page.VisibleFriends | frontend/src/pages/Dashboard.jsx:29-31 | the sidebar lists exactly the friends whose name contains the search term; an empty search lists all of them, in order |
| DashboardPage.Page.SetSearchTerm | frontend/src/pages/Dashboard.jsx:155 | the search term takes the typed text and nothing else changes |
| DashboardPage.Page.SelectFriend | frontend/src/pages/Dashboard.jsx:84-88 | selecting a listed friend; a changed selection requests one mark-read for that friend and leaves the conversation query without data, so the list is the default `[]` |
| DashboardPage.Page.OnMessagesLoaded | frontend/src/pages/Dashboard.jsx:16-20 | the query, enabled only with a selected friend, settles: the list is its data |
| DashboardPage.Page.SetMessage | frontend/src/pages/Dashboard.jsx:324 | the composer's text takes the typed text and nothing else changes |
| DashboardPage.Page.HandleSendMessage | frontend/src/pages/Dashboard.jsx:33-49 | at most one send request, the one `SendPayload` gives; nothing else changes |
| DashboardPage.Page.HandleKeyPress | frontend/src/pages/Dashboard.jsx:51-55 | Enter takes the send path; other keys do nothing |
| DashboardPage.Page.OnSendResult | frontend/src/pages/Dashboard.jsx:44-45 | success clears the composer; failure raises one alert |
| DashboardPage.Page.ClickDropdown | frontend/src/pages/Dashboard.jsx:261-269 | the open menu becomes `ToggleDropdown` of the old one and the clicked message's key |
| DashboardPage.Page.ClickOption | frontend/src/pages/Dashboard.jsx:278-290 | exactly the request `ChooseOption` gives, if any; the menu stays open |
| DashboardPage.Page.OnDeleteResult | frontend/src/pages/Dashboard.jsx:57-66 | one success or error toast |
| DashboardPage.Page.OnEditResult | frontend/src/pages/Dashboard.jsx:67-82 | one success or error toast |
| DashboardPage.Page.OnNewMessage | frontend/src/pages/Dashboard.jsx:90-100 | one toast whoever sent it; the message is appended to the cached array when the query has data, and lost in the throwaway default `[]` when it has none |

## Left out

- Every `catch` that answers 500 after a database failure. The store never fails, except signup's validation error, which is modelled.
- Socket.io rooms and transport: emits are outbox entries. Every `console.log`.
- The JSON Web Token. Signup and login replies do not carry it. The client's token is an opaque string.
- Passwords are compared as plain text, as the backend does. Hashing does not appear in the source.
- Route wiring and the authentication middleware: the caller's id is a parameter.
- react-query and axios hooks and their caching: a request is a record in a sequence, and its outcome is a separate call. The hooks are not part of this model.
- DashboardPage.ChooseOption: `Edit(IdKey(m), text)` records what the page passes to the edit mutation, not what reaches the server. The dashboard creates the edit hook with no arguments (frontend/src/pages/Dashboard.jsx:25), and the hook's request body (frontend/src/hooks/useEditMessage.js:11-15) is its own undefined `messageId` plus the whole `{messageId, content}` object from frontend/src/pages/Dashboard.jsx:68-72 as `content`. So the edit request carries no id and an object where text is expected, the backend's edit handler cannot apply it, and every edit from the dashboard ends in "Failed to edit message". MessageController.Ledger.EditMessage models the backend handler for a well-formed request.
- Navigation, timers and the redirect after success; toasts' timing and rendering; all markup.
- The FileReader that turns an accepted avatar into a preview: it is asynchronous and the browser's own code.
- Mongo object ids are natural numbers on the server and strings on the client. A malformed id, which Mongoose rejects with a cast error answered by a 500, is not modelled.
- Wall-clock time is a counter that each stored change advances.
- JsString.Lower: folds ASCII letters only; Unicode case mapping is not modelled.
- ForwardModal.ForwardAll: whether each send succeeds is the input `delivered`. A send that never settles is not modelled.
- DashboardPage.Page.OnNewMessage: `messages.push` mutates react-query's cached array, which does not by itself re-render. The model records the array's contents, not what is on screen.
- DashboardPage.Page.SelectFriend: react-query keeps one cache per friend and shows a conversation it already holds at once. The model keeps only the current list: every changed selection starts without data, and a cached conversation is an `OnMessagesLoaded` right after the selection.
- DashboardPage.Page.SelectFriend: the mark-read effect fires on a change of object identity. The model compares friends by value.
- The Profile page's update hook and its toasts are not part of this model; only its `success` flag is an input.
- Signup's `status` field and `confirmPassword` are posted but ignored by the backend.
- UserController.UserStore.Login: every request body field is modelled as a string. `express.json()` (backend/server.js:24) accepts any JSON value, and nothing sanitises it before `findOne({ email, password })` (backend/controllers/UserController.js:50). A body such as `{"email": {"$ne": null}, "password": {"$ne": null}}` is read as Mongo query operators and logs the caller in as the first stored user with no password. The `findOne({ email })` lookups of SignUp and AddFriend (backend/controllers/UserController.js:9, 134) take operators the same way. The contracts hold only for string fields; non-string JSON is not modelled.
- UserModel.User: the user schema's `{ timestamps: true }` (backend/models/userModel.js:41) is not modelled. The stored `createdAt` and `updatedAt`, the `updatedAt` advanced by Login, AddFriend and ChangeOnlineStatus, and both fields in the replies of Login, GetFriends and GetUserData are absent from the model. Only `lastSeen` is kept.
- UserController.UserStore.SignUp: a body field that is missing is passed as "". Mongoose's `required` rejects a missing field and an empty string alike, so the outcome is the same.
- The browser's own form validation is not modelled. The email inputs are `type="email"` and several inputs are `required` (frontend/src/pages/AddFriend.jsx:129, frontend/src/components/AddFriendModal.jsx:125, frontend/src/pages/Signup.jsx:85-147, frontend/src/pages/Profile.jsx:167-189). A button-click submit that this validation blocks never reaches `handleSubmit`: an empty required field, or an address the regular expression accepts but HTML's email grammar rejects, such as "a@b..c". Enter in the add-friend field calls `handleSubmit` directly. The `HandleSubmit` methods and AddFriendRules.EnabledSubmitSends describe the handler once it runs.
- AddFriendModal.Modal.HandleKeyPress: takes every key, Escape included. The handler is attached to `onKeyPress` (frontend/src/components/AddFriendModal.jsx:128). Browsers fire no keypress for Escape, and React drops keypress events whose charCode is 0. So in the running dialog the Escape branch never fires and Escape does not close it. Which keys the browser delivers is not modelled.

## Findings

| source | as written | input that shows it | evidently intended | confidence | as-written member | corrected member |
|---|---|---|---|---|---|---|
| frontend/src/pages/AddFriend.jsx:65 | the self-add text ends in "ðŸ˜Š", the UTF-8 bytes of 😊 read as Windows-1252 | a failed add-friend whose message is "You cannot add yourself as a friend". This backend never sends that message (AddFriendRules.SelfAddNeverSent), so the garbled text is latent and cannot appear against it | the emoji, as frontend/src/components/AddFriendModal.jsx:60 shows it | high that the text is garbled; low impact, since the branch is unreachable with this backend; not executed | AddFriendPage.PageFriendlyError, AddFriendPage.GarbledSelfAdd | AddFriendRules.FriendlyError |
| frontend/src/components/ForwardModal.jsx:134-139 | the checkbox's `onChange` toggles the friend and the click then bubbles to the row's `onClick`, which toggles again | with no friend selected, a click on friend "a"'s checkbox: the selection stays `[]` | one click selects or deselects the friend once | high, not executed | ForwardModal.CheckboxClick, ForwardModal.CheckboxCannotSelect | ForwardModal.Toggle |
