# post-flow page logic in Dafny

post-flow is a React front end for a small social site: sign-up and login forms, a
dashboard feed, a profile page with the user's own posts, a frame-themed post board, a
friend list, a notification bell, a comment box and an avatar. This project models the
state logic of those pages and proves what each handler does to that state.

- Each page whose handlers update component state becomes a class. Its fields are the
  page's state variables, and each handler is a method with `modifies this`.
- Every handler's contract gives the page's whole new state, so "nothing else changes"
  is part of every contract. The three large pages (`Theme.Board`, `Profile.ProfilePage`
  and `Dashboard.Feed`) have a `State()` snapshot, and their contracts are written as
  `old(State())` with only the changed fields replaced. The smaller pages list each of
  their fields in the contract instead.
- Invariants a page keeps are `Valid()` predicates that every handler preserves:
  - the like counts on the theme board;
  - the chosen friend is a listed friend;
  - at most ten notifications;
  - a disabled comment box is empty;
  - the profile's last uploaded image is the first post's image.
- The list updates (`map` that replaces the matching item, `filter`, `slice`) are pure
  functions over sequences, with lemmas for what the pages rely on.
- Network answers, `confirm` results, stored tokens and ids, clock readings and object
  URLs are method parameters. An awaited request is an outcome value: an answer with
  its `ok` flag and body, or a thrown error.
- The three regular expressions of the forms (email, phone, password) are stated twice:
  - as a ghost predicate that reads like the pattern;
  - as the check the forms use.
  A lemma proves the two accept the same strings.

Modules (one per file):
- `Wrappers`: `Option`, toasts and the open-item toggle.
- `Lists`: filter, replace-where, take, reverse.
- `Text`: JavaScript white space, `trim`, ASCII upper-casing.
- `Validators`: the email, phone and password patterns.
- One module per page: `Registration`, `Login`, `CommentInput`, `NotificationBell`,
  `FriendList`, `Theme`, `Profile`, `Dashboard`, `Avatar`.

## Model

| member | source | states |
|---|---|---|
| Wrappers.Toggle | src/pages/theme/Theme.tsx:162 | the toggled value is null exactly when the same id was open, and is that id otherwise |
| Wrappers.ToggleTwice | src/pages/dashboard/Dashboard.tsx:138-140 | from closed, or from that id open, toggling the same id twice restores the state |
| Lists.Filter | src/pages/theme/Theme.tsx:233 | the result holds only kept elements of the input, and every kept element of the input occurs in it |
| Lists.FilterAppend | src/pages/theme/Theme.tsx:145 | filtering a concatenation is the concatenation of the filtered parts, so order is kept |
| Lists.FilterCount | src/pages/theme/Theme.tsx:233 | a kept value occurs exactly as often as in the input, a dropped value not at all |
| Lists.FilterCounts | src/pages/theme/Theme.tsx:233 | the same count fact for every value at once |
| Lists.FilterKeepsAll | src/pages/profile/Profile.tsx:300 | a filter that rejects nothing returns its input unchanged |
| Lists.UpdateWhere | src/pages/theme/Theme.tsx:148-158 | same length; each matching element is replaced by its update and every other element is kept |
| Lists.Take | src/pages/notification/NotificationBell.tsx:35 | `slice(0, n)` is the prefix of length min(n, length) |
| Lists.TakeOfTaken | src/pages/notification/NotificationBell.tsx:35 | cutting a tail to n before cutting the whole to n changes nothing |
| Lists.Reverse | src/pages/notification/NotificationBell.tsx:35 | element i of the result is element length-1-i of the input |
| Text.TrimStart | src/pages/theme/Theme.tsx:222 | the result is a suffix, what was dropped is white space, and it does not start with white space |
| Text.TrimEnd | src/pages/theme/Theme.tsx:222 | the result is a prefix, what was dropped is white space, and it does not end with white space |
| Text.Trim | src/pages/theme/Theme.tsx:222 | the result is a slice of the input with only white space cut on either side, and a non-empty result starts and ends with a non-space |
| Text.TrimEmptyIffBlank | src/componets/CommentInput.tsx:16 | `s.trim()` is empty exactly when every character of s is white space |
| Text.UpperAscii | src/componets/avater.tsx:31 | a-z map to A-Z, 32 code points lower; every other character is kept |
| Text.ToUpper | src/componets/avater.tsx:31 | same length, each character upper-cased |
| Validators.IndexOf | src/registration/Registration.tsx:26 | the index of the first occurrence, or the length when there is none |
| Validators.PlainSlice | src/registration/Registration.tsx:26 | a slice is a `[^\s@]` run exactly when each of its characters is |
| Validators.EmailPatternIsEmail | src/registration/Registration.tsx:26 | every string the email pattern matches passes the email check |
| Validators.IsEmailMatchesPattern | src/registration/Registration.tsx:26 | every string that passes the email check is matched by the pattern |
| Validators.EmailPatternIff | src/registration/Registration.tsx:26 | the check is exactly the pattern: one '@' with something before it, no white space, a '.' strictly inside the domain |
| Validators.IsNepalPhone | src/registration/Registration.tsx:27 | an accepted phone has 10 or 14 characters, its last ten form a mobile number, and 14 characters begin with "+977" |
| Validators.PhonePatternIff | src/registration/Registration.tsx:27 | the phone check accepts exactly the strings that split into an optional "+977" and a `9[78]\d{8}` run |
| Validators.CountryCodeOptional | src/registration/Registration.tsx:27 | "+977" followed by m is accepted exactly when m is a mobile number, so the code cannot be given twice |
| Validators.PasswordPatternIff | src/registration/Registration.tsx:28-29 | the four lookaheads plus the class run are exactly the policy: 8+ characters from the class, with a lower-case, an upper-case, a digit and a special character |
| Validators.LookaheadOfContains | src/login/Login.tsx:15 | over characters that `.` matches, a lookahead `(?=.*C)` holds exactly when the string contains a C |
| Registration.Form.Set | src/registration/Registration.tsx:20 | the named field takes the value and every other field is unchanged |
| Registration.Validate | src/registration/Registration.tsx:24-39 | each message is returned exactly when every earlier check passes and its own fails, and "" exactly when all pass |
| Registration.ValidFormFacts | src/registration/Registration.tsx:31-38 | a valid form has a 10- or 14-character phone, a strong confirmation and an email matching the pattern |
| Registration.ReplyToast | src/registration/Registration.tsx:60-86 | a success toast "Registration successful!" exactly for status 201; any other status shows the server's message, or "Registration failed" when it is empty; a failed request shows "Server error"; the text is never empty |
| Registration.RegistrationPage.constructor | src/registration/Registration.tsx:8-17 | all fields empty and no error |
| Registration.RegistrationPage.HandleChange | src/registration/Registration.tsx:19-22 | only the named field changes and the error is cleared |
| Registration.RegistrationPage.HandleSubmit | src/registration/Registration.tsx:41-87 | a failing validation sets the error, shows it and returns before any request; 201 navigates and clears the form; otherwise the form stays |
| Login.ValidatePassword | src/login/Login.tsx:13-17 | the login password check is exactly the sign-up password pattern |
| Login.PrecheckError | src/login/Login.tsx:21-39 | each message holds exactly when the earlier checks pass and its own fails; "" exactly when all pass |
| Login.ReplyError | src/login/Login.tsx:52-71 | no error exactly on success; a refusal shows the server's message, or "Login failed" when it is empty; a failed request shows "Server error" |
| Login.LoginPage.constructor | src/login/Login.tsx:7-10 | empty fields, no error, not loading |
| Login.LoginPage.ChangeEmail | src/login/Login.tsx:92 | the email field takes the typed text; nothing else changes |
| Login.LoginPage.ChangePassword | src/login/Login.tsx:108 | the password field takes the typed text; nothing else changes |
| Login.ReplyToast | src/login/Login.tsx:52-71 | a success toast "Login successful!" exactly when accepted; otherwise an error toast with the error line's text |
| Login.LoginPage.HandleSubmit | src/login/Login.tsx:19-75 | a request is made exactly when the prechecks pass; the error is the precheck's or the reply's; no toast without a request, the reply's toast after one; navigation exactly on success; loading is clear afterwards |
| CommentInput.CommentBox.constructor | src/componets/CommentInput.tsx:9-10 | empty text, input disabled |
| CommentInput.CommentBox.HandleTextChange | src/componets/CommentInput.tsx:27-30 | only an enabled input changes its text |
| CommentInput.CommentBox.HandleButtonClick | src/componets/CommentInput.tsx:12-21 | the first click enables; a blank text changes nothing; otherwise one call with the text, then the text is cleared and the input disabled |
| NotificationBell.Prepend | src/pages/notification/NotificationBell.tsx:35 | the new notification first, then the newest nine earlier ones; length min(previous + 1, 10) |
| NotificationBell.PrependIsTake | src/pages/notification/NotificationBell.tsx:35 | prepending equals taking ten from the new notification followed by the list |
| NotificationBell.ReceiveAllKeepsNewest | src/pages/notification/NotificationBell.tsx:34-36 | after any arrivals the list is the ten most recent notifications, newest first |
| NotificationBell.BadgeFor | src/pages/notification/NotificationBell.tsx:65-68 | no badge exactly for zero, "9+" exactly above nine, the count otherwise |
| NotificationBell.NinePlusIffFull | src/pages/notification/NotificationBell.tsx:65-68 | under the cap, "9+" shows exactly when ten are kept |
| NotificationBell.ChatToOpen | src/pages/notification/NotificationBell.tsx:118-120 | a chat opens exactly when the notification's chatId is truthy |
| NotificationBell.Bell.constructor | src/pages/notification/NotificationBell.tsx:29-30 | no notifications, popup closed |
| NotificationBell.Bell.HandleNotification | src/pages/notification/NotificationBell.tsx:34-36 | the list becomes the capped prepend and the popup opens |
| NotificationBell.Bell.ClearAll | src/pages/notification/NotificationBell.tsx:50 | the list empties, the popup is unchanged |
| NotificationBell.Bell.ToggleBell | src/pages/notification/NotificationBell.tsx:56 | the popup flips, the list is unchanged |
| NotificationBell.Bell.ClosePopup | src/pages/notification/NotificationBell.tsx:164-168 | the popup closes, the list is unchanged |
| NotificationBell.Bell.ClickNotification | src/pages/notification/NotificationBell.tsx:117-122 | opens the notification's chat when its chatId is truthy, and closes the popup in every case |
| NotificationBell.Bell.Badge | src/pages/notification/NotificationBell.tsx:65-68 | the badge of the list's length; "9+" exactly when the list is full |
| FriendList.FailureMessage | src/FriendList/FriendList.tsx:32-35 | a non-ok answer gives its `msg` or the fallback; a thrown error gives its own message |
| FriendList.FirstId | src/FriendList/FriendList.tsx:39-40 | the first friend's id, or "" for an empty list |
| FriendList.WithoutFriend | src/FriendList/FriendList.tsx:62 | no friend with that id remains, and every other friend stays as often as it occurred |
| FriendList.WithoutFriendInOrder | src/FriendList/FriendList.tsx:62 | removing a friend keeps the other friends in their order |
| FriendList.RemoveKeepsSelection | src/FriendList/FriendList.tsx:62-63 | after a removal the choice is still empty or a listed friend, and it is not the removed id |
| FriendList.FriendListPanel.constructor | src/FriendList/FriendList.tsx:14-17 | no friends, none chosen, no error |
| FriendList.FriendListPanel.FetchFriends | src/FriendList/FriendList.tsx:21-46 | without a token no request and "No auth token"; an ok answer replaces the list and chooses the first friend; a failure sets its message and keeps list and choice |
| FriendList.FriendListPanel.SelectFriend | src/FriendList/FriendList.tsx:99 | the clicked friend becomes the choice |
| FriendList.FriendListPanel.RemoveFriend | src/FriendList/FriendList.tsx:48-67 | on success the friend leaves and a matching choice is cleared; every failure alerts "Error: " plus its message and changes nothing |
| Theme.FindFrame | src/pages/theme/Theme.tsx:96 | None exactly when no frame has the id; otherwise the first frame that has it |
| Theme.CurrentFrame | src/pages/theme/Theme.tsx:96-98 | one of the eight frames; the one with the id when it exists, the first frame otherwise |
| Theme.ToggleLike | src/pages/theme/Theme.tsx:150-155 | the flag flips, the count moves by +1 from unliked and -1 from liked, nothing else changes |
| Theme.LikePost | src/pages/theme/Theme.tsx:147-159 | the matching posts are toggled and every other post is unchanged |
| Theme.LikeTwice | src/pages/theme/Theme.tsx:147-159 | liking twice restores each post and the list |
| Theme.NewPost | src/pages/theme/Theme.tsx:119-135 | 0 likes, not liked, no comments; media URL and type exactly when a file was picked |
| Theme.LikesStayConsistent | src/pages/theme/Theme.tsx:126-137 | a new post keeps every count equal to 1 when liked and 0 otherwise, and so does liking |
| Theme.AddComment | src/pages/theme/Theme.tsx:174-183 | the comment is appended to the matching post's comments; other posts are unchanged |
| Theme.EditPostText | src/pages/theme/Theme.tsx:223-227 | only the matching post's text changes |
| Theme.RemovePost | src/pages/theme/Theme.tsx:232-234 | no post with the id remains, and every other post stays as often as it occurred |
| Theme.RemovePostInOrder | src/pages/theme/Theme.tsx:232-234 | deleting a post keeps the surviving posts in their order |
| Theme.EditCommentText | src/pages/theme/Theme.tsx:274-276 | only the matching comment's text changes |
| Theme.EditComment | src/pages/theme/Theme.tsx:269-280 | only the named post's named comment changes |
| Theme.WithoutComment | src/pages/theme/Theme.tsx:291 | no comment with the id remains, and every other comment stays as often as it occurred |
| Theme.WithoutCommentInOrder | src/pages/theme/Theme.tsx:291 | deleting a comment keeps the other comments in their order |
| Theme.RemoveComment | src/pages/theme/Theme.tsx:285-296 | only the named post loses the comment; other posts are unchanged |
| Theme.EditsKeepLikes | src/pages/theme/Theme.tsx:170-296 | commenting, editing and deleting keep the like-count invariant |
| Theme.VisiblePosts | src/pages/theme/Theme.tsx:142-145 | all posts for "all"; otherwise exactly the posts of that frame |
| Theme.VisiblePostsInOrder | src/pages/theme/Theme.tsx:142-145 | the filter keeps the posts' order |
| Theme.NewPostOnTop | src/pages/theme/Theme.tsx:137-145 | a post made in the filtered frame shows first in the filtered list |
| Theme.IsVideo | src/pages/theme/Theme.tsx:242-250 | a truthy MIME type decides alone by "video/"; otherwise a truthy URL ending ".mp4" or ".webm" |
| Theme.Board.constructor | src/pages/theme/Theme.tsx:15-35 | the initial state: frame1 for both frames, filter "all", everything else empty |
| Theme.Board.ChooseProfileFrame | src/pages/theme/Theme.tsx:327 | only the profile frame changes |
| Theme.Board.ChooseFrame | src/pages/theme/Theme.tsx:377 | only the selected frame changes |
| Theme.Board.ChangePostText | src/pages/theme/Theme.tsx:394 | only the draft text changes |
| Theme.Board.ChangePostMedia | src/pages/theme/Theme.tsx:406 | only the draft file changes |
| Theme.Board.HandlePost | src/pages/theme/Theme.tsx:116-145 | no text and no file: no change; otherwise exactly one new post first, in the selected frame, and the draft cleared; when the post's frame is the one filtered on (or the filter shows all), it heads the filtered list |
| Theme.Board.HandleLike | src/pages/theme/Theme.tsx:147-159 | only the posts change, by `LikePost`; the like invariant holds |
| Theme.Board.ToggleCommentBox | src/pages/theme/Theme.tsx:161-164 | toggles the box; closes a truthy share menu; with a non-zero share id the two are never both open |
| Theme.Board.ToggleShareMenu | src/pages/theme/Theme.tsx:198-201 | toggles the share menu; closes a truthy comment box; with a non-zero box id the two are never both open |
| Theme.Board.HandleCommentChange | src/pages/theme/Theme.tsx:166-168 | only that post's input changes |
| Theme.Board.SubmitComment | src/pages/theme/Theme.tsx:170-186 | an empty input changes nothing; otherwise the comment is appended and that input cleared |
| Theme.Board.HandleCommentKeyPress | src/pages/theme/Theme.tsx:188-196 | Enter submits, other keys change nothing |
| Theme.Board.StartEditingPost | src/pages/theme/Theme.tsx:211-214 | the editing id and text come from the post |
| Theme.Board.ChangeEditingPostText | src/pages/theme/Theme.tsx:441 | only the editing text changes |
| Theme.Board.CancelEditingPost | src/pages/theme/Theme.tsx:216-219 | editing resets to null and "" |
| Theme.Board.SaveEditedPost | src/pages/theme/Theme.tsx:221-230 | blank text changes nothing; otherwise only the post's text changes and editing resets |
| Theme.Board.DeletePost | src/pages/theme/Theme.tsx:232-234 | only the posts change, by `RemovePost` |
| Theme.Board.HandleFilterChange | src/pages/theme/Theme.tsx:236-240 | the filter takes the value; the selected frame takes it too unless it is "all" |
| Theme.Board.StartEditingComment | src/pages/theme/Theme.tsx:253-260 | the comment being edited and its text are set |
| Theme.Board.ChangeEditingCommentText | src/pages/theme/Theme.tsx:574-576 | only the comment edit text changes |
| Theme.Board.CancelEditingComment | src/pages/theme/Theme.tsx:262-265 | comment editing resets |
| Theme.Board.SaveEditedComment | src/pages/theme/Theme.tsx:267-283 | blank text changes nothing; otherwise only that comment's text changes and comment editing resets |
| Theme.Board.CommentEditKeyDown | src/pages/theme/Theme.tsx:577-584 | Enter saves, Escape cancels, other keys change nothing |
| Theme.Board.DeleteComment | src/pages/theme/Theme.tsx:285-296 | only the posts change, by `RemoveComment` |
| Profile.MarkUnliked | src/pages/profile/Profile.tsx:133-136 | every loaded post is marked not liked, nothing else of it changes |
| Profile.SetLikes | src/pages/profile/Profile.tsx:164-170 | only matching posts take the server's likes and flag |
| Profile.SetComments | src/pages/profile/Profile.tsx:203-207 | only matching posts take the server's comment list |
| Profile.SetCaption | src/pages/profile/Profile.tsx:266-270 | only matching posts take the new caption |
| Profile.RemovePost | src/pages/profile/Profile.tsx:300 | no post with the id remains; every other post, including posts without an id, stays as often as it occurred |
| Profile.RemovePostInOrder | src/pages/profile/Profile.tsx:300 | deleting keeps the surviving posts in their order, so the first post afterwards is the first survivor |
| Profile.WithoutComment | src/pages/profile/Profile.tsx:376-378 | an absent list stays absent; otherwise no comment with the id remains and the others stay as often as they occurred |
| Profile.WithoutCommentInOrder | src/pages/profile/Profile.tsx:376-378 | deleting a comment keeps the other comments in their order |
| Profile.RemoveComment | src/pages/profile/Profile.tsx:371-382 | only matching posts lose the comment |
| Profile.RemoveCommentIdempotent | src/pages/profile/Profile.tsx:371-382 | deleting a comment twice is deleting it once |
| Profile.RemovePostIdempotent | src/pages/profile/Profile.tsx:300 | deleting a post twice is deleting it once |
| Profile.ProfilePage.constructor | src/pages/profile/Profile.tsx:31-58 | empty page after the first render's effects |
| Profile.ProfilePage.PostsChanged | src/pages/profile/Profile.tsx:410-414 | the last uploaded image becomes the first post's image, or "" |
| Profile.ProfilePage.ChangeCaption | src/pages/profile/Profile.tsx:459 | only the caption changes |
| Profile.ProfilePage.HandleFileChange | src/pages/profile/Profile.tsx:64-70 | a picked file is stored with its preview; no file, no change |
| Profile.ProfilePage.HandleUpload | src/pages/profile/Profile.tsx:72-115 | no file or user id: no request; refused, image-less or thrown: its alert and no change; success: the post is appended, caption and file cleared |
| Profile.ProfilePage.FetchMyPost | src/pages/profile/Profile.tsx:118-146 | an ok answer replaces the posts, all marked not liked; otherwise no change |
| Profile.ProfilePage.HandleLike | src/pages/profile/Profile.tsx:148-174 | any readable answer, ok or not, sets the matching post's like fields |
| Profile.ProfilePage.ToggleCommentBox | src/pages/profile/Profile.tsx:176-178 | only the open comment box toggles |
| Profile.ProfilePage.ToggleShareMenu | src/pages/profile/Profile.tsx:233-235 | only the share menu toggles |
| Profile.ProfilePage.HandleCommentChange | src/pages/profile/Profile.tsx:180-182 | only that post's input changes |
| Profile.ProfilePage.SubmitComment | src/pages/profile/Profile.tsx:184-213 | empty input: no request; a readable answer replaces the post's comments and clears the input |
| Profile.ProfilePage.HandleCommentKeyPress | src/pages/profile/Profile.tsx:215-223 | Enter submits, other keys change nothing |
| Profile.ProfilePage.StartEditing | src/pages/profile/Profile.tsx:238-241 | the editing id and caption are set |
| Profile.ProfilePage.SaveEdit | src/pages/profile/Profile.tsx:243-277 | not ok or thrown: alert and no change; ok: only the matching caption changes and editing resets |
| Profile.ProfilePage.ChangeEditingCaption | src/pages/profile/Profile.tsx:501 | only the editing caption changes |
| Profile.ProfilePage.CancelEdit | src/pages/profile/Profile.tsx:279-282 | editing resets |
| Profile.ProfilePage.DeletePost | src/pages/profile/Profile.tsx:285-307 | removes the post only when confirmed and ok; a non-ok answer alerts |
| Profile.ProfilePage.SaveEditedComment | src/pages/profile/Profile.tsx:310-349 | no token: no request; failure: alert and no change; ok: the post's comments replaced and comment editing ends |
| Profile.ProfilePage.DeleteComment | src/pages/profile/Profile.tsx:352-386 | removes the comment only when confirmed and ok; a non-ok answer alerts |
| Profile.ProfilePage.StartEditComment | src/pages/profile/Profile.tsx:389-395 | the comment being edited is set |
| Profile.ProfilePage.ChangeEditingCommentText | src/pages/profile/Profile.tsx:674-679 | the edited comment's text changes; with none being edited nothing changes |
| Profile.ProfilePage.CancelEditComment | src/pages/profile/Profile.tsx:398-400 | comment editing ends |
| Dashboard.RemovePost | src/pages/dashboard/Dashboard.tsx:59 | no post with the id remains, and every other post stays as often as it occurred |
| Dashboard.RemovePostInOrder | src/pages/dashboard/Dashboard.tsx:59 | deleting keeps the survivors' order |
| Dashboard.ReplacePost | src/pages/dashboard/Dashboard.tsx:94 | only the post being edited is replaced; with none being edited nothing changes |
| Dashboard.Feed.constructor | src/pages/dashboard/Dashboard.tsx:9-17 | empty feed, nothing edited, no menu |
| Dashboard.Feed.Load | src/pages/dashboard/Dashboard.tsx:23-29 | a decoded list becomes the posts |
| Dashboard.Feed.ChangeCaption | src/pages/dashboard/Dashboard.tsx:107 | only the caption changes |
| Dashboard.Feed.HandlePost | src/pages/dashboard/Dashboard.tsx:32-49 | a blank caption alerts and sends nothing; otherwise the returned post goes first and the caption clears |
| Dashboard.Feed.HandleDelete | src/pages/dashboard/Dashboard.tsx:52-61 | declined: no change; once the request completes, whatever its status, the post leaves and the menu closes |
| Dashboard.Feed.StartEdit | src/pages/dashboard/Dashboard.tsx:64-68 | editing id and caption from the post, menu closed |
| Dashboard.Feed.ChangeEditingCaption | src/pages/dashboard/Dashboard.tsx:171 | only the editing caption changes |
| Dashboard.Feed.CancelEdit | src/pages/dashboard/Dashboard.tsx:71-74 | editing resets |
| Dashboard.Feed.SaveEdit | src/pages/dashboard/Dashboard.tsx:77-97 | a blank caption alerts and sends nothing; otherwise the edited post is replaced and editing resets |
| Dashboard.Feed.ToggleMenu | src/pages/dashboard/Dashboard.tsx:138-140 | only the open menu toggles |
| Avatar.Split | src/componets/avater.tsx:28 | at least one piece, and no piece contains a space |
| Avatar.JoinSplit | src/componets/avater.tsx:28 | joining the pieces with single spaces gives back the text |
| Avatar.FirstChars | src/componets/avater.tsx:29-30 | at most one character per piece, and no space when the pieces have none |
| Avatar.FirstCharsAreWordStarts | src/componets/avater.tsx:27-30 | the first characters of the pieces are exactly the characters that start a word; empty pieces contribute nothing |
| Avatar.DoubleSpaceAddsNothing | src/componets/avater.tsx:27-30 | a doubled space starts no more words than a single one |
| Avatar.Initials | src/componets/avater.tsx:27-31 | the upper-cased word starts: no space, at most one character per piece |
| Avatar.InitialsIgnoreRepeatedSpaces | src/componets/avater.tsx:27-31 | repeated spaces between words do not change the initials |
| Avatar.Render | src/componets/avater.tsx:22-31 | a truthy src shows the image; otherwise truthy children, else the initials |

## Left out

- The friend chat is not part of this model. Its page is a shell over a hook whose code is not among these files.
- The other pages are left out because they only fetch and render, with no state logic:
  - FriendRequest, FriendsPosts, ProfileView;
  - CategoryPosts, PostUploader, Setting;
  - AutoAdminLogin, Notification.
- The presentational components are left out: button, posts-table, view-post-modal, delete-post-dialog, Sidebar, App, AppRoutes, PrivateComponent.
- The browser and network are parameters: `fetch`, sockets, `localStorage`, `alert`, `confirm`, toasts and `navigate`.
  - An alert or toast is returned as a value.
  - Registration's and Login's `localStorage` writes are not modelled.
- Asynchrony is not modelled. Each handler runs to completion with its outcome given. Two interleaved requests, and a handler reading a stale copy of any state variable (such as `posts`, or FriendList's `selectedFriendId` captured when the removal started), are not modelled.
- The clock and object URLs are parameters: `Date.now()` ids, `URL.createObjectURL` and the blob URL revocation effect.
- The notification sound is not modelled.
- Number formatting and the engagement percentage are not modelled: they use floating point.
- Share links are not modelled: `encodeURIComponent` and `window.open` are library calls.
- The theme board's second frame lookup (`frames.find(...)!` for each rendered post) is not modelled: it is rendering.
- Profile's `fullname` read from storage is not modelled, nor its file-input click forwarding.
- Profile's key and blur bindings are not modelled. They only call handlers that are modelled:
  - the caption box's Enter, Escape and blur (lines 502-509);
  - the comment edit box's Enter and Escape (lines 681-694);
  - the delete icon's keys (lines 543-548).
- Text.UpperAscii: only ASCII letters are upper-cased; JavaScript's full Unicode case mapping is not modelled.
- Strings are sequences of Unicode scalar values. JavaScript strings are UTF-16 code units, so surrogate pairs are not modelled.
- Avatar.Render: children are modelled as an optional text. Other React nodes and falsy numbers are not modelled.
- Login.LoginPage.HandleSubmit: a successful reply is taken to carry the user record. A body without `user`, which would throw and show "Server error", is not modelled.
- Profile.ProfilePage.SaveEdit: the server's `caption` is taken to be present. An absent caption, which would become undefined, is not modelled.
- Profile.ProfilePage.FetchMyPost: the prefixed image URL it stores is modelled, but it is at once replaced by the effect on `posts`. Only the value after the effect is visible between handlers.
