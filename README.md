# Instagram clone: the screens' state rules, verified

This project models the small, exact rules inside the screens and components of a React Native Instagram clone. Most of that code is layout. The rules modelled are:

- **Caption tags.** Hashtags and mentions are pulled out of a caption with a left-to-right regular-expression scan.
- **New-post form.** It checks its fields before it creates a post, builds the post record, and appends suggested hashtags.
- **Feed reducers.** Like, save and story-viewed.
- **Notification inbox.** Marking read, the tab filter, and the tables that give each type its icon and colour.
- **Search.** Case-insensitive filtering, the trending-tag tab and the recent-search list.
- **Poll and quiz cards.** Vote totals, percentage shares and the once-only latches.
- **Account forms.** The sign-up and sign-in checks in the auth component, and the sign-up screen's checks.
- **Chat composer.**
- **Privacy settings.** A keyed record, list removal and two toggles that need confirmation.
- **Profile card.** The follow button and the fallback profile.
- **HD image URL rewrite.**
- **Shopping panel.** The wishlist and product tagging.
- **Camera helpers.** The filter table, the boomerang clip, multi-photo capture, and the flash and lens switches.

Each React component whose `useState` cells a handler updates is a `class`:

- its fields are those cells;
- each handler is a method with a `modifies` clause;
- each handler's `ensures` ties the new state to a pure function of the old state.

The pure functions carry the properties. Their contracts and the lemmas beside them state:

- which item changes and which do not;
- that order is preserved;
- idempotence and two-press round trips;
- bounds;
- which check fails first.

Helper code lives in its own modules:

- `Text`: ASCII lower-casing, `includes`, and `trim`.
- `Seqs`: `filter` and `reverse`.
- `Backend`: the signed-in user, plus the reply of an awaited backend call.
- `Forms`: alerts, confirmation choices and account-form errors.

A backend call is not executed. It is represented by its `Reply`, which is one of three cases:

- success with a value;
- `{ success: false, error }`;
- a thrown exception.

The clock and the user's choices in confirmation dialogs are parameters.

## Model

| member | source | states |
|---|---|---|
| Text.LowerChar | src/screens/SearchScreen.js:66 | lower-casing one character yields no upper-case letter, keeps word characters word characters, and leaves everything else alone |
| Text.Lower | src/screens/SearchScreen.js:66 | `toLowerCase` keeps the length and lower-cases each character in place |
| Text.LowerIsLowerCase | src/components/PostCreator.js:21 | a lower-cased string has no upper-case letter |
| Text.LowerOfLowerCase | src/components/PostCreator.js:21 | lower-casing text without upper-case letters changes nothing |
| Text.ContainsIffOccurs | src/components/HDImage.js:13 | `includes` holds exactly when the needle occurs at some position |
| Text.ContainsExtendRight | src/components/HDImage.js:13 | text that contains a needle still contains it after something is appended |
| Text.ContainsExtendLeft | src/components/PostCreator.js:258-260 | text that contains a needle still contains it after something is prepended |
| Text.TrimStartFacts | src/components/PostCreator.js:73 | what remains is a suffix of the text, everything dropped is whitespace, and it starts on a non-whitespace character |
| Text.TrimEndFacts | src/components/PostCreator.js:73 | what remains is a prefix of the text, everything dropped is whitespace, and it ends on a non-whitespace character |
| Text.Trim | src/components/PostCreator.js:73 | `trim()` is empty exactly when the text is all whitespace; otherwise it starts and ends on a non-whitespace character |
| Text.TrimIsMiddleSlice | src/components/PostCreator.js:89-90 | `trim()` is a contiguous slice of the text with only whitespace before and after it |
| Seqs.Filter | src/screens/SearchScreen.js:67-74 | `filter` keeps exactly the elements satisfying the predicate and adds none |
| Seqs.FilterIsSubsequence | src/screens/SearchScreen.js:67-74 | `filter` keeps the relative order of what it keeps |
| Seqs.FilterKeepsAll | src/screens/NotificationScreen.js:188 | a predicate true of every element keeps the list as it is |
| Seqs.FilterIdempotent | src/components/PrivacySettings.js:307 | filtering twice with one predicate is filtering once |
| Seqs.FilterConcat | src/screens/SearchScreen.js:87 | filtering distributes over concatenation |
| Seqs.SubsequenceOfSelf | src/screens/SearchScreen.js:61-63 | a list is an order-preserving subsequence of itself |
| Seqs.FilterDistinct | src/screens/SearchScreen.js:87 | filtering a list without repeats gives a list without repeats |
| Seqs.Reversed | src/components/AdvancedCamera.js:116 | `reverse()` puts element `i` at position `n-1-i` |
| Seqs.ReversedInvolution | src/components/AdvancedCamera.js:116 | reversing twice gives back the list |
| Seqs.MirrorIsReversed | src/components/AdvancedCamera.js:116 | a list holding another's elements at mirrored positions is its reverse |
| Backend.EmailPrefix | src/components/UserProfile.js:90 | `email.split('@')[0]` holds no '@', is a prefix of the address, and stops at the first '@' or at the end |
| Captions.WordRun | src/components/PostCreator.js:20 | the run of `[a-zA-Z0-9_]` at the start is maximal: every character in it is a word character, and the next one is not |
| Captions.TokenAt | src/components/PostCreator.js:20 | the match at a sigil is the sigil plus the maximal run of word characters after it |
| Captions.Matches | src/components/PostCreator.js:20-21 | every global match is a sigil followed by one or more word characters |
| Captions.SkipWordChars | src/components/PostCreator.js:20 | no match can start inside a run of word characters |
| Captions.MatchesAreTokensByPosition | src/components/PostCreator.js:20-21 | the scan, resuming after each match, finds exactly the token at every position where one starts, in order, duplicates kept, no word boundary needed |
| Captions.ExtractHashtags | src/components/PostCreator.js:19-22 | one entry per '#' match, in order, each the lower-cased match and so '#' followed by `[a-z0-9_]+` |
| Captions.ExtractMentions | src/components/PostCreator.js:25-28 | one entry per '@' match, in order, each the lower-cased match without '@' |
| Captions.DuplicateHashtagsKept | src/components/PostCreator.js:20-21 | `#a #a` yields two entries |
| Captions.HashtagNeedsNoBoundary | src/components/PostCreator.js:20 | `a#x y` yields `#x` |
| Captions.DoubleSigil | src/components/PostCreator.js:20 | `##x` yields `#x` |
| Captions.HashtagLowerCased | src/components/PostCreator.js:21 | `#Sun!` yields `#sun` |
| Captions.MentionDropsSigil | src/components/PostCreator.js:27 | `@Al` yields `al` |
| Captions.NoMentionGivesEmpty | src/components/PostCreator.js:26-27 | text with no match yields the empty list |
| PostCreator.CheckPost | src/components/PostCreator.js:68-76 | the missing-media error exactly without media; the caption error exactly with media and a blank caption; no error exactly when both are present |
| PostCreator.BuildPost | src/components/PostCreator.js:84-98 | the record holds the user id, the display name or else the email's part before the first '@', the photo URL or else the placeholder image for the uid, the media uri, the trimmed caption and location, the extracted tags and mentions, and zero likes, zero saves and no comments; it cannot be built exactly when the user has neither display name nor email |
| PostCreator.AppendSuggestion | src/components/PostCreator.js:258-260 | the result always contains the tag and extends the caption; it is the caption unchanged exactly when the caption already contained the tag |
| PostCreator.AppendSuggestionIdempotent | src/components/PostCreator.js:258-260 | pressing the same suggestion twice appends it once |
| PostCreator.PhotoInsidePhotoOfTheDay | src/components/PostCreator.js:258 | after `#photooftheday`, pressing `#photo` adds nothing, because `includes` finds it inside |
| PostCreator.PostForm.constructor | src/components/PostCreator.js:11-15 | the form starts empty and not loading |
| PostCreator.PostForm.HandleCreatePost | src/components/PostCreator.js:67-114 | a failed check shows its alert and calls nothing; otherwise the record goes to `createPost` once, the form closes only on success, the alert matches the reply, and loading ends false |
| PostCreator.PostForm.PressSuggestion | src/components/PostCreator.js:249-260 | the caption becomes `AppendSuggestion` of the pressed tag |
| PostCreator.EnabledSubmitPassesChecks | src/components/PostCreator.js:130 | when the share button is enabled, the checks of `handleCreatePost` pass |
| Notifications.Icon | src/screens/NotificationScreen.js:124-143 | total; `person-add` exactly for follow and follow requests; `notifications` exactly for unknown types |
| Notifications.Colour | src/screens/NotificationScreen.js:145-164 | total; `#999` exactly for unknown types |
| Notifications.ColourIdentifiesKnownKind | src/screens/NotificationScreen.js:145-164 | distinct known types have distinct colours |
| Notifications.MarkRead | src/screens/NotificationScreen.js:170-176 | same length and order; an item is read afterwards exactly if it was read or has the id; no other field changes |
| Notifications.MarkAllRead | src/screens/NotificationScreen.js:178-182 | same length and order; every item read; no other field changes |
| Notifications.UnreadCount | src/screens/NotificationScreen.js:170-182 | the unread count is at most the inbox size |
| Notifications.MarkReadIdempotent | src/screens/NotificationScreen.js:171-175 | marking the same id twice is marking it once |
| Notifications.MarkReadLowersUnread | src/screens/NotificationScreen.js:170-176 | marking never raises the unread count, and lowers it when an unread item has the id |
| Notifications.MarkAllReadClearsUnread | src/screens/NotificationScreen.js:178-182 | nothing is unread after marking all |
| Notifications.MarkAllReadAbsorbsMarkRead | src/screens/NotificationScreen.js:170-182 | marking one and then all is marking all |
| Notifications.FilterByTab | src/screens/NotificationScreen.js:184-189 | 'all' and unknown tabs show everything; 'mentions' shows exactly mentions and tags; 'likes' shows exactly likes and comments |
| Notifications.FilterByTabPreservesOrder | src/screens/NotificationScreen.js:184 | the filtered list is an order-preserving subsequence of the inbox |
| Notifications.NotificationScreen.constructor | src/screens/NotificationScreen.js:167-168 | the inbox starts with the seed notifications on the 'all' tab |
| Notifications.NotificationScreen.MarkAsRead | src/screens/NotificationScreen.js:170-176 | the inbox becomes `MarkRead` of the old one |
| Notifications.NotificationScreen.MarkAllAsRead | src/screens/NotificationScreen.js:178-182 | the inbox becomes `MarkAllRead` of the old one, with nothing unread |
| Notifications.NotificationScreen.Visible | src/screens/NotificationScreen.js:184-189 | what is shown is an order-preserving subsequence of the inbox |
| Search.SearchImages | src/screens/SearchScreen.js:61-70 | an empty query keeps every image; otherwise an image is kept exactly when its lower-cased caption or some lower-cased tag contains the lower-cased query |
| Search.SearchUsers | src/screens/SearchScreen.js:61-74 | an empty query keeps every user; otherwise a user is kept exactly when the lower-cased user name or full name contains the lower-cased query |
| Search.SearchPreservesOrder | src/screens/SearchScreen.js:67-74 | both result lists are order-preserving subsequences of the full lists |
| Search.EmptyQueryFilterKeepsAll | src/screens/SearchScreen.js:61-63 | the empty-query branch agrees with the filter, which would also keep everything |
| Search.TagResults | src/screens/SearchScreen.js:259 | exactly the trending tags containing the lower-cased query |
| Search.AddRecent | src/screens/SearchScreen.js:86-88 | the item first, its other copies removed, the rest a prefix of the earlier entries in their order, at most five |
| Search.AddRecentIdempotent | src/screens/SearchScreen.js:87 | recording the same search twice is recording it once |
| Search.AddRecentKeepsDistinct | src/screens/SearchScreen.js:87 | a list without repeats stays without repeats |
| Search.SearchScreen.constructor | src/screens/SearchScreen.js:47-52 | empty query, full lists, not loading, the three seed recent searches |
| Search.SearchScreen.HandleSearch | src/screens/SearchScreen.js:54-77 | the query is recorded and the lists become `SearchImages` and `SearchUsers` of it; loading ends false |
| Search.SearchScreen.ClearSearch | src/screens/SearchScreen.js:80-84 | empty query and both full lists |
| Search.SearchScreen.AddRecentSearch | src/screens/SearchScreen.js:86-88 | the list becomes `AddRecent` of the old one |
| Feed.ToggleLike | src/screens/HomeScreen.js:312-322 | only matching posts flip `isLiked`; `likes` moves with it, so likes by others are preserved; no other field, order or length changes |
| Feed.ToggleSave | App_new.js:128-134 | only matching posts flip `isSaved`; nothing else changes |
| Feed.MarkViewed | src/screens/HomeScreen.js:324-330 | a story is viewed afterwards exactly if it was viewed or has the id; nothing else changes |
| Feed.ToggleLikeMovesCounterByOne | src/screens/HomeScreen.js:317-318 | the counter of the matching post drops by one if it was liked, else rises by one |
| Feed.ToggleLikeTwice | src/screens/HomeScreen.js:317-318 | two likes on one id restore the list |
| Feed.ToggleSaveTwice | App_new.js:128-134 | two saves on one id restore the list |
| Feed.UnknownIdIsNoOp | App_new.js:116-133 | an id no item carries leaves the list as it is, for all three reducers |
| Feed.LikeSaveCommute | App_new.js:115-134 | like and save commute |
| Feed.HandlersKeepCountersSound | App_new.js:120-121 | non-negative likes by others stay non-negative under both handlers, so no counter becomes negative |
| Feed.MarkViewedIdempotent | src/screens/HomeScreen.js:324-330 | viewing a story twice is viewing it once |
| Feed.LikeExample | src/screens/HomeScreen.js:317-318 | liking an unliked post with 10 likes gives a liked post with 11 |
| Home.HomeScreen.constructor | src/screens/HomeScreen.js:309-310 | the seed posts and stories |
| Home.HomeScreen.HandleLike | src/screens/HomeScreen.js:312-322 | the posts become `ToggleLike` of the old ones |
| Home.HomeScreen.HandleStoryPress | src/screens/HomeScreen.js:324-330 | the stories become `MarkViewed` of the old ones |
| App.ThemeColors | App_new.js:63 | the dark palette exactly when the dark theme is on, the light one exactly when it is off |
| App.ThemeToggleChangesPalette | App_new.js:154 | a press of the theme button always changes the palette, because the light and dark palettes differ |
| App.AppShell.constructor | App_new.js:55-57 | logged out, home tab, light theme, the seed posts |
| App.AppShell.LogIn | App_new.js:147 | the user is authenticated |
| App.AppShell.ToggleTheme | App_new.js:154 | the theme flips and the other palette is active |
| App.AppShell.HandleLike | App_new.js:115-125 | the posts become `ToggleLike` of the old ones |
| App.AppShell.HandleSave | App_new.js:128-134 | the posts become `ToggleSave` of the old ones |
| Interactive.SumAppend | src/components/InteractiveFeatures.js:181 | the left-fold total of a list with one more count is the old total plus it |
| Interactive.SeedTotalsAreSums | src/components/InteractiveFeatures.js:30-31 | the stored totals of the seed polls, 288 and 513, are the sums of their votes |
| Interactive.Percentage | src/components/InteractiveFeatures.js:187 | 0 when the total is not positive, else the share with `p * total == votes[i] * 100` |
| Interactive.SharesUpToIsPrefixShare | src/components/InteractiveFeatures.js:187 | the shares of the first k options are the share of their combined votes |
| Interactive.SharesSumTo100 | src/components/InteractiveFeatures.js:181-187 | with a positive total the shares add up to exactly 100 |
| Interactive.CountAtMostSum | src/components/InteractiveFeatures.js:181 | with non-negative counts each count lies between 0 and the total |
| Interactive.SumOfNonNegative | src/components/InteractiveFeatures.js:181 | non-negative counts have a non-negative total |
| Interactive.PercentageBounds | src/components/InteractiveFeatures.js:187 | with non-negative counts every share lies in [0, 100] |
| Interactive.Vote | src/components/InteractiveFeatures.js:173-179 | afterwards the poll is voted; a voted poll is unchanged; an unvoted one records the option |
| Interactive.VotedStaysPut | src/components/InteractiveFeatures.js:174 | a voted poll ignores any further taps |
| Interactive.FirstTapWins | src/components/InteractiveFeatures.js:173-179 | after any taps from the start, only the first is recorded |
| Interactive.PollCard.constructor | src/components/InteractiveFeatures.js:170-171 | nothing selected, not voted; the poll (and its vote counts) is a constant the card never changes |
| Interactive.PollCard.HandleVote | src/components/InteractiveFeatures.js:173-197 | the state becomes `Vote` of the old one and the options are disabled |
| Interactive.Answer | src/components/InteractiveFeatures.js:219-222 | the answer is recorded and the results show |
| Interactive.Press | src/components/InteractiveFeatures.js:237 | presses are ignored while results show; otherwise they answer |
| Interactive.Marks | src/components/InteractiveFeatures.js:232-234 | an option marked wrong is selected and not marked correct |
| Interactive.AnswerIsJudged | src/components/InteractiveFeatures.js:232-234 | after an answer an option is marked correct exactly when it is the correct answer, is selected exactly when it was chosen, and is marked wrong exactly when it was chosen and is not the correct answer |
| Interactive.NothingMarkedBeforeAnswer | src/components/InteractiveFeatures.js:232-234 | before an answer nothing is marked |
| Interactive.FirstAnswerStands | src/components/InteractiveFeatures.js:219-237 | after the first answer further presses change nothing |
| Interactive.QuizCard.constructor | src/components/InteractiveFeatures.js:216-217 | nothing selected, no results |
| Interactive.QuizCard.HandleAnswer | src/components/InteractiveFeatures.js:219-222 | the state becomes `Answer` of the old one and the options are disabled |
| Messages.AfterSend | src/screens/MessageScreen.js:132-142 | a blank draft changes nothing; otherwise exactly one message is appended after the unchanged earlier ones, with id length + 1, the untrimmed text, sender 'me' and unread |
| Messages.MockIdsSequential | src/screens/MessageScreen.js:92-122 | the seed ids are 1..4 |
| Messages.SendKeepsIdsSequential | src/screens/MessageScreen.js:135 | ids 1..n stay 1..n(+1), and so distinct |
| Messages.StoredUntrimmed | src/screens/MessageScreen.js:136 | `' hi '` is stored with its spaces |
| Messages.MessageScreen.constructor | src/screens/MessageScreen.js:127-128 | the seed messages and an empty draft |
| Messages.MessageScreen.EditDraft | src/screens/MessageScreen.js:128 | the draft is the typed text |
| Messages.MessageScreen.SendMessage | src/screens/MessageScreen.js:132-149 | the messages become `AfterSend` of the old ones; the draft is cleared exactly when it was not blank |
| Privacy.DefaultSettingsWellTyped | src/components/PrivacySettings.js:6-22 | the initial record holds every key with a value of its kind |
| Privacy.MockSettingsWellTyped | src/components/PrivacySettings.js:34-50 | the fetched record holds every key with a value of its kind |
| Privacy.AllKeysListed | src/components/PrivacySettings.js:6-22 | the fifteen keys of the record are all of them |
| Privacy.Update | src/components/PrivacySettings.js:55-58 | the key holds the value; every other key is as it was |
| Privacy.UpdateKeepsSchema | src/components/PrivacySettings.js:56 | a value of the key's kind keeps the record well-typed |
| Privacy.UpdateLastWins | src/components/PrivacySettings.js:56 | the later of two updates of one key wins |
| Privacy.UpdatesCommute | src/components/PrivacySettings.js:56 | updates of different keys commute |
| Privacy.UpdateWithCurrentValue | src/components/PrivacySettings.js:56 | writing back the current value changes nothing |
| Privacy.RemoveUser | src/components/PrivacySettings.js:307 | every occurrence of the name is removed and every other name kept |
| Privacy.RemoveUserKeepsOrder | src/components/PrivacySettings.js:307 | the other names keep their order; an absent name leaves the list unchanged |
| Privacy.RemoveUserIdempotent | src/components/PrivacySettings.js:307 | removing a name twice is removing it once |
| Privacy.TwoFactorToggle | src/components/PrivacySettings.js:60-73 | turning off is immediate; turning on happens only on confirm; cancel leaves the record |
| Privacy.PrivateAccountToggle | src/components/PrivacySettings.js:75-87 | confirm writes the negated flag; cancel leaves the record |
| Privacy.PrivateAccountDialog | src/components/PrivacySettings.js:77-80 | the dialog reads 'Private Account' exactly when confirming makes the account private |
| Privacy.PrivateToggleTwice | src/components/PrivacySettings.js:75-87 | two confirmed toggles restore a well-typed record |
| Privacy.TogglesTouchOnlyTheirSwitch | src/components/PrivacySettings.js:60-87 | each toggle keeps the record well-typed and changes no other key |
| Privacy.PrivacySettings.constructor | src/components/PrivacySettings.js:6-22 | the default record and no notifications |
| Privacy.PrivacySettings.FetchSettings | src/components/PrivacySettings.js:32-53 | the mock record |
| Privacy.PrivacySettings.UpdateSetting | src/components/PrivacySettings.js:55-58 | the record becomes `Update` of the old one, and the listener, if any, receives that same record |
| Privacy.PrivacySettings.RemoveFromList | src/components/PrivacySettings.js:306-331 | the list under the key loses the name, through `updateSetting` |
| Privacy.PrivacySettings.HandleTwoFactorToggle | src/components/PrivacySettings.js:60-73 | the record becomes `TwoFactorToggle` of the old one |
| Privacy.PrivacySettings.HandlePrivateAccountToggle | src/components/PrivacySettings.js:75-87 | the record becomes `PrivateAccountToggle` of the old one |
| Auth.SignUpCheck | src/components/AuthComponent.js:28-41 | missing fields exactly when email, password or user name is empty; then mismatch exactly when the passwords differ; then too short exactly under six characters; no error exactly when all pass |
| Auth.SignInCheck | src/components/AuthComponent.js:56-59 | no error exactly when email and password are filled in; otherwise missing fields |
| Auth.EmptyConfirmationIsAMismatch | src/components/AuthComponent.js:28-36 | an empty confirmation is caught by the mismatch check |
| Auth.SignUpStricterThanSignIn | src/components/AuthComponent.js:28-59 | whatever sign-up accepts, sign-in accepts |
| Auth.SignInHasNoLengthCheck | src/components/AuthComponent.js:56-59 | a one-character password passes sign-in but not sign-up |
| Auth.Outcome | src/components/AuthComponent.js:43-52 | a failed check ends the submission; success exactly when the checks pass and the call succeeds; a throw exactly when they pass and the call throws |
| Auth.AlertFor | src/components/AuthComponent.js:29-68 | no alert exactly after a throw or a successful sign-in; a 'Success' alert exactly on success; a failed check shows its own message and a refusal shows the backend's error |
| Auth.AuthForm.constructor | src/components/AuthComponent.js:10-14 | empty fields, not loading, no calls |
| Auth.AuthForm.HandleSignUp | src/components/AuthComponent.js:27-53 | the backend is called, with loading on, exactly when the checks pass; loading is off afterwards unless the call threw; the alert shown is `AlertFor` of the outcome |
| Auth.AuthForm.HandleSignIn | src/components/AuthComponent.js:55-70 | as sign-up, with the sign-in check; no alert on success |
| SignUp.Check | src/screens/SignUpScreen.js:22-36 | missing fields exactly when any of the five is empty; then mismatch; then too short; no error exactly when all pass |
| SignUp.SixCharactersSuffice | src/screens/SignUpScreen.js:33-36 | a matching six-character password passes, five characters do not |
| SignUp.AgreesWithComponent | src/screens/SignUpScreen.js:22-36 | the screen accepts exactly what the component accepts with confirmation and full name filled in |
| SignUp.SignUpScreen.constructor | src/screens/SignUpScreen.js:16-20 | empty fields, not signed in |
| SignUp.SignUpScreen.HandleSignUp | src/screens/SignUpScreen.js:22-40 | signed in exactly when every check passes; otherwise the first failure's alert |
| Profile.Toggle | src/components/UserProfile.js:35-45 | a thrown call changes nothing; any returned reply flips following; followers other than the viewer are preserved |
| Profile.ToggleMovesByOne | src/components/UserProfile.js:35-42 | an unfollow takes exactly one follower off, a follow adds exactly one |
| Profile.ToggleTwice | src/components/UserProfile.js:35-42 | follow then unfollow restores the state |
| Profile.FallbackUsername | src/components/UserProfile.js:90 | the display name, else the email prefix, else 'User'; never empty |
| Profile.FallbackUsernameExamples | src/components/UserProfile.js:90 | `jane@x.com` gives 'jane'; an address starting with '@' gives 'User' |
| Profile.FallbackProfile | src/components/UserProfile.js:89-97 | the fallback name, the fixed counts 1234, 567 and 42, not verified, the photo or a placeholder URL |
| Profile.ProfileCard.constructor | src/components/UserProfile.js:11-13 | no profile, not following, loading |
| Profile.ProfileCard.LoadUserProfile | src/components/UserProfile.js:20-28 | with a user, a successful reply is kept and loading ends; a thrown call leaves both; without a user nothing changes |
| Profile.ProfileCard.HandleFollowToggle | src/components/UserProfile.js:30-48 | nothing without user or profile; otherwise the state moves as `Toggle`, only the follower count of the profile changes, loading ends false, and an alert appears exactly when the call threw |
| HDImage.GetHDSource | src/components/HDImage.js:9-21 | a null source or missing or empty uri is returned as is; an Unsplash uri without `?ixlib=rb-` gets the HD parameters appended; others are unchanged; other fields are kept and the old uri is a prefix |
| HDImage.SuffixAddsNoMarker | src/components/HDImage.js:13-16 | the appended parameters cannot create `?ixlib=rb-` |
| HDImage.RewriteAppendsAgain | src/components/HDImage.js:13 | rewriting twice appends the parameters twice |
| HDImage.IxlibSourceUnchanged | src/components/HDImage.js:13-20 | a source with `?ixlib=rb-` is returned as is |
| Shopping.FindProduct | src/components/ShoppingFeatures.js:153 | the first product with the id, or none exactly when no product has it |
| Shopping.Wishlist | src/components/ShoppingFeatures.js:148-169 | at most one entry per saved id, each a product of the list |
| Shopping.WishlistConcat | src/components/ShoppingFeatures.js:152 | the wishlist of concatenated ids is the concatenation, so saved order is kept |
| Shopping.WishlistResolvesEveryId | src/components/ShoppingFeatures.js:152-153 | when every id resolves, entry i is the first match of saved id i |
| Shopping.WishlistSkipsMisses | src/components/ShoppingFeatures.js:153-165 | ids without a product contribute nothing |
| Shopping.MockWishlist | src/components/ShoppingFeatures.js:17-42 | with the mock data the wishlist is the denim jacket |
| Shopping.ProductTagger.constructor | src/components/ShoppingFeatures.js:122 | nothing tagged or reported |
| Shopping.ProductTagger.HandleProductTag | src/components/ShoppingFeatures.js:124-127 | exactly one entry appended, and the callback gets the same product and position |
| Shopping.ProductTagger.PressProduct | src/components/ShoppingFeatures.js:137 | the product is tagged at (0.5, 0.5) |
| Shopping.ShoppingPanel.constructor | src/components/ShoppingFeatures.js:8-12 | no products, no saved ids, shop off |
| Shopping.ShoppingPanel.FetchShoppingData | src/components/ShoppingFeatures.js:14-73 | the mock products and saved ids |
| Shopping.ShoppingPanel.ToggleShop | src/components/ShoppingFeatures.js:177 | the shop flag flips |
| Shopping.ShoppingPanel.ShownProducts | src/components/ShoppingFeatures.js:185 | nothing while the shop is off, else the products |
| Shopping.ShoppingPanel.ShownWishlist | src/components/ShoppingFeatures.js:185 | nothing while the shop is off, else the wishlist |
| Camera.Manipulations | src/components/AdvancedCamera.js:44-66 | an empty list exactly for values the switch does not know; at most two steps |
| Camera.MenuFiltersAreDistinct | src/components/AdvancedCamera.js:44-66 | distinct menu filters request distinct manipulations |
| Camera.NormalIsNeverAStoredValue | src/components/AdvancedCamera.js:17-41 | no menu entry stores 'Normal' |
| Camera.ApplyFilter | src/components/AdvancedCamera.js:40-75 | no filter, '' or 'Normal' returns the photo; otherwise the filter's manipulations at compression 0.8 in JPEG |
| Camera.Boomerang | src/components/AdvancedCamera.js:116 | twice as long, starting with the frames |
| Camera.BoomerangIsPalindrome | src/components/AdvancedCamera.js:116 | the clip is a palindrome |
| Camera.ReverseInPlace | src/components/AdvancedCamera.js:116 | the array afterwards is the reverse of before |
| Camera.FlipFlash | src/components/AdvancedCamera.js:156-160 | the other flash mode |
| Camera.FlipCamera | src/components/AdvancedCamera.js:208-212 | the other lens |
| Camera.FlashFlipTwice | src/components/AdvancedCamera.js:156-160 | two presses of the flash switch restore it |
| Camera.CameraFlipTwice | src/components/AdvancedCamera.js:208-212 | two presses of the lens switch restore it |
| Camera.AdvancedCamera.constructor | src/components/AdvancedCamera.js:12-31 | back lens, flash off, no filter, single mode, nothing collected |
| Camera.AdvancedCamera.ToggleFlash | src/components/AdvancedCamera.js:156-160 | the flash becomes `FlipFlash` of the old mode |
| Camera.AdvancedCamera.ToggleCameraType | src/components/AdvancedCamera.js:208-212 | the lens becomes `FlipCamera` of the old one |
| Camera.AdvancedCamera.ToggleMultiPhotoMode | src/components/AdvancedCamera.js:237 | multi-photo mode flips |
| Camera.AdvancedCamera.PickFilter | src/components/AdvancedCamera.js:181 | the selected filter is the entry's stored value |
| Camera.AdvancedCamera.TakePhoto | src/components/AdvancedCamera.js:77-91 | multi mode appends the processed photo and passes the earlier list on once it held nine or more; single mode passes the photo on; without a camera nothing happens |
| Camera.AdvancedCamera.CreateBoomerang | src/components/AdvancedCamera.js:108-119 | ten shots give the 20-frame `Boomerang` clip, stored and passed on |

## Left out

- Camera.AdvancedCamera.CreateBoomerang: requires a mounted camera view; `createBoomerang` has no null test, but its button is rendered only inside the mounted camera, so the unmounted case never reaches it.
- Rendering, styles, navigation and size constants are not modelled. They are presentation only.
- `AnalyticsDashboard.js`, `ProfileScreen.js` and `CameraScreen.js` are not part of this model. They hold mock data, tab switching and device I/O. `webpack.config.js` is build configuration.
- The backend module is not part of this model. That covers `createPost`, `getUserProfile`, `followUser`/`unfollowUser`, `signUpUser`/`signInUser`, `onAuthStateChange` and `signOutUser`. Each awaited call is a `Reply` parameter, and the handlers' effects after it are modelled.
- Calls into the parent (`onAuthSuccess`, `onPostCreated`, `onClose`, `onCapture`, `onSettingsChange`, `onProductTagged`) are recorded in logs or counters. What the parent does with them is not modelled.
- The clock is a parameter: message times and post timestamps. The 300 ms search delay and the scroll timer are left out, so `HandleSearch` ends with loading off.
- `Math.random` mock data and the `Math.round` display rounding of poll percentages are left out.
- Device I/O is left out: image picking, camera permissions, recording, AR filters and the image manipulator. `ApplyFilter` returns the manipulation request instead of calling the image manipulator. `AdvancedCamera.js` never imports the manipulator, so in the source any selected filter other than 'Normal' makes `takePhoto` throw.
- The text helpers differ from JavaScript in two ways:
  - `Text.Lower` lowers ASCII letters only. JavaScript `toLowerCase` also lowers non-ASCII letters.
  - String lengths count code points. JavaScript counts UTF-16 units, so the password-length checks differ for characters outside the BMP.
- The message input's `maxLength` of 500 is a property of the input widget and is not modelled.
- React's state batching and stale closures are not modelled. Each handler runs to completion against the current state.
  - `updateSetting` builds the record it passes to `onSettingsChange` from the `settings` captured at render time. Two updates before a re-render would each report only their own key; the model, which re-renders between handlers, reports the full updated record.
- Interactive.Percentage: requires the index to be in range of the vote list, because JavaScript's `undefined / total` is `NaN`. The seed polls have one count per option, and the model does not state that relation for arbitrary polls.
- Shopping.ShoppingPanel.FetchShoppingData: modelled as written, although the component never calls `fetchShoppingData`. As shipped, the product lists therefore stay empty.
- Profile.ProfileCard.LoadUserProfile: without a user, the source never clears `loading`. The model keeps that as written.
- The stories in `App_new.js` use `isOwn` and have no `isViewed`. Only the home screen's stories are modelled. The home screen's posts have no `isSaved`, so it stays false for them.
- Two stray source defects are not modelled because they carry no behaviour: the duplicated style block at the end of `SearchScreen.js` and the stray token after the component header of `PrivacySettings.js`.
- The multi-photo handler passes the list from before the new photo to `onCapture` and never clears the list. This is modelled as written.
