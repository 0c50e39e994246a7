# HobbyMeet front end in Dafny

HobbyMeet is a single-user social-discovery front end. People and meetups appear on a map and
can be filtered by hobby. This project models its logic and proves properties of that model:

- **Session store** (`UserContext`): the acting user's profile, the authenticated flag and
  the notification list, plus the browser slot the profile is saved in. Follow, unfollow, block
  and unblock are set operations on id lists, and blocking also unfollows. There are field
  setters, a shallow-merge profile update and mark-as-read. Login seeds a demo profile and
  logout restores the guest.
- **Discovery filtering**:
  - hobby filters use OR semantics, and an empty filter shows everything;
  - the map's hobby buttons are the distinct hobbies in first-occurrence order;
  - the hobby picker searches case-insensitively with duplicates removed;
  - toggling a hobby in or out of a list.
- **Meetup service stubs**: three fixed mock meetups, plus query, create and RSVP calls that
  answer from them.
- **Notifications**:
  - the relative-time label ("Just now", "Nm ago", "Nh ago", "Nd ago", or a calendar date);
  - the icon per type;
  - the unread badge, click-to-read and mark-all-as-read.
- **Forms and navigation**:
  - the create-meetup and report dialogs' submit guards and resets;
  - the profile page's edit/save switch;
  - the navigation bar's active-item rule and sign-out.

Each source module is one Dafny module. State that the source changes in place is a class:
- the store is `UserContext.UserStore`, whose methods update `currentUser`, `isAuthenticated`,
  `notifications` and `savedSlot`;
- the component states are `MapViewState`, `HobbyFilterView`, `ProfileEditor`,
  `NotificationCenterView`, `CreateMeetupForm`, `ReportForm` and `NavbarState`.

Pure derivations are functions, with lemmas relating them. The `forEach` loops of the
hobby-picker Clear and of mark-all-as-read are methods with loop invariants. Each is proved
against a fold function whose result is established by separate lemmas.

Conventions:
- Dates are whole milliseconds.
- The current time ("now") and the module load time are parameters.
- A field that is optional in the source is an `Option`.
- A string union is a datatype, with its tag and a parser back from the tag.
- Dafny's `/` with a positive divisor is `Math.floor` of the quotient, negative dividends
  included.
- The saved slot is the value `NothingStored`, `Unparseable` or `Stored(profile)`.

React applies each state update to the state the previous one left. Each operation is
therefore modelled as a step on the store's current state, and a sequence of calls as a
sequence of steps. The one place where this differs from the code as written is recorded under
Findings.

Points where the code differs from what its design suggests (the model follows the code):
- `followUser` never consults `blockedUsers`, so "followed and blocked are disjoint" is not an
  invariant of the store. Blocking establishes it (`Blocked`) and a later follow breaks it
  (`FollowAfterBlockKeepsBoth`).
- `createMeetup` always assigns id 4 (three mock meetups plus one). The id is fresh only with
  respect to the mock list (`CreatedIdsCollide`).
- `rsvpToMeetup` checks no capacity and records nothing.
- `getMeetupsByLocation` ignores position and radius.
- The create-meetup dialog validates and resets but does not call `createMeetup`.
- `isActive` is a plain prefix test, so `/explore` is also highlighted on `/explorer`
  (`IsActivePrefixCases`).

## Model

| member | source | states |
|---|---|---|
| `Types.ParsePrivacy` | src/types/user.ts:2 | a string names a privacy level exactly when it is one of the three tags, and the level named is the one with that tag |
| `Types.ParseRole` | src/types/user.ts:4 | a string names a role exactly when it is `free` or `premium` |
| `Types.ParseMeetupPrivacy` | src/types/user.ts:89 | a string names a meetup privacy exactly when it is `public`, `private` or `invite-only` |
| `Types.ParseNotificationType` | src/types/user.ts:123 | a string names a notification type exactly when it is one of the five tags |
| `Seqs.RemoveAll` | src/contexts/UserContext.tsx:142-147 | `filter(y => y !== x)`: `x` is gone, every other element is kept, nothing is added, and a list without `x` is returned unchanged |
| `Seqs.Toggle` | src/components/MapView.tsx:90-96 | toggling flips the membership of `x` and of no other element; an absent `x` is appended at the end of the unchanged list |
| `Seqs.ToggleKeepsOthersInOrder` | src/components/MapView.tsx:90-96 | the other elements keep their relative order: with `x` removed, the list before and the list after are the same |
| `Seqs.ToggleKeepsNoDup` | src/pages/Profile.tsx:63-69 | toggling never introduces a duplicate |
| `Seqs.ToggleTwice` | src/components/MapView.tsx:90-96 | toggling twice restores the members, and restores the identical list when `x` was absent |
| `Seqs.Dedup` | src/components/HobbyFilter.tsx:50 | the `indexOf` filter keeps each element once, loses none, and orders the kept elements by first occurrence |
| `Seqs.SetOrderIsDedup` | src/components/MapView.tsx:85-87 | `Array.from(new Set(s))` equals the first-occurrence deduplication of `s` |
| `Seqs.Flatten` | src/pages/Profile.tsx:71 | `flat()` holds exactly the elements of the lists |
| `Seqs.FlattenSplit` | src/pages/Profile.tsx:71 | in the flattening, each list appears whole, after every earlier list and before every later one |
| `UserContext.InitialUser` | src/contexts/UserContext.tsx:15-37 | the guest is id 0, "Guest User", without hobbies or bio, inactive, free, public, with empty id lists |
| `UserContext.DemoUser` | src/contexts/UserContext.tsx:240-269 | the login profile is id 1 with hobbies Photography, Hiking, Painting, inactive, free, public, with empty follow and block lists |
| `UserContext.SeedNotifications` | src/contexts/UserContext.tsx:275-296 | login seeds exactly two notifications, ids 1 and 2, both unread and owned by user 1 |
| `UserContext.AddId` | src/contexts/UserContext.tsx:126-134 | after following `id` the list exists and holds `id` plus exactly the previous members; the old list is a prefix; a list already holding `id` is unchanged; no duplicate is introduced |
| `UserContext.AddIdIdempotent` | src/contexts/UserContext.tsx:126-134 | following twice is following once |
| `UserContext.RemoveId` | src/contexts/UserContext.tsx:142-154 | after unfollowing or unblocking `id` it is absent, the other members stay in order, and an absent `id` changes nothing |
| `UserContext.RemoveIdIdempotent` | src/contexts/UserContext.tsx:176-188 | unblocking or unfollowing twice is doing it once |
| `UserContext.Blocked` | src/contexts/UserContext.tsx:156-167 | after blocking, `id` is blocked and not followed whatever the prior state; other ids keep their status; no other profile field changes |
| `UserContext.FollowAfterBlockKeepsBoth` | src/contexts/UserContext.tsx:126-134 | following a blocked id succeeds: the id is then both blocked and followed |
| `UserContext.MarkAsRead` | src/contexts/UserContext.tsx:215-223 | exactly the notifications with the id become read; length, order and every other field are kept; an unknown id changes nothing |
| `UserContext.MarkAsReadIdempotent` | src/contexts/UserContext.tsx:215-223 | marking the same id twice is marking it once |
| `UserContext.Merge` | src/contexts/UserContext.tsx:201-202 | `{ ...u, ...p }` is the patch `p` laid over the profile's own fields: each supplied field takes the patch's value and each other field keeps the profile's; an empty patch returns the profile |
| `UserContext.MergeLaws` | src/contexts/UserContext.tsx:201-202 | the shallow merge: an empty patch changes nothing, a patch applied twice acts once, two patches compose into one |
| `UserContext.EditPatchTouchesThreeFields` | src/pages/Profile.tsx:53-58 | saving the editor sets name, bio and privacy and keeps every other profile field |
| `UserContext.UserStore.Boot` | src/contexts/UserContext.tsx:69-80 | start-up adopts a parsable saved profile and signs in; no profile or an unparsable one leaves the guest signed out; the save rule then holds |
| `UserContext.UserStore.LoadSaved` | src/contexts/UserContext.tsx:69-80 | the load effect adopts exactly a parsable saved profile |
| `UserContext.UserStore.Persist` | src/contexts/UserContext.tsx:83-89 | the save effect: the slot holds the profile while authenticated and nothing otherwise |
| `UserContext.UserStore.SetCurrentUser` | src/contexts/UserContext.tsx:63 | replaces the profile wholesale, leaves the rest, and keeps the save rule |
| `UserContext.UserStore.UpdateUserHobbies` | src/contexts/UserContext.tsx:91-93 | replaces only the hobby list, without deduplication |
| `UserContext.UserStore.ToggleActiveStatus` | src/contexts/UserContext.tsx:95-97 | flips only `active`, so two calls restore it |
| `UserContext.UserStore.UpdatePrivacy` | src/contexts/UserContext.tsx:106-107 | replaces only the privacy level |
| `UserContext.UserStore.UpgradeUserRole` | src/contexts/UserContext.tsx:115-116 | replaces only the role |
| `UserContext.UserStore.FollowUser` | src/contexts/UserContext.tsx:126-134 | the following list becomes `AddId` of the old one; nothing else changes |
| `UserContext.UserStore.UnfollowUser` | src/contexts/UserContext.tsx:142-154 | the following list becomes `RemoveId` of the old one; nothing else changes |
| `UserContext.UserStore.BlockUser` | src/contexts/UserContext.tsx:156-167 | the profile becomes `Blocked` of the old one: blocked and unfollowed |
| `UserContext.UserStore.UnblockUser` | src/contexts/UserContext.tsx:176-188 | the block list becomes `RemoveId` of the old one; nothing else changes |
| `UserContext.UserStore.ReportUser` | src/contexts/UserContext.tsx:190-199 | emits one report carrying the user, reason and description, and changes no state |
| `UserContext.UserStore.UpdateProfile` | src/contexts/UserContext.tsx:201-202 | the profile becomes the shallow merge of the old profile and the patch |
| `UserContext.UserStore.GetNotifications` | src/contexts/UserContext.tsx:210-213 | returns the stored list |
| `UserContext.UserStore.MarkNotificationAsRead` | src/contexts/UserContext.tsx:215-223 | the list becomes `MarkAsRead` of the old list; profile, flag and slot are untouched |
| `UserContext.UserStore.SendMessage` | src/contexts/UserContext.tsx:225-235 | always reports success |
| `UserContext.UserStore.Login` | src/contexts/UserContext.tsx:238-304 | succeeds, signs in, installs the demo profile and the two seeded notifications, and saves |
| `UserContext.UserStore.Logout` | src/contexts/UserContext.tsx:306-309 | restores the guest, signs out, empties the notifications and clears the slot |
| `MeetupService.MockMeetups` | src/services/meetupService.ts:5-59 | three mock meetups with ids 1, 2, 3 |
| `MeetupService.MockMeetupsConsistent` | src/services/meetupService.ts:5-59 | in the mock data every host attends, no cap is exceeded, and the real-time meetup has no end time |
| `MeetupService.MatchingMeetups` | src/services/meetupService.ts:72-74 | a meetup is kept exactly when it shares a hobby with the filter; the result is an order-preserving subsequence |
| `MeetupService.MatchingMeetupsByMembers` | src/services/meetupService.ts:72-74 | the result depends on the filter only through its members |
| `MeetupService.GetMeetupsByHobbies` | src/services/meetupService.ts:67-75 | an empty filter returns the whole mock list in order; otherwise OR-matching as above |
| `MeetupService.GetMeetupsByLocation` | src/services/meetupService.ts:61-65 | the whole mock list, whatever the position and radius |
| `MeetupService.CreateMeetup` | src/services/meetupService.ts:77-89 | every supplied field is copied, the id is the mock count plus one (used by no mock meetup), and the creation time is the call time |
| `MeetupService.CreatedIdsCollide` | src/services/meetupService.ts:77-89 | every created meetup gets id 4 |
| `MeetupService.RsvpToMeetup` | src/services/meetupService.ts:91-95 | always succeeds |
| `MapView.MockUsers` | src/components/MapView.tsx:11-57 | five people on the map |
| `MapView.UsersPassing` | src/components/MapView.tsx:79-82 | a person passes exactly when the filter is empty or shares a hobby with them; the result keeps the order of the input |
| `MapView.FilteredUsers` | src/components/MapView.tsx:79-82 | an empty filter shows all mock people; otherwise exactly those sharing a hobby with the filter, in mock order |
| `MapView.UsersPassingByMembers` | src/components/MapView.tsx:79-82 | who is visible depends on the filter only through its members |
| `MapView.ToggleTwiceKeepsVisible` | src/components/MapView.tsx:90-96 | toggling a filter hobby twice leaves the same people visible |
| `MapView.Passes` | src/components/MapView.tsx:79-82 | everyone passes an empty filter; otherwise a person passes exactly when one of their hobbies is in the filter |
| `MapView.DistinctHobbies` | src/components/MapView.tsx:85-87 | `Array.from(new Set(...))` over everyone's hobbies is the first-occurrence deduplication of the flattened lists |
| `MapView.AllHobbies` | src/components/MapView.tsx:85-87 | the map's hobby buttons hold no duplicates and exactly the hobbies some mock person has |
| `MapView.DistinctHobbiesSpec` | src/components/MapView.tsx:85-87 | the hobby buttons hold no duplicates, exactly the hobbies some person has, in order of first appearance |
| `MapView.MapViewState.constructor` | src/components/MapView.tsx:65-67 | the view starts loading, with an empty filter |
| `MapView.MapViewState.FinishLoading` | src/components/MapView.tsx:70-73 | the timer clears the loading flag; no method sets it back |
| `MapView.MapViewState.ToggleHobbyFilter` | src/components/MapView.tsx:90-96 | the filter becomes its toggle by the hobby |
| `HobbyFilter.ParseTab` | src/components/HobbyFilter.tsx:13-19 | a category id names a tab exactly when it is one of the five ids |
| `HobbyFilter.LowerChar` | src/components/HobbyFilter.tsx:48 | upper-case ASCII letters map to their lower-case letters; every other character is kept |
| `HobbyFilter.Lower` | src/components/HobbyFilter.tsx:48 | lower-casing keeps length and lower-cases each character |
| `HobbyFilter.LowerIdempotent` | src/components/HobbyFilter.tsx:48 | lower-casing twice is lower-casing once |
| `HobbyFilter.Includes` | src/components/HobbyFilter.tsx:48 | the empty term occurs in every string; a term occurs only in strings at least as long; in a string of its own length exactly when the two are equal |
| `HobbyFilter.IncludesIff` | src/components/HobbyFilter.tsx:48 | `includes` holds exactly when the term occurs at some position |
| `HobbyFilter.MatchesTerm` | src/components/HobbyFilter.tsx:48 | a hobby matches exactly when the lower-cased term occurs at some position of the lower-cased hobby; the empty term matches every hobby |
| `HobbyFilter.MatchesTermCaseBlind` | src/components/HobbyFilter.tsx:48 | whether a hobby matches does not depend on the case of the term |
| `HobbyFilter.Matching` | src/components/HobbyFilter.tsx:45-49 | the filter keeps exactly the hobbies that contain the term case-insensitively, in their order |
| `HobbyFilter.MatchingKeepsFirstOrder` | src/components/HobbyFilter.tsx:45-50 | filtering keeps the relative order of first occurrences |
| `HobbyFilter.FilteredHobbies` | src/components/HobbyFilter.tsx:44-51 | no term shows the active tab's list; a term shows each category hobby containing it case-insensitively, once, and nothing else |
| `HobbyFilter.SearchResultOrder` | src/components/HobbyFilter.tsx:45-50 | search results follow first-occurrence order across the flattened categories |
| `HobbyFilter.ClearControl` | src/components/HobbyFilter.tsx:61-70 | Clear, with the selection count, is offered exactly when something is selected |
| `HobbyFilter.HobbyFilterView.constructor` | src/components/HobbyFilter.tsx:40-41 | the picker starts with no term on the popular tab, showing the popular list |
| `HobbyFilter.HobbyFilterView.SetSearchTerm` | src/components/HobbyFilter.tsx:80 | typing replaces the term |
| `HobbyFilter.HobbyFilterView.SetActiveTab` | src/components/HobbyFilter.tsx:123 | choosing a tab replaces the active tab |
| `HobbyFilter.HobbyFilterView.ClearSearch` | src/components/HobbyFilter.tsx:82-87 | the X button empties the term, hides itself and shows the active tab's list again |
| `ProfilePage.CategoryLists` | src/pages/Profile.tsx:17-41 | the seven category lists in declaration order |
| `ProfilePage.AllHobbies` | src/pages/Profile.tsx:71 | the catalogue holds exactly the hobbies some category lists |
| `ProfilePage.CatalogueMembership` | src/pages/Profile.tsx:71 | a hobby is in the flattened category lists exactly when some category lists it |
| `ProfilePage.AllHobbiesInDeclarationOrder` | src/pages/Profile.tsx:71 | the catalogue is the category lists concatenated in declaration order, and holds exactly their hobbies |
| `ProfilePage.TogglePrefixLeavesSuffix` | src/components/HobbyFilter.tsx:53-55 | with no hobby listed twice, toggling the first `i` selected hobbies in turn leaves the rest |
| `ProfilePage.ClearEmptiesHobbies` | src/components/HobbyFilter.tsx:53-55 | with no hobby listed twice, toggling every selected hobby in turn empties the selection |
| `ProfilePage.ClearRemovesControl` | src/components/HobbyFilter.tsx:61 | Clear is offered exactly for a non-empty selection and is no longer offered after it runs |
| `ProfilePage.ClearAsWritten` | src/components/HobbyFilter.tsx:53-55 | Clear as written on the profile page: every toggle is computed from the hobby list of the same render, so the user is left with that list toggled by the last selected hobby (the list itself when nothing is selected); the rest of the store is kept and the save rule still holds |
| `ProfilePage.ClearAsWrittenKeepsHobby` | src/components/HobbyFilter.tsx:53-55 | as written, clearing Hiking and Yoga leaves Hiking; toggled in turn, the selection is emptied |
| `ProfilePage.ProfileEditor.constructor` | src/pages/Profile.tsx:45-48 | the editor starts closed with the user's name and privacy, and the user's bio or `''` |
| `ProfilePage.ProfileEditor.SetName` | src/pages/Profile.tsx:107 | editing the name replaces it |
| `ProfilePage.ProfileEditor.SetBio` | src/pages/Profile.tsx:148 | editing the bio replaces it |
| `ProfilePage.ProfileEditor.SetPrivacy` | src/pages/Profile.tsx:180-194 | editing the privacy replaces it |
| `ProfilePage.ProfileEditor.ToggleEditing` | src/pages/Profile.tsx:50-61 | the mode always flips; leaving edit mode saves name, bio and privacy and keeps every other field and the notifications; entering it leaves the store untouched |
| `ProfilePage.ToggleHobby` | src/pages/Profile.tsx:63-69 | the user's hobbies become their toggle by `h`, through `updateUserHobbies` |
| `ProfilePage.ClearSelectedHobbies` | src/components/HobbyFilter.tsx:53-55 | Clear on the profile page, each toggle reading the list the previous one left: the hobbies become every selected hobby toggled in turn, and the rest of the store and the save rule are kept; without duplicates the user is left with no hobbies |
| `NotificationItem.FormatTime` | src/components/notifications/NotificationItem.tsx:40-65 | the five buckets are exclusive and exhaustive: under a minute (also negative) "Just now"; minutes 1..59; hours 1..23; days 1..6; a week or more gives the calendar date; each count is the floored quotient |
| `NotificationItem.Stage` | src/components/notifications/NotificationItem.tsx:40-65 | buckets are ranked 0..4 in ageing order |
| `NotificationItem.FormatTimeMonotone` | src/components/notifications/NotificationItem.tsx:40-65 | as time passes, a label never returns to an earlier bucket and its count never decreases |
| `NotificationItem.NatToString` | src/components/notifications/NotificationItem.tsx:49-57 | a count is written as a non-empty string of decimal digits, one digit exactly below ten, never with a leading zero |
| `NotificationItem.NatToStringValue` | src/components/notifications/NotificationItem.tsx:49-57 | reading the decimal text back gives the count |
| `NotificationItem.LabelText` | src/components/notifications/NotificationItem.tsx:45-58 | "Just now" for the first bucket; each count bucket reads as its count in decimal followed by "m ago", "h ago" or "d ago"; no text for a calendar date (left to the locale) |
| `NotificationItem.CountTextSaysCount` | src/components/notifications/NotificationItem.tsx:49-57 | the decimal text of a count followed by a unit reads back as that count and that unit |
| `NotificationItem.LabelTextOfRecent` | src/components/notifications/NotificationItem.tsx:45-58 | every label under a week old has a text ending in its unit |
| `NotificationItem.GetIcon` | src/components/notifications/NotificationItem.tsx:24-37 | the bell is used exactly for `reminder` |
| `NotificationItem.GetIconInjective` | src/components/notifications/NotificationItem.tsx:24-37 | no two notification types share an icon |
| `NotificationItem.View` | src/components/notifications/NotificationItem.tsx:67-114 | background, icon circle and dot mark a row exactly while it is unread |
| `NotificationCenter.Unread` | src/components/notifications/NotificationCenter.tsx:23 | keeps exactly the unread notifications, in their order, as a subsequence of the list |
| `NotificationCenter.UnreadCount` | src/components/notifications/NotificationCenter.tsx:23 | exactly the number of positions holding an unread notification; at most the list length, and zero exactly when everything is read |
| `NotificationCenter.UnreadLength` | src/components/notifications/NotificationCenter.tsx:23 | the filtered list is as long as the number of unread positions |
| `NotificationCenter.UnreadAppend` | src/components/notifications/NotificationCenter.tsx:23 | filtering a concatenation is concatenating the filtered parts |
| `NotificationCenter.UnreadCountMonotone` | src/components/notifications/NotificationCenter.tsx:23 | reading more notifications never raises the count |
| `NotificationCenter.MarkAsReadNeverRaisesCount` | src/components/notifications/NotificationCenter.tsx:25-30 | a click never raises the unread count |
| `NotificationCenter.Ids` | src/components/notifications/NotificationCenter.tsx:33-35 | the ids of the list, position by position |
| `NotificationCenter.MarkIdsPrefix` | src/components/notifications/NotificationCenter.tsx:33-35 | after the first `k` ids are marked, the first `k` notifications are read and the list is otherwise unchanged |
| `NotificationCenter.MarkAllReadsAll` | src/components/notifications/NotificationCenter.tsx:32-35 | marking all reads every notification, keeps length, order and other fields, and brings the count to zero |
| `NotificationCenter.Badge` | src/components/notifications/NotificationCenter.tsx:43-47 | the badge is shown, with the count, exactly while something is unread |
| `NotificationCenter.MarkAllHidesControls` | src/components/notifications/NotificationCenter.tsx:64-73 | after mark-all neither the badge nor the control is shown |
| `NotificationCenter.NotificationCenterView.constructor` | src/components/notifications/NotificationCenter.tsx:19 | the popover starts closed |
| `NotificationCenter.NotificationCenterView.SetOpen` | src/components/notifications/NotificationCenter.tsx:39 | the popover follows its open-change events |
| `NotificationCenter.NotificationCenterView.ViewAll` | src/components/notifications/NotificationCenter.tsx:104-111 | "View all" closes the popover |
| `NotificationCenter.NotificationCenterView.HandleNotificationClick` | src/components/notifications/NotificationCenter.tsx:25-30 | marks exactly the clicked id read, closes the popover, and lowers or keeps the count |
| `NotificationCenter.NotificationCenterView.HandleMarkAllAsRead` | src/components/notifications/NotificationCenter.tsx:32-35 | marks each listed notification in turn: all read, same length, order and fields, count zero |
| `CreateMeetupModal.Validate` | src/components/CreateMeetupModal.tsx:31-53 | "Missing information" exactly when a text field is empty; "Missing date" exactly when the fields are filled and a scheduled meetup has no date; otherwise success of the chosen kind |
| `CreateMeetupModal.FieldsCheckedBeforeDate` | src/components/CreateMeetupModal.tsx:31-47 | with a field empty, neither kind nor date changes the outcome; a real-time meetup never depends on the date |
| `CreateMeetupModal.ToastFor` | src/components/CreateMeetupModal.tsx:32-53 | the two failures show destructive toasts and success does not |
| `CreateMeetupModal.SuccessToastByKind` | src/components/CreateMeetupModal.tsx:50-53 | the success toast depends only on whether the meetup is real-time, and differs between the two kinds |
| `CreateMeetupModal.CreateMeetupForm.constructor` | src/components/CreateMeetupModal.tsx:23-27 | the form starts blank |
| `CreateMeetupModal.CreateMeetupForm.SetTitle` | src/components/CreateMeetupModal.tsx:79 | typing replaces the title |
| `CreateMeetupModal.CreateMeetupForm.SetDescription` | src/components/CreateMeetupModal.tsx:89 | typing replaces the description |
| `CreateMeetupModal.CreateMeetupForm.SetLocation` | src/components/CreateMeetupModal.tsx:102 | typing replaces the location |
| `CreateMeetupModal.CreateMeetupForm.SetDate` | src/components/CreateMeetupModal.tsx:148-149 | picking replaces the date |
| `CreateMeetupModal.CreateMeetupForm.SetRealTime` | src/components/CreateMeetupModal.tsx:111-126 | the two kind buttons set the real-time flag |
| `CreateMeetupModal.CreateMeetupForm.HandleSubmit` | src/components/CreateMeetupModal.tsx:29-64 | the outcome is `Validate` of the fields; a failure changes nothing and keeps the dialog open; success resets every field and requests closing |
| `ReportModal.ReportReasons` | src/components/modals/ReportModal.tsx:29-36 | six reasons are offered |
| `ReportModal.SubmitEnabled` | src/components/modals/ReportModal.tsx:113 | the button is disabled exactly when no reason is picked or a submission is running |
| `ReportModal.OfferedReasonsEnableSubmit` | src/components/modals/ReportModal.tsx:79-90 | any offered reason enables the button of an idle form |
| `ReportModal.ReportForm.constructor` | src/components/modals/ReportModal.tsx:45-47 | the form starts with no reason, no description, not submitting |
| `ReportModal.ReportForm.SetReason` | src/components/modals/ReportModal.tsx:79 | picking replaces the reason |
| `ReportModal.ReportForm.SetDescription` | src/components/modals/ReportModal.tsx:99 | typing replaces the description |
| `ReportModal.ReportForm.HandleSubmit` | src/components/modals/ReportModal.tsx:49-62 | no reason means no report and no change; otherwise exactly one report with the form's values, then reset, not submitting, and closed |
| `Navbar.NavItems` | src/components/Navbar.tsx:17-22 | four items, the first one the root |
| `Navbar.StartsWith` | src/components/Navbar.tsx:26 | `startsWith` holds exactly when the prefix is no longer than the path and agrees with it character by character |
| `Navbar.IsActive` | src/components/Navbar.tsx:24-28 | the root item is active exactly on `/`; any other item exactly on paths that start with its own; nothing else |
| `Navbar.IsActivePrefixCases` | src/components/Navbar.tsx:26 | deeper paths and paths that merely extend an item's path also highlight it; the root and other items never highlight each other's paths |
| `Navbar.AtMostOneNavItemActive` | src/components/Navbar.tsx:17-28 | no two bar items are highlighted at once |
| `Navbar.NavbarState.constructor` | src/components/Navbar.tsx:15 | the mobile sheet starts closed |
| `Navbar.NavbarState.SetOpen` | src/components/Navbar.tsx:37 | the sheet follows its open-change events |
| `Navbar.NavbarState.HandleNavigation` | src/components/Navbar.tsx:30-32 | following a link closes the sheet |
| `Navbar.NavbarState.SignOut` | src/components/Navbar.tsx:93-103 | sign-out logs out (guest, signed out, no notifications, slot cleared), closes the sheet, and is then no longer offered |

## Left out

- Toasts are an external UI hook. The create-meetup dialog's toasts are modelled as values with
  their titles, descriptions and variant (`ToastFor`); how a toast is displayed, and the toasts of
  other components, are not modelled.
- The browser storage and JSON are not modelled. The saved slot is the value
  `NothingStored | Unparseable | Stored(profile)`, and a parse failure leaves the guest in place.
- The clock (`new Date()`, `Date.now()`) is a parameter (`now`, `loadTime`). Formatting a
  calendar date (`toLocaleDateString`) is left to the locale: `FormatTime` records only that
  this branch is taken, and the timestamp.
- `toLowerCase` is full Unicode; `HobbyFilter.Lower` folds ASCII letters only.
- React batching and stale closures: operations are applied one after another, each to the
  state the previous one left (see Findings for the place where this matters).
- Timers and animation (`setTimeout` in the map view, transitions) are not modelled; the timer
  firing is the `FinishLoading` step.
- Marker pixel positions and map coordinates are floating-point layout and are not modelled.
  Coordinates are kept as data only.
- The line `reportUser` writes to the console is modelled by the `Report` value `ReportUser`
  returns. The console logging in `sendMessage` and in the notification click, and navigation
  through links, are not modelled.
- The presentational components (`Explore`, `Features`, `PremiumModal`, `UserProfile`, the map
  markers and controls, `AnimatedTransition`, `App`, `Index`, `UserProfileModal`,
  `LoadingOverlay`) and the theme context are not part of this model.
- `HobbyFilter.HobbyFilterView.SetActiveTab`: the active tab is a string in the source but a
  `Tab` here, because the tab list only hands out the five category ids.
- `MapView.MapViewState`: the selected person on the map (`selectedUser`) is not modelled.

## Findings

| source | as written | input that shows it | evidently intended | confidence | as-written member | corrected member |
|---|---|---|---|---|---|---|
| src/components/HobbyFilter.tsx:53-55 | Clear calls `onHobbyToggle` once per selected hobby, and on the profile page that is `toggleHobby` (src/pages/Profile.tsx:63-69). It computes the new list from the `currentUser` of the current render. All calls in one click read the same list, and each update replaces the hobby list, so only the last toggle takes effect. | selected hobbies `["Hiking", "Yoga"]`: Clear leaves `["Hiking"]` | each toggle applies to the list the previous one left, so Clear empties a selection without duplicates | high that the closure is stale; not executed | `ProfilePage.ClearAsWritten` (witness `ProfilePage.ClearAsWrittenKeepsHobby`) | `ProfilePage.ClearSelectedHobbies` with `ProfilePage.ClearEmptiesHobbies` |
