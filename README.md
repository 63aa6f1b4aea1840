# CloudMall: sign-in gate, onboarding consent and profile rules in Dafny

CloudMall is a React + Firebase web app: a "mall" for children where games and
shops are open to everyone, but saving a score, favouriting a shop or joining
in socially needs an account, and a new account needs a parent or guardian's
consent before the mall opens. This project models the logic behind that and
proves properties of it.

- **The sign-in gate** (`Interaction`, from `src/context/InteractionContext.jsx`).
  `requireAuth` either answers at once with the signed-in user, or opens the
  sign-in modal and queues the request. A later sign-in settles the whole
  queue with that user; dismissing the modal settles it with `null`. The class
  `InteractionGate` keeps the modal flag, the queue and the resolution of
  every request handed out.
- **The document store** (`DocStore`). Documents are addressed by
  (collection, id). `setDoc` replaces a document. `updateDoc` merges
  top-level fields into an existing document and fails when the document is
  missing. `increment(n)` adds to a numeric field and sets `n` otherwise.
- **The store operations** (`Firestore`, from `src/firebase/firestore.js`):
  - the case-insensitive word filter;
  - profile creation, with its area-id, avatar and onboarding defaults;
  - location updates;
  - onboarding consent;
  - activity points;
  - groups, with their activity threshold and verification badge;
  - video clips, reports, business applications and follows.
- **Sign-up** (`AuthFunctions`, from `src/firebase/authFunctions.js`). Its
  checks run in order: username, then location, then word filter. Only then
  is an account requested. The profile written afterwards has fixed initial
  values.
- **The consent modal** (`ConsentModal`, from `src/components/MallMapModal.jsx`).
  It runs its own ordered checks on trimmed answers, calls
  `completeOnboarding`, and closes only when that succeeds.
- **The home page** (`Home`, from `src/App.jsx`).
  - It reads the profile on every change of user and shows the consent modal
    when the profile exists and is not marked onboarded.
  - Results of stale reads are discarded.
  - The game and shop cards abort when the gate answers `null`.
- **The entrance form** (`AuthBoxForm`, from `src/components/AuthBox.jsx`).
  It has login and sign-up tabs and one submit handler with its own presence
  checks.

Supporting modules:

- `Wrappers`: `Option`, `Result`, `Outcome`.
- `Text`:
  - ASCII lower-casing;
  - `includes`;
  - `/w/i` matching;
  - `trim` over the ECMAScript white-space set;
  - decimal rendering of integers.
- `JsValue`: JavaScript values and their truthiness, `typeof … === "number"`,
  nullishness, `ToNumber` and `String()`.
- `Identity`: the signed-in user.

A thrown error is modelled as a `Fail`/`Failure` that carries the error's
message. Store writes made before the throw stay made, as they do in the
source.

Everything the program receives from outside is a parameter:

- the signed-in user;
- the answers of the sign-in service;
- the ids the store generates;
- the profile read's result;
- the random score;
- the current time (one `now` per operation).

Two behaviours of the code worth knowing, which the model follows:

- A user whose profile document does not exist is never shown the consent
  modal (`src/App.jsx:39` tests `data &&`).
- `completeOnboarding` may be called again and then overwrites the stored
  consent record.

Other behaviour of the code that the proofs make explicit:

- A profile with no `activityScore` passes the group threshold, because
  `undefined < 50` is false.
- Following a user whose `followers` is the list sign-up stores replaces
  that list by the number 1.
- Reporting content bumps a `reports` field and never the `reportCount`
  that sign-up initialises.

## Model

| member | source | states |
|---|---|---|
| Interaction.InteractionGate.constructor | src/context/InteractionContext.jsx:19-21 | the gate starts with the modal closed, nothing queued and nothing settled |
| Interaction.InteractionGate.RequireAuth | src/context/InteractionContext.jsx:38-51 | with a user: answers that user at once and changes nothing; without one: opens the modal, appends exactly one new request at the end of the queue, keeps earlier entries and settled answers; the modal stays open exactly while requests wait |
| Interaction.InteractionGate.OnUserOrQueueChange | src/context/InteractionContext.jsx:24-36 | with a user and a non-empty queue: every queued request resolves with that user, the queue empties and the modal closes; otherwise nothing changes; an earlier resolution is never altered; the modal stays open exactly while requests wait |
| Interaction.InteractionGate.Cancel | src/context/InteractionContext.jsx:53-62 | the modal closes, every queued request resolves with null, the queue empties, earlier resolutions are kept; the modal stays open exactly while requests wait |
| Interaction.SignedOutBurst | src/context/InteractionContext.jsx:24-51 | two requests made while signed out share one modal and one queue; the sign-in that follows resolves both with the same user and closes the modal, and a later request is answered at once |
| Interaction.InteractionGate.SettleQueue | src/context/InteractionContext.jsx:56-60 | the `forEach` over the queue resolves each queued request with the given value and touches no other request |
| Interaction.SettleAllEffect | src/context/InteractionContext.jsx:26-32 | settling a queue gives every queued id the value; every other id keeps whether and how it was settled |
| DocStore.Merge | src/firebase/firestore.js:116-126 | an update keeps every field it does not name, writes every field it names, and adds no other field |
| DocStore.Db.Read | src/App.jsx:34-36 | a read finds a document exactly when one is stored under that key, and then returns the stored document |
| DocStore.Db.SetDoc | src/firebase/firestore.js:79-84 | `setDoc` replaces exactly one document |
| DocStore.Db.UpdateDoc | src/firebase/firestore.js:89-95 | `updateDoc` fails on a missing document and writes nothing; otherwise it merges into that one document |
| Firestore.ModerateText | src/firebase/firestore.js:25-43 | throws (with the kid-friendly message) exactly when one of the four patterns matches, ignoring case; otherwise accepts |
| Firestore.NumericLatLngIsObject | src/firebase/firestore.js:61-63 | the coordinate test passes exactly for an object whose `lat` and `lng` are both numbers |
| Firestore.AreaIdIdentifiesCell | src/firebase/firestore.js:65-67 | for locations with numeric coordinates, two area ids are equal exactly when both `Math.floor(coordinate * 100)` values agree, i.e. the id names one 0.01-degree cell |
| Firestore.WithAreaId | src/firebase/firestore.js:59-68 | an area id is derived only when none is truthy and both coordinates are numbers; a supplied area id is kept |
| Firestore.WithDefault | src/firebase/firestore.js:70-77 | a default is filled in only for an undefined field; a supplied value, null included, is kept |
| Firestore.ProfilePayload | src/firebase/firestore.js:57-84 | the stored profile has every supplied field, `moderated = true` with its timestamp, the `createdAt` fallback, the three area-id cases, and `avatarId` null and `onboardingComplete` false only by default |
| Firestore.ProfilePayloadKeepsOthers | src/firebase/firestore.js:57-84 | every supplied field that is not normalised is stored unchanged, and no field beyond the supplied and normalised ones is stored |
| Firestore.CreateUserProfile | src/firebase/firestore.js:50-85 | a present username that the filter rejects means a failure and no write; otherwise exactly the normalised profile is written |
| Firestore.UpdateUserLocation | src/firebase/firestore.js:88-96 | a null or undefined location throws before any write; a missing profile fails; otherwise location, area id and timestamp are merged in |
| Firestore.OnboardingCheck | src/firebase/firestore.js:108-114 | passes exactly when supervision is confirmed and all three guardian fields are non-empty; supervision is checked first; whitespace-only answers pass |
| Firestore.CompleteOnboarding | src/firebase/firestore.js:99-127 | a failed check writes nothing; otherwise the consent record, `onboardingComplete = true` and `lastActive` are merged into an existing profile |
| Firestore.OnboardingEstablishesConsent | src/firebase/firestore.js:116-126 | after a successful onboarding the profile is complete, holds the submitted consent record, agrees with it, and every other field except `lastActive` is unchanged |
| Firestore.OtherUpdatesPreserveConsent | src/firebase/firestore.js:116-126 | an update that touches neither onboarding field keeps the completion flag in agreement with the consent record |
| Firestore.SecondOnboardingOverwrites | src/firebase/firestore.js:116-126 | a second onboarding replaces the first consent record |
| Firestore.UpdateActivityScore | src/firebase/firestore.js:130-135 | an existing profile gets `increment(points)` on its score and a new `lastActive`; a missing one fails with no write |
| Firestore.BumpsAccumulate | src/firebase/firestore.js:130-135 | n successive bumps of a numeric score add n times the points |
| Firestore.GroupCheck | src/firebase/firestore.js:160-174 | passes exactly when name and present description pass the filter and the user document exists with a score that is not below 50; a flagged name, or a flagged present description, fails with the moderation message whatever the score; clean texts with a missing user or a score below 50 get the activity message, and the activity message implies both texts passed |
| Firestore.CreateGroup | src/firebase/firestore.js:159-190 | a failed check writes nothing; otherwise one new group is written, owned by its creator, who is its only member, unverified and not pending |
| Firestore.GroupThreshold | src/firebase/firestore.js:170-174 | a numeric score opens the gate exactly at 50 or above, and so does a one-element array holding that number (`[10] < 50` compares 10); a missing user never does |
| Firestore.MissingScorePassesGate | src/firebase/firestore.js:170-174 | a profile without an activity score passes the gate |
| Firestore.UploadsUnlockGroups | src/firebase/firestore.js:257 | from a score of 0, at least ten clip uploads at 5 points each are exactly what opens the group gate |
| Firestore.VerificationCheck | src/firebase/firestore.js:213-223 | passes exactly for the owner of an existing group that is neither verified nor pending; a missing group or a non-owner gets the owner message, the owner of a verified group the already-verified message, and the owner of an unverified pending group the already-pending message |
| Firestore.ApplyForVerification | src/firebase/firestore.js:209-229 | the outcome is the ordered check on the group as read; a failure writes nothing; a success merges only `verificationPending = true` and its timestamp |
| Firestore.VerificationOncePerGroup | src/firebase/firestore.js:213-228 | a new group's creator may apply, nobody else may, and a second application fails as pending |
| Firestore.UploadVideoClip | src/firebase/firestore.js:236-260 | a rejected title or present description writes nothing; otherwise the clip is written and then 5 points are added, and a missing uploader profile fails with the clip already written |
| Firestore.ReportContent | src/firebase/firestore.js:279-294 | the report is filed, then the content's `reports` is incremented, and a missing content document fails with the report already filed |
| Firestore.ReportLeavesReportCount | src/firebase/firestore.js:291-293 | a report leaves `reportCount` unchanged and sets a missing `reports` to 1 |
| Firestore.ApplyForBusiness | src/firebase/firestore.js:301-321 | name, description and category are all moderated; a rejection writes nothing; otherwise one unapproved, pending business is written |
| Firestore.FollowEntity | src/firebase/firestore.js:356-375 | the follow is recorded, then the followed user or business is bumped (a missing one stops there), then the follower gains one point |
| Firestore.FollowReplacesFollowerList | src/firebase/firestore.js:366-371 | `increment(1)` on a follower list stores the number 1 |
| AuthFunctions.ModerateContent | src/firebase/authFunctions.js:11-31 | rejects exactly when the lower-cased `String(text \|\| "")` contains one of the four words |
| AuthFunctions.ModerationFiltersAgree | src/firebase/authFunctions.js:21-23 | the sign-up word filter and the store's pattern filter reject exactly the same texts |
| AuthFunctions.SignupCheck | src/firebase/authFunctions.js:42-57 | passes exactly for a non-empty username, a location with numeric coordinates and a clean username; an empty username gets the username message, a non-empty one with a bad location the location message, and a non-empty one with numeric coordinates that the filter rejects the moderation message |
| AuthFunctions.Signup | src/firebase/authFunctions.js:34-92 | an account is requested exactly when all checks pass; a failure is returned unchanged; the profile is written only for a created account, and the store never refuses it |
| AuthFunctions.SignupProfileAwaitsOnboarding | src/firebase/authFunctions.js:73-84 | the stored sign-up profile keeps the area id sign-up computed, is not onboarded, has no consent record, and its flag agrees with that |
| AuthFunctions.SignupProfileInitialValues | src/firebase/authFunctions.js:77-82 | a new profile has score 0, no follows either way and no reports |
| AuthFunctions.SignupProfileStatus | src/firebase/authFunctions.js:71-81 | a new profile is active and unverified, its avatar is the chosen one or null, and it is created and moderated now |
| ConsentModal.ConsentCheck | src/components/MallMapModal.jsx:38-53 | passes exactly when presence is confirmed and no answer is blank; presence, name, contact and id are checked in that order, each with its own message |
| ConsentModal.ModalConsentIsStoredConsent | src/components/MallMapModal.jsx:57-62 | answers that pass the modal also pass the store's check, and the stored record is a consent record with the trimmed answers |
| ConsentModal.ConsentForm.constructor | src/components/MallMapModal.jsx:16-21 | the form starts blank, not busy and without error |
| ConsentModal.ConsentForm.Open | src/components/MallMapModal.jsx:23-31 | opening clears presence, the three answers and the error |
| ConsentModal.ConsentForm.HandleComplete | src/components/MallMapModal.jsx:35-70 | a failed check shows its message, makes no store call and does not close; otherwise the trimmed answers are stored, and the form closes only if that succeeds, shows the generic message if not; a submission starts while not busy (the button is disabled otherwise) and every path ends not busy |
| Home.NeedsOnboarding | src/App.jsx:39 | no profile never needs the modal; a profile without the flag needs it; a profile with the flag needs it unless the flag is exactly `true` |
| Home.ModalDueIffNoConsent | src/App.jsx:39-43 | for a profile whose flag agrees with its record, the modal is due exactly when no consent is stored; an absent profile never needs it |
| Home.FreshSignupNeedsOnboarding | src/App.jsx:39-43 | the profile a sign-up stores makes the consent modal due |
| Home.ConsentEndsOnboarding | src/App.jsx:39-43 | after the modal's consent is stored the modal is not due, and stays so through updates to other fields |
| Home.HomeContent.constructor | src/App.jsx:22-23 | no profile and no modal at first |
| Home.HomeContent.RunProfileEffect | src/App.jsx:25-32 | every run supersedes the previous one; with no user the profile and the modal flag are cleared at once |
| Home.HomeContent.ModalShown | src/App.jsx:56 | the modal is rendered only for a signed-in user, and then exactly while `showOnboarding` is set |
| Home.HomeContent.FetchSettled | src/App.jsx:33-51 | a stale or failed read changes nothing; otherwise the profile is the read's data and the modal is shown exactly when that profile exists and is not onboarded |
| Home.HomeContent.CloseConsent | src/App.jsx:60 | closing the modal clears only the modal flag |
| Home.FirstVisitAfterSignup | src/App.jsx:25-61 | after sign-up and the profile read the consent modal is shown; completing consent succeeds and closes the form, the modal is hidden right after `onClose`, and the next read keeps it hidden |
| Home.SaveScoreAlert | src/App.jsx:263-269 | the sign-in reminder is shown exactly when the gate answered null; otherwise the alert names the user and the game |
| Home.FavoriteAlert | src/App.jsx:317-321 | nothing happens exactly when the gate answered null; otherwise the alert names the user and the shop |
| Home.DismissedSaveScore | src/App.jsx:264-266 | a signed-out save whose sign-in modal is dismissed ends in the sign-in reminder with the modal closed |
| AuthBoxForm.ErrorText | src/components/AuthBox.jsx:42 | the error shown is never empty, and is the thrown message whenever that is non-empty |
| AuthBoxForm.FormAndSignupChecksAgree | src/components/AuthBox.jsx:28-39 | sign-up's missing-username message never reaches the form by its checks; a pinned location without numeric coordinates gets sign-up's location message; a created account shows no error exactly when sign-up's checks pass |
| AuthBoxForm.AuthBox.constructor | src/components/AuthBox.jsx:10-17 | the form starts on the login tab, empty, with no location or avatar |
| AuthBoxForm.AuthBox.ShowLoginTab | src/components/AuthBox.jsx:74-77 | the login tab is selected and the error cleared |
| AuthBoxForm.AuthBox.ShowSignUpTab | src/components/AuthBox.jsx:85-88 | the sign-up tab is selected and the error cleared |
| AuthBoxForm.AuthBox.ToggleMode | src/components/AuthBox.jsx:198-201 | the mode flips and the error is cleared |
| AuthBoxForm.AuthBox.Pin | src/components/AuthBox.jsx:137-140 | the pinned location is stored and the error cleared |
| AuthBoxForm.AuthBox.ChooseAvatar | src/components/AuthBox.jsx:172 | the chosen avatar is stored |
| AuthBoxForm.AuthBox.HandleSubmit | src/components/AuthBox.jsx:19-46 | in login mode only login is called; in sign-up mode a missing username, then a missing location, stop with their message and no call; otherwise sign-up runs and its failure message is shown; the store changes only as sign-up changes it; busy ends false |
| Text.TestIgnoringCaseIsLowerIncludes | src/firebase/firestore.js:35 | a case-insensitive pattern test is substring search on the lower-cased texts |
| Text.TrimEmptyIffBlank | src/components/MallMapModal.jsx:42-53 | `!s.trim()` holds exactly for a string made only of white space |

## Left out

- Dotted field paths in `updateDoc` are not modelled: `Merge` treats every key as a top-level field. The code never passes a dotted key.
- Floating point: numbers are exact reals, so `Math.floor(lat * 100)` is the exact floor. IEEE rounding (77.6 * 100 is 7759.999…) is not modelled, and no concrete bucket is asserted for decimal inputs.
- Lower-casing covers ASCII letters only. Unicode case mapping is not modelled; the moderated words are all ASCII.
- `ToNumber` of a non-empty string is taken as NaN, and so is an array whose single element is such a string. Numeric and white-space-only strings are therefore not modelled where the code converts them: compared with `< 50` (`createGroup`'s activity gate) or multiplied into an area id (`Math.floor("12.9" * 100)`). The app itself never stores a score or a coordinate as a string.
- `String()` of a number is exact for an integer; for any other number it shows the number's floor, so -1.5 shows as "-2" where JavaScript prints "-1.5". `String()` of a date shows its milliseconds. JavaScript's number and date formatting is not modelled.
- Store failures other than a missing document (permissions, network, quota) are not modelled. The text of that error is modelled without the project path that the SDK puts in front of the document path.
- The query functions `getNearbyUsers`, `getNearbyGroups`, `getPopularClips`, `getBusinessesByCategory` and `searchUsers`: their filtering, ordering and limits are done by the store's query engine.
- `login` and `logout`: thin calls to the sign-in service, whose answers are parameters. `useAuth`, `AuthContext` and the Firebase configuration are not part of this model.
- React scheduling: each handler and effect is one atomic step. State batching, stale closures in `handleCancelAuthModal`, promise scheduling and the `useMemo` value are not modelled.
- The rendered markup and the files that only render or do browser I/O: `VoodooModel.jsx`, `BottomNav.jsx`, `PinLocationButton.jsx`, `AvatarPicker.jsx`, `AuthModal.jsx`. The `onChange` setters of the text inputs are plain field assignments.
- `GameCard.handlePlay` only shows an alert and needs no user.
- Timestamps: each operation reads the clock once, so `createdAt`, `moderatedAt` and `lastActive` written by one call are equal.
- `Firestore.UpdateActivityScore`: the default `points = 1` is not modelled; every caller passes the points explicitly.
- `AuthFunctions.Signup`: the email and password go only to the sign-in service, so they appear in the form's request but not in the model of `signup`.
