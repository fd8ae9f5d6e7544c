# Voting wizard model

A Dafny model of the client side of a demo voting application (React, TypeScript). A voter
moves through five pages:

1. Identity and OTP verification.
2. A face scan and a retina scan.
3. A privacy check and the ballot.
4. Confirmation.
5. A receipt.

Three React contexts hold the state the pages share:

- the session store (`voter data`, `biometric data`, `vote`, `privacy check`), mirrored into `localStorage` under `voting_data`;
- the demo authentication, under `voting_user`;
- the language choice, under `voting_language`.

How the source maps onto Dafny:

- Browser storage is the class `Storage.LocalStorage`. It holds one map from keys to typed items.
- Each context is a class whose fields are its React state. Its setters are methods that update the fields and the shared storage together.
- Each page is a class whose fields are its `useState` variables. Its handlers are methods.
- Every `await` delay or `setTimeout` in a handler becomes one atomic transition. The page is observed only between handlers.
- `Date.now()` is a `Timestamp` parameter `now`, a count of milliseconds.
- Each `Math.random()` is a real in `[0, 1)` taken from a sequence of draws.

The two copies of the authentication context differ only in logging, so one module `Auth` models both. The two biometric scan pages differ in behaviour, so each has its own module:

- `pages/BiometricScanPage.tsx` uses the camera API (`BiometricFlow`).
- `src/BiometricScanPage.tsx` simulates the camera (`LegacyBiometricFlow`).

What is proved, in brief:

- **Session store.** Every setter changes exactly one field. It merges that field into the stored record and keeps memory and storage in step (`Synced`). A store re-initialised from storage reads back what was set. Saving is idempotent.
- **Authentication.**
  - Login succeeds for exactly the three demo pairs.
  - Logout removes both storage keys but leaves the session store's memory untouched, so memory and storage disagree afterwards exactly when the store held any of its four fields.
- **Language.**
  - Translation falls back to the key.
  - Both tables define the same keys.
  - The toggle flips the language, and toggling twice restores it.
- **Pages.**
  - The login, biometric and voting pages each keep an invariant `Valid()`. For example, the OTP step is reached only after verification, the scans only with the camera on, and the ballot only through a passed privacy check. The confirmation and receipt pages hold only navigation and the shown hash, so they need none.
  - Every page handler states the new value of each page field, either directly or through `Valid()`, and what it writes to the store.
- **Scan loops.** The progress loops are `while` loops proved against `Schedule`:
  - the face scan shows 0, 10, …, 100;
  - the retina scan shows 0, 15, …, 90 and never reaches 100.
- **Vote id.** The id is `"VT"` followed by the last eight decimal digits of `now`, which denote `now mod 10^8`. This is proved through a decimal round trip.
- **Hash.** The receipt's hash loop is proved equal to the confirmation page's hash expression.
- **Candidate lists.** The confirmation page's list disagrees with the ballot's. Every candidate is shown under another party, and two under another name.
- **End to end.** `Wizard.CastConfirmAndReceive` runs the ballot, the confirmation and the receipt over one store. It ends with a stored confirmed vote for the chosen candidate and a receipt that names that candidate.

In three places the code departs from what the application evidently intends, and the model follows the code:

- Logout clears only storage, not the in-memory session (`Auth.LogoutKeepsSessionInMemory`).
- The confirmation page carries its own candidate list (`Candidates.ConfirmationDisagrees`).
- The hash shown on the receipt is drawn again by the receipt page. It is not the hash logged on confirmation (`Wizard.CastConfirmAndReceive`).

## Model

| member | source | states |
|---|---|---|
| Session.Merge | my-voting-app/src/contexts/VotingContext.tsx:31-34 | the merged record has the old fields plus the saved one, the saved field holds the new value, and every other field keeps its value |
| Session.SaveTouchesOnlyVotingData | my-voting-app/src/contexts/VotingContext.tsx:31-34 | saving a field (`Saved`, the stored record `SavedRecord` merged with the field) leaves every storage key other than `voting_data` as it was, present or absent |
| Session.SaveMerges | my-voting-app/src/contexts/VotingContext.tsx:31-34 | after a save the saved field reads back (`SavedField`) as the new value and every other field reads back as before |
| Session.SaveIdempotent | my-voting-app/src/contexts/VotingContext.tsx:31-34 | saving the same value twice leaves storage exactly as saving it once |
| Session.NothingSavedLoadsNothing | my-voting-app/src/contexts/VotingContext.tsx:11-29 | without a `voting_data` entry all four initialisers (`LoadVoterData`, `LoadBiometricData`, `LoadVote`, `LoadPrivacyCheck`, lines 12-28) give null |
| Session.ReloadAfterSetVoterData | my-voting-app/src/contexts/VotingContext.tsx:36-39 | a store initialised from storage after setVoterData reads that voter data and the other three fields as before |
| Session.ReloadAfterSetBiometricData | my-voting-app/src/contexts/VotingContext.tsx:41-44 | the same for setBiometricData |
| Session.ReloadAfterSetVote | my-voting-app/src/contexts/VotingContext.tsx:46-49 | the same for setVote |
| Session.ReloadAfterSetPrivacyCheck | my-voting-app/src/contexts/VotingContext.tsx:51-54 | the same for setPrivacyCheck |
| Session.VotingProvider.constructor | my-voting-app/src/contexts/VotingContext.tsx:11-29 | each field starts as the stored record's entry or null, so memory and storage agree |
| Session.VotingProvider.SaveToLocalStorage | my-voting-app/src/contexts/VotingContext.tsx:31-34 | storage becomes the old record merged with the one field |
| Session.VotingProvider.SetVoterData | my-voting-app/src/contexts/VotingContext.tsx:36-39 | the voter data is set, the other fields are unchanged, storage gets the merged record, and agreement of memory and storage is kept |
| Session.VotingProvider.SetBiometricData | my-voting-app/src/contexts/VotingContext.tsx:41-44 | the same for the biometric data |
| Session.VotingProvider.SetVote | my-voting-app/src/contexts/VotingContext.tsx:46-49 | the same for the vote |
| Session.VotingProvider.SetPrivacyCheck | my-voting-app/src/contexts/VotingContext.tsx:51-54 | the same for the privacy check |
| Session.VotingProvider.ResetVotingData | my-voting-app/src/contexts/VotingContext.tsx:56-62 | all four fields become null, only `voting_data` is removed from storage, and memory and storage agree |
| Auth.FindCredential | my-voting-app/src/contexts/AuthContext.tsx:27-29 | a credential is found exactly when the username and password pair is in the list, and the one found is that pair |
| Auth.DemoPairsExactly | my-voting-app/src/contexts/AuthContext.tsx:8-12 | a pair is accepted (`IsDemoPair`, a `find` over the list) if and only if it is admin/admin123, voter1/vote123 or demo/demo123 |
| Auth.SavedUser | my-voting-app/src/contexts/AuthContext.tsx:19-22 | the initial user is the stored `voting_user`, or null when there is none |
| Auth.AuthProvider.constructor | my-voting-app/src/contexts/AuthContext.tsx:19-22 | the provider starts with the stored user |
| Auth.AuthProvider.Login | my-voting-app/src/contexts/AuthContext.tsx:24-57 | succeeds iff the pair is a demo pair; on success the user has the clock's decimal text as id and is stored under `voting_user`; on failure nothing changes (the copy in `src/AuthContext.tsx` lines 23-39 behaves the same, without logging) |
| Auth.AuthProvider.Logout | my-voting-app/src/contexts/AuthContext.tsx:59-70 | the user becomes null and exactly `voting_user` and `voting_data` are removed from storage (likewise `src/AuthContext.tsx` lines 41-45) |
| Auth.LogoutKeepsSessionInMemory | my-voting-app/src/contexts/AuthContext.tsx:62-64 | after logout the session store keeps its four fields, a reload would see none of them, and the store agrees with storage afterwards iff it held none of its four fields |
| Decimal.DecimalString | my-voting-app/src/contexts/AuthContext.tsx:33 | `toString()` of a natural: non-empty, all digits, no leading zero except for 0 |
| Decimal.DecimalRoundTrip | my-voting-app/src/VotingPage.tsx:104 | the decimal text of a number denotes that number |
| Localisation.Translate | my-voting-app/src/contexts/LanguageContext.tsx:135-137 | with `Table` the current language's map: a present non-empty entry is returned, and otherwise the key itself |
| Localisation.TablesAgreeOnKeys | my-voting-app/src/contexts/LanguageContext.tsx:7-118 | the English and Hindi tables define the same keys and no entry is empty |
| Localisation.KnownKeyIsTranslated | my-voting-app/src/contexts/LanguageContext.tsx:135-137 | a key of either table is translated from the current language's table |
| Localisation.UnknownKeyIsItself | my-voting-app/src/contexts/LanguageContext.tsx:135-137 | a key in neither table comes back unchanged |
| Localisation.SavedLanguage | my-voting-app/src/contexts/LanguageContext.tsx:125-128 | the initial language is the stored one, or English |
| Localisation.LanguageProvider.constructor | my-voting-app/src/contexts/LanguageContext.tsx:125-128 | the provider starts with the stored language or English |
| Localisation.LanguageProvider.SetLanguage | my-voting-app/src/contexts/LanguageContext.tsx:130-133 | the language is set and stored under `voting_language`, so a reload reads it back |
| Localisation.LanguageProvider.T | my-voting-app/src/contexts/LanguageContext.tsx:135-137 | a known key gives the current table's entry, and any other key gives itself |
| Components.ToggledLanguage | my-voting-app/src/components/CommonComponents.tsx:13-15 | the toggled language has the other code and is Hindi or English |
| Components.ToggleFlips | my-voting-app/src/components/CommonComponents.tsx:13-15 | English goes to Hindi, anything else to English, and two toggles restore the code |
| Components.ToggleLanguage | my-voting-app/src/components/CommonComponents.tsx:12-17 | the provider's language becomes the toggled one and is stored |
| Components.SpinnerClassesDistinct | my-voting-app/src/components/CommonComponents.tsx:48-57 | the classes `SpinnerClasses` gives differ for each size, and an omitted size gets the medium ones |
| Candidates.FindCandidate | my-voting-app/src/pages/ConfirmationPage.tsx:50 | a found candidate is in the list with the sought id, and none is found exactly when no candidate has that id |
| Candidates.FindFirstWithId | my-voting-app/src/ReceiptPage.tsx:49 | a candidate whose id no earlier entry shares is the one found |
| Candidates.StandardIdsDistinct | my-voting-app/src/VotingPage.tsx:36-61 | the ballot's ids are distinct, so a lookup by any of them finds that candidate |
| Candidates.ConfirmationDisagrees | my-voting-app/src/pages/ConfirmationPage.tsx:16-42 | for ids 1 to 4 the confirmation list gives a different party from the ballot's, and a different name exactly for ids 2 and 3 |
| MockHash.HexIndex | my-voting-app/src/pages/ConfirmationPage.tsx:65-67 | `Math.floor(r * 16)` of a draw in [0, 1) is a hexadecimal digit value below 16 |
| MockHash.BlockchainHash | my-voting-app/src/pages/ConfirmationPage.tsx:65-67 | the hash is "0x" followed by 64 lower-case hexadecimal digits, each `HexDigit` of its draw |
| MockHash.HashRecordsDraws | my-voting-app/src/pages/ConfirmationPage.tsx:65-67 | the digit at each position denotes the index chosen by that position's draw |
| ScanProgress.ScheduleValues | my-voting-app/src/pages/BiometricScanPage.tsx:100-101 | the counter starts at 0, ends at the largest multiple of the stride not above the limit, and shows exactly the multiples of the stride from 0 to the limit |
| ScanProgress.FaceScheduleReachesLimit | my-voting-app/src/pages/BiometricScanPage.tsx:100-101 | the face counter shows 11 values, ends at 100 and stays within 0 to 100 |
| ScanProgress.RetinaScheduleStopsShort | my-voting-app/src/pages/BiometricScanPage.tsx:146-147 | the retina counter shows 7 values, ends at 90 and never shows 100 |
| ScanProgress.Sweep | my-voting-app/src/pages/BiometricScanPage.tsx:100-103 | the counting loop sets exactly the schedule's values, in order |
| VoterLoginFlow.VerifiedVoter | my-voting-app/src/pages/VoterLoginPage.tsx:38-43 | the stored voter is verified, carries the three numbers as entered and the given phone |
| VoterLoginFlow.VoterLoginPage.constructor | my-voting-app/src/pages/VoterLoginPage.tsx:12-20 | the page starts in the verification step, idle, with empty inputs and no error |
| VoterLoginFlow.VoterLoginPage.HandleVerification | my-voting-app/src/pages/VoterLoginPage.tsx:26-55 | with any non-empty identification number (`IdentityProvided`, line 36) the voter is stored as verified and the OTP step opens; with none the error is shown and the store is untouched |
| VoterLoginFlow.VoterLoginPage.HandleOtpVerification | my-voting-app/src/pages/VoterLoginPage.tsx:57-80 | only "123456" stores the voter with the phone number and moves on to the biometric scan; any other code shows the error and changes nothing in the store |
| VoterLoginFlow.VoterLoginPage.SendOtp | my-voting-app/src/pages/VoterLoginPage.tsx:82-96 | on the OTP step, where the button is drawn, an empty phone number gives the missing-phone error, and otherwise the error is cleared |
| VoterLoginFlow.VoterLoginPage.GoBack | my-voting-app/src/pages/VoterLoginPage.tsx:98-104 | from the OTP step back to verification, and from verification to the landing page; the typed numbers, phone and OTP are kept |
| BiometricFlow.BiometricScanPage.constructor | my-voting-app/src/pages/BiometricScanPage.tsx:14-20 | the page starts at the permission request with the camera off and no progress |
| BiometricFlow.BiometricScanPage.HandlePermissionGranted | my-voting-app/src/pages/BiometricScanPage.tsx:36-82 | a camera with a mounted video reaches the face scan; an unmounted video leaves the stream on in camera-access; a failure shows the denial |
| BiometricFlow.BiometricScanPage.HandlePermissionDenied | my-voting-app/src/pages/BiometricScanPage.tsx:84-87 | the denial is shown in the camera-access step |
| BiometricFlow.BiometricScanPage.StartFaceScan | my-voting-app/src/pages/BiometricScanPage.tsx:89-133 | the face counter runs its schedule, nothing is stored, and the retina scan opens at progress 0 |
| BiometricFlow.BiometricScanPage.StartRetinaScan | my-voting-app/src/pages/BiometricScanPage.tsx:135-180 | the retina counter runs its schedule and stops at 90, face and retina are stored as verified at `now`, and the page completes |
| BiometricFlow.BiometricScanPage.ProceedToVoting | my-voting-app/src/pages/BiometricScanPage.tsx:182-184 | a completed page moves on to the voting page |
| BiometricFlow.BiometricScanPage.GoBack | my-voting-app/src/pages/BiometricScanPage.tsx:186-192 | the camera stream is stopped and the page leaves for the voter login |
| LegacyBiometricFlow.BiometricScanPage.constructor | my-voting-app/src/BiometricScanPage.tsx:13-18 | the page starts at the permission request with the camera off and no progress |
| LegacyBiometricFlow.BiometricScanPage.SimulateCameraAccess | my-voting-app/src/BiometricScanPage.tsx:34-43 | the simulated camera becomes ready and the face scan opens |
| LegacyBiometricFlow.BiometricScanPage.HandlePermissionGranted | my-voting-app/src/BiometricScanPage.tsx:24-27 | granting always reaches the face scan with the camera ready |
| LegacyBiometricFlow.BiometricScanPage.HandlePermissionDenied | my-voting-app/src/BiometricScanPage.tsx:29-32 | the denial is shown in the camera-access step |
| LegacyBiometricFlow.BiometricScanPage.StartFaceScan | my-voting-app/src/BiometricScanPage.tsx:45-68 | the face counter runs its schedule, nothing is stored, and the retina scan opens at progress 0 |
| LegacyBiometricFlow.BiometricScanPage.StartRetinaScan | my-voting-app/src/BiometricScanPage.tsx:70-97 | the retina counter stops at 90, face and retina are stored as verified at `now`, and the page completes |
| LegacyBiometricFlow.BiometricScanPage.ProceedToVoting | my-voting-app/src/BiometricScanPage.tsx:99-101 | a completed page moves on to the voting page |
| LegacyBiometricFlow.BiometricScanPage.GoBack | my-voting-app/src/BiometricScanPage.tsx:103-105 | the page only navigates to the voter login |
| VotingFlow.LastEight | my-voting-app/src/VotingPage.tsx:104 | `slice(-8)` keeps the last eight characters, or all of a shorter string |
| VotingFlow.VoteIdFor | my-voting-app/src/VotingPage.tsx:104 | the vote id is "VT" followed by one to eight digits |
| VotingFlow.VoteIdEncodesTimestamp | my-voting-app/src/VotingPage.tsx:104 | the digits of the vote id denote the timestamp modulo 10^8 |
| VotingFlow.VoteIdHasEightDigits | my-voting-app/src/VotingPage.tsx:104 | from 10^7 ms on, the id has exactly eight digits |
| VotingFlow.VotingPage.constructor | my-voting-app/src/VotingPage.tsx:14-19 | the page starts at the permission request with nothing selected or verified |
| VotingFlow.VotingPage.StartPrivacyCheck | my-voting-app/src/VotingPage.tsx:69-89 | the check always passes, a verified privacy record is stored, and the ballot opens |
| VotingFlow.VotingPage.HandlePermissionGranted | my-voting-app/src/VotingPage.tsx:25-67 | the check runs from the handler (lines 25-28) and again from the effect on entering the privacy-check step (lines 63-67); storage ends as after a single run and the ballot opens |
| VotingFlow.VotingPage.HandlePermissionDenied | my-voting-app/src/VotingPage.tsx:30-33 | the denial is shown, yet the step effect still runs the check, stores a verified privacy record and reaches the voting step, with the ballot hidden |
| VotingFlow.VotingPage.HandleVoteSelection | my-voting-app/src/VotingPage.tsx:91-93 | on the ballot, shown only without a denial, the clicked candidate becomes the selection |
| VotingFlow.VotingPage.SubmitVote | my-voting-app/src/VotingPage.tsx:95-121 | the ballot is shown only without a denial; without a selection (null or empty, line 96) nothing changes; otherwise an unconfirmed vote with the clock's id is stored and the page moves on to confirmation |
| VotingFlow.VotingPage.GoBack | my-voting-app/src/VotingPage.tsx:123-125 | the page leaves for the biometric scan |
| ConfirmationFlow.View | my-voting-app/src/pages/ConfirmationPage.tsx:44-50 | no vote means a redirect; otherwise the card is a candidate of the page's own list with the vote's id, or none when no candidate has it |
| ConfirmationFlow.ReviewShowsOtherCandidate | my-voting-app/src/pages/ConfirmationPage.tsx:16-50 | a vote for any ballot candidate is reviewed under another party, and for the second and third under another name |
| ConfirmationFlow.ConfirmationPage.Render | my-voting-app/src/pages/ConfirmationPage.tsx:44-48 | without a vote the page navigates to the voting page |
| ConfirmationFlow.ConfirmationPage.ConfirmVote | my-voting-app/src/pages/ConfirmationPage.tsx:52-92 | a well-formed hash is drawn but not stored; the vote is stored with only its confirmed flag changed; the page moves on to the receipt |
| ConfirmationFlow.ConfirmationPage.GoBack | my-voting-app/src/pages/ConfirmationPage.tsx:94-96 | with a vote under review, the only state in which the button is drawn, the page leaves for the voting page |
| ReceiptFlow.View | my-voting-app/src/ReceiptPage.tsx:15-49 | the page redirects home exactly when there is no vote or it is unconfirmed; otherwise the card is the ballot candidate with the vote's id |
| ReceiptFlow.ReceiptShowsBallotCandidate | my-voting-app/src/ReceiptPage.tsx:21-49 | a confirmed vote for the i-th ballot candidate is shown with exactly that candidate |
| ReceiptFlow.GenerateHash | my-voting-app/src/ReceiptPage.tsx:53-60 | the receipt's loop builds the same hash as the confirmation page's expression from the same draws |
| ReceiptFlow.ReceiptFor | my-voting-app/src/ReceiptPage.tsx:67-74 | the receipt carries the vote's id, time and hash, the status "Confirmed", and the card's name and party when there is a card |
| ReceiptFlow.ReceiptFilenameInjective | my-voting-app/src/ReceiptPage.tsx:80 | two receipts share a file name (`ReceiptFilename`, `vote-receipt-<id>.json`) exactly when their vote ids are equal |
| ReceiptFlow.ReceiptPage.Mount | my-voting-app/src/ReceiptPage.tsx:51-63 | without a confirmed vote the page goes home; otherwise it shows a freshly drawn, well-formed hash |
| ReceiptFlow.ReceiptPage.DownloadReceipt | my-voting-app/src/ReceiptPage.tsx:65-85 | the download is named after the vote id and holds the receipt of the vote, its card and the shown hash |
| ReceiptFlow.ReceiptPage.ReturnHome | my-voting-app/src/ReceiptPage.tsx:87-90 | the whole session is cleared in memory and storage, and the page goes home |
| Wizard.CastConfirmAndReceive | my-voting-app/src/VotingPage.tsx:104-112 | ballot, confirmation and receipt over one store leave a stored confirmed vote for the chosen candidate, with the clock's id, and a receipt naming that candidate with the receipt page's own hash |

## Left out

- Localisation.Translate: the tables are maps, so keys that name members inherited from `Object.prototype` are outside the model. Examples are "constructor", "toString" and "__proto__". For such a key the source's `translations[code][key] || key` returns the inherited member, not the key. No call in the pages passes such a key.
- Localisation.UnknownKeyIsItself: keys naming `Object.prototype` members are outside the model, for the reason given for `Translate`.
- Localisation.LanguageProvider.T: keys naming `Object.prototype` members are outside the model, as for `Translate`.
- Delays and timers: each `await` and `setTimeout` in a handler is one atomic transition. So the loading flags `isLoading`, `isScanning`, `isCheckingPrivacy`, `isSubmitting` and `isConfirming` are false whenever the page is observed. Interleavings of a handler with other clicks are not modelled.
- Intermediate scan prompts ("Hold still...", "Almost done...", and so on): only the prompt a transition ends with is modelled.
- JSON encoding: storage holds typed items instead of JSON text, so a malformed stored value is not modelled. Neither is the `Date` that becomes a string after a reload. In the source, a vote restored that way makes `vote.timestamp.toISOString()` throw in three places:
  - in confirmVote, before the vote is saved, so the vote stays unconfirmed and the page stays confirming;
  - in the receipt's render;
  - in the receipt's download.

  `ConfirmationFlow.ConfirmationPage.ConfirmVote`, `ReceiptFlow.View` and `ReceiptFlow.ReceiptPage.DownloadReceipt` succeed in that state, because the model's timestamp is always a clock value.
- The two clock reads in submitVote (`new Date()` and `Date.now()`) are one value `now`. A vote timestamp is kept in milliseconds, not as a `Date`.
- Logging through `APILogger`, and the random block number and fields that are only logged, are output only and are left out.
- `alert`, the `Blob` and object URL of the receipt download, and page reloads are browser effects. The download is the file name and the receipt object.
- `getUserMedia` and the video element are the parameter `CameraResult`. The video's `play()` and the unmount cleanup effect are not modelled.
- Disabled buttons: the Back buttons' disabled conditions are preconditions of the `GoBack` methods, and whether a button is rendered at all is a precondition, for example the ballot only without a denial. The other disabled conditions are not preconditions, and those handlers are modelled for any state they can be reached in. These are the identity button after verification, the send-OTP button without a phone number, the OTP-length check, and the submit button without a selection.
- `services/api.ts`, `lib/logger.ts`, `LandingPage`, `CameraPermissionModal` and `App` (routing) are not part of this model. A navigation is the route a page asks for.
- `FuturisticCard` and the rest of the markup: only the decisions of the shared components are modelled, namely the language toggle and the spinner sizes.
- Voter login input handling: PAN and voter-ID numbers are upper-cased as typed, and every field has a `maxLength`. These are rendering concerns. The model takes the fields' values as they reach the handlers.
