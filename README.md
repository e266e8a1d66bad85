# Shopstr frontend: uploads, chat tokens, profile settings, listing modal

Shopstr is a Nostr marketplace whose web client is written in React. This
project models four of its components in Dafny and proves properties about
them:

- **The image-upload button** (`FileUploaderButton`). It checks the uploaded
  files' types and picks a signing strategy from the sign-in method: a local
  key unlocked by a passphrase, a browser extension, or the "amber" remote
  signer. The remote signer is reached through a deep link; the signed event
  comes back through the clipboard, which is polled once a second until a
  60-second timeout. The button hands the host's first URL to its callback or
  alerts, and it ignores clicks while disabled or loading.
- **A chat message** (`ChatMessage`). It finds the Cashu token that follows
  the first `cashuA` marker and offers a redeem button only for a non-empty
  token that decodes. It aligns and styles the message by its sender.
- **The profile settings page** (`UserProfile`). It covers the save button's
  disabled styling and the robohash default avatar. It covers the effect that
  either prompts for the passphrase or loads the stored profile. It covers the
  submit sequence and the Enter-key guard.
- **The listing detail modal** (`DisplayProductModal`). It covers the guard
  on the listing date and the share URL and its fallback. It covers the split
  between owner and buyer actions and the two-path delete flow. It covers the
  edit-form toggle, and it renders nothing while closed.

Every foreign call is a parameter whose outcome is given:
- key derivation from the passphrase, and local signing;
- the `window.nostr` extension, and JSON encoding and parsing;
- `atob`, the clipboard, and the image host;
- the locale's date formatting.

A call that does I/O is modelled as the sequence of its observable effects:
signer requests, clipboard writes, windows opened, uploads, callbacks and
alerts. Where a component updates state, the model is a class with those
fields. Where a component only computes, the model is a function.

Modules, one per file:
- `Common` (`common.dfy`): `Option`, thrown values, and the outcome of key
  derivation.
- `Strings` (`strings.dfy`): JavaScript `includes`, `indexOf` and `split`
  with a string separator (section 22.1.3.23 of ECMA-262).
- `FileUploader` (`file_uploader.dfy`).
- `ChatMessage` (`chat_message.dfy`).
- `UserProfile` (`user_profile.dfy`).
- `ProductModal` (`product_modal.dfy`).

Three behaviours of the code that a reader might not expect are modelled as
the code has them:
- The file type test is the substring `"image"` anywhere in the MIME type, not
  an `image/` prefix (`TypeTestIsSubstring`).
- An empty file list passes validation.
- In the remote-signer handshake, the first non-empty clipboard text read while
  focused stops the polling whether or not it parses. A text that does not
  parse leaves the promise to the timeout (`UnparseableFirstPayloadTimesOut`).

## Model

| member | source | states |
|---|---|---|
| Strings.IndexOf | pages/messages/chat-message.tsx:29 | The result is the first index where the marker occurs. It is absent exactly when the text does not contain the marker. |
| Strings.Split | pages/messages/chat-message.tsx:30 | Splitting gives at least one piece, and at least two when the separator occurs. |
| Strings.PrefixBeforeFirstMatch | pages/messages/chat-message.tsx:30 | A prefix ending before the first occurrence of a non-empty pattern does not contain it. |
| ChatMessage.IsDecodableToken | pages/messages/chat-message.tsx:6-13 | True exactly when `atob` returns rather than throws. |
| ChatMessage.TokenAfterCashuA | pages/messages/chat-message.tsx:29-31 | The token is absent exactly when the content lacks `cashuA`. |
| ChatMessage.CanDecodeToken | pages/messages/chat-message.tsx:32-34 | An absent or empty token is never decodable. A non-empty one is decodable exactly when `atob` accepts it. |
| ChatMessage.Render | pages/messages/chat-message.tsx:24-26 | Nothing is rendered exactly when the message is missing or the counterpart key is missing or empty. |
| ChatMessage.TokenFollowsFirstMarker | pages/messages/chat-message.tsx:30 | The token is the first split piece of the text after the first marker. |
| ChatMessage.HeadPieceShape | pages/messages/chat-message.tsx:30 | The first split piece is a marker-free prefix, followed by the end of the text or by a marker. |
| ChatMessage.TokenShape | pages/messages/chat-message.tsx:29-31 | There is no marker before the first one. `cashuA` plus the token occurs there, the token holds no marker, and the end of the text or another marker follows it. |
| ChatMessage.TrailingMarkerGivesEmptyToken | pages/messages/chat-message.tsx:29-34 | A text whose only marker is at its end yields the empty token, which is not decodable. |
| ChatMessage.DoubleMarkerGivesEmptyToken | pages/messages/chat-message.tsx:29-34 | Two leading markers yield the empty token, which is not decodable. |
| ChatMessage.RedeemShownIff | pages/messages/chat-message.tsx:55-62 | The redeem button appears exactly when the content has the marker and its token is non-empty and decodes. It then receives that token, and the content is always shown unchanged. |
| ChatMessage.AlignmentFor | pages/messages/chat-message.tsx:39-45 | The row is `justify-end` exactly when the user sent the message. It is `justify-start` exactly when the counterpart sent it and the user did not, and otherwise it has no alignment class. |
| ChatMessage.AlignmentRule | pages/messages/chat-message.tsx:39-45 | A message is right-aligned exactly when the user sent it. It is left-aligned exactly when the counterpart sent it and the user did not, and otherwise it has no alignment. |
| ChatMessage.StyleDependsOnlyOnSender | pages/messages/chat-message.tsx:47-68 | The bubble style and the timestamp side depend only on whether the user sent the message. |
| FileUploader.IsImage | components/utility-components/file-uploader.tsx:35 | Every `image...` type passes, and a type shorter than "image" fails. |
| FileUploader.TypeTestIsSubstring | components/utility-components/file-uploader.tsx:35 | Any type containing "image" anywhere passes the type test. |
| FileUploader.AllImages | components/utility-components/file-uploader.tsx:33-37 | The files pass exactly when every one of them passes the type test, so an empty list passes. |
| FileUploader.PassphraseAccepted | components/utility-components/file-uploader.tsx:40-41 | The passphrase passes only when it is non-empty and its derivation returns a non-empty key. A derivation that throws or returns nothing never passes. |
| FileUploader.AmberSignerUrl | components/utility-components/file-uploader.tsx:54-55 | The deep link is the `nostrsigner:` scheme, the encoded event and the fixed query, and each part is recoverable from it. |
| FileUploader.StopText | components/utility-components/file-uploader.tsx:64-74 | A poll stops the interval exactly when it reads a non-empty text while the page is focused. |
| FileUploader.OutcomeFrom | components/utility-components/file-uploader.tsx:61-88 | The handshake always settles, either resolved or timed out. |
| FileUploader.HandshakeOutcome | components/utility-components/file-uploader.tsx:61-88 | The handshake from the deep link's opening always settles. When it resolves, some poll within 60 seconds read a text that parses to the resolved event. |
| FileUploader.AmberHandshake.constructor | components/utility-components/file-uploader.tsx:80-81 | The handshake starts pending, with the interval registered and no time elapsed. |
| FileUploader.AmberHandshake.Poll | components/utility-components/file-uploader.tsx:62-78 | A settled promise stays settled. Unfocused, failed or empty reads change nothing. A focused non-empty read clears the interval and resolves if the text parses. |
| FileUploader.AmberHandshake.Tick | components/utility-components/file-uploader.tsx:83-87 | At 60 seconds the interval is cleared, and a still-pending promise is rejected with a timeout. |
| FileUploader.RunHandshake | components/utility-components/file-uploader.tsx:61-88 | Driving the class with the immediate poll and then one tick and poll per second yields the handshake outcome. |
| FileUploader.ResolvedIffFirstPayloadParses | components/utility-components/file-uploader.tsx:62-88 | The handshake resolves with `e` exactly when some poll before the timeout is the first stopping one and its text parses to `e`. |
| FileUploader.TimesOutWithoutPayload | components/utility-components/file-uploader.tsx:83-87 | Without a focused non-empty read within 60 seconds, the handshake times out. |
| FileUploader.UnparseableFirstPayloadTimesOut | components/utility-components/file-uploader.tsx:71-77 | If the first stopping text does not parse, the handshake times out, even if a valid text comes later. |
| FileUploader.OutcomeDependsOnlyOnStopTexts | components/utility-components/file-uploader.tsx:62-81 | Two poll traces with the same stopping texts settle the same way. |
| FileUploader.UnfocusedPollIsIgnored | components/utility-components/file-uploader.tsx:64-67 | A poll while unfocused does not matter, whatever the clipboard holds. |
| FileUploader.ReadErrorActsAsEmptyClipboard | components/utility-components/file-uploader.tsx:75-77 | A failed clipboard read has the same effect as an empty clipboard. |
| FileUploader.Caught | components/utility-components/file-uploader.tsx:97-99 | An `Error` becomes one alert with the failure prefix, and any other thrown value is dropped. |
| FileUploader.AfterCallback | components/utility-components/file-uploader.tsx:93-98 | A callback that returns adds nothing. One that throws an `Error` adds the failure alert with its message, and any other thrown value adds nothing. |
| FileUploader.SelectUrl | components/utility-components/file-uploader.tsx:91-98 | The first step is the callback with the first URL exactly when that URL exists and is non-empty, followed only by the handling of what the callback throws. Otherwise the only step is the no-URL alert. |
| FileUploader.AfterSigning | components/utility-components/file-uploader.tsx:43-99 | A rejected signer is handled by the catch block alone, with no upload. A signed event is uploaded with the call's files. A host exception is then caught. A non-empty first URL goes to the callback, and a missing or empty one gives the no-URL alert. There is never a second signing or upload, outcomes come only at the end, and a callback carries the host's first URL. |
| FileUploader.AmberSigning | components/utility-components/file-uploader.tsx:52-89 | A rejected clipboard write ends the signer with no further step. Otherwise the clipboard is cleared and then the deep link of the encoded event opened. The signer succeeds exactly when the handshake resolves, with its event, and fails with the timeout `Error` otherwise. |
| FileUploader.UploadTrace | components/utility-components/file-uploader.tsx:31-100 | A non-image file gives only the "Only images" alert. An empty passphrase, or one whose derivation returns nothing, gives only the "Invalid passphrase!" alert. A derivation that throws gives only the prefixed alert of its own error. A rejected extension signer is asked once, and then its rejection is caught. An unknown sign-in method gives only the no-URL alert. |
| FileUploader.UploadTraceShape | components/utility-components/file-uploader.tsx:38-99 | Every call signs at most once and uploads only right after signing. Callbacks and alerts come only at the end, and the only one before the last step is a callback whose thrown `Error` is then alerted. A callback's URL is the host's first URL. |
| FileUploader.SigningRunsIff | components/utility-components/file-uploader.tsx:33-90 | A signer is asked exactly when the files pass and a strategy can start. That means an accepted passphrase for the local key, always for the extension, and a cleared clipboard for the remote signer. |
| FileUploader.UploadIffSigned | components/utility-components/file-uploader.tsx:38-90 | Only the call's own files are ever uploaded. They are uploaded with an event exactly when they pass the type test and the chosen strategy signs to that event. |
| FileUploader.SuccessfulUploadCallsBack | components/utility-components/file-uploader.tsx:38-98 | When the strategy signs and the host's first URL is non-empty, the call ends with that upload and the callback receiving that URL. Only the alert of an `Error` the callback throws can follow. |
| FileUploader.EveryCallEndsInOneOutcome | components/utility-components/file-uploader.tsx:91-99 | When only `Error`s are thrown, every call ends in a callback or alert, and the only earlier one is a callback whose `Error` is then alerted. When the callback throws nothing, the outcome is unique. |
| FileUploader.UploadImages | components/utility-components/file-uploader.tsx:31-100 | The imperative dispatcher produces exactly the effects of the upload trace. |
| FileUploader.ExtensionUploadScenario | components/utility-components/file-uploader.tsx:46-96 | A PNG file with extension signing, a host URL and a callback that returns gives the signer request, the upload and the callback with that URL. |
| FileUploader.ThrowingCallbackIsAlerted | components/utility-components/file-uploader.tsx:91-99 | A callback that throws an `Error` is followed by the failure alert with its message. |
| FileUploader.AmberTraceShape | components/utility-components/file-uploader.tsx:51-99 | The remote signer always clears the clipboard and then opens the deep link of the encoded event. A resolved handshake's event is what is uploaded, and otherwise the call ends in the timeout alert. |
| FileUploader.AmberClipboardRejected | components/utility-components/file-uploader.tsx:57 | A rejected clipboard write ends the call in the catch block, before the link is opened. |
| FileUploader.AmberNeverAnsweredScenario | components/utility-components/file-uploader.tsx:51-99 | With a remote signer that never answers, the clipboard is cleared and the link opened, then the call ends in the timeout alert with no upload. |
| FileUploader.FileUploaderButton.constructor | components/utility-components/file-uploader.tsx:26 | The button starts not loading. |
| FileUploader.FileUploaderButton.HandleClick | components/utility-components/file-uploader.tsx:104-110 | A click opens the file picker exactly when the button is neither disabled nor loading. |
| FileUploader.FileUploaderButton.BeginChange | components/utility-components/file-uploader.tsx:115 | Loading is set. |
| FileUploader.FileUploaderButton.EndChange | components/utility-components/file-uploader.tsx:119 | Loading is cleared. |
| FileUploader.FileUploaderButton.HandleChange | components/utility-components/file-uploader.tsx:113-120 | With files present, the upload runs and yields its trace; without files nothing happens. While it runs, the click guard of `handleClick` fails, and loading is cleared at the end. |
| FileUploader.ClickDuringUploadIsIgnored | components/utility-components/file-uploader.tsx:104-115 | Once a change has started, a click opens no second file picker, whether or not the button is disabled. |
| UserProfile.DefaultImage | pages/settings/user-profile.tsx:58-60 | The avatar is the robohash base followed by the user's key. |
| UserProfile.DefaultImageInjective | pages/settings/user-profile.tsx:58-60 | Distinct keys get distinct default avatars. |
| UserProfile.IsButtonDisabled | pages/settings/user-profile.tsx:95-110 | The button is never styled disabled for extension, amber or bunker. For any other method it is disabled exactly when the passphrase is empty or its derivation is falsy or throws. |
| UserProfile.EnabledButtonMatchesUploadPassphraseTest | pages/settings/user-profile.tsx:95-110 | For image files and the local key, the button looks enabled exactly when an upload would get past its passphrase test and sign. |
| UserProfile.SubmitsOnEnter | pages/settings/user-profile.tsx:461-466 | The keydown handler submits on Enter exactly when the button is not styled disabled, and never on another key. |
| UserProfile.SaveButtonDisabled | pages/settings/user-profile.tsx:467 | The button's own disabled flag is exactly the upload flag. |
| UserProfile.ProfileMapContext.constructor | pages/settings/user-profile.tsx:38 | The context holds the given profile map and has no recorded updates. |
| UserProfile.ProfileMapContext.UpdateProfileData | pages/settings/user-profile.tsx:87-91 | The update is recorded, and the map stores the event under its key, replacing any earlier one. |
| UserProfile.UserProfilePage.constructor | pages/settings/user-profile.tsx:26-50 | Every form field starts empty, every flag false, and the key and passphrase empty. |
| UserProfile.UserProfilePage.SetUserPubkey | pages/settings/user-profile.tsx:52-54 | Only the user's key changes. |
| UserProfile.UserProfilePage.SetPassphrase | pages/settings/user-profile.tsx:477-479 | Only the passphrase changes. |
| UserProfile.UserProfilePage.LoadProfileEffect | pages/settings/user-profile.tsx:62-82 | With the local key and a bad passphrase, only the prompt opens. Otherwise a stored profile resets the form, the fetch flag ends false, a truthy derivation becomes the shown secret key, and a throwing derivation escapes. |
| UserProfile.UserProfilePage.OnSubmit | pages/settings/user-profile.tsx:84-93 | One publish request is made with the key, data and passphrase. On success the submitted data is stored in the map under the user's key with `created_at` 0, and the flag is lowered. On rejection the flag stays up and the map is unchanged. |
| UserProfile.UserProfilePage.KeyDownSubmits | pages/settings/user-profile.tsx:461-466 | The keydown handler submits exactly when the key is Enter and the button is not styled disabled. It suppresses the key's default action exactly when it submits itself. |
| UserProfile.UserProfilePage.ClickSubmits | pages/settings/user-profile.tsx:458-468 | A click submits exactly when no upload is under way. |
| UserProfile.SubmitThenReloadShowsSubmitted | pages/settings/user-profile.tsx:62-93 | After a successful submit, the profile-load effect resets the form to the submitted data. |
| UserProfile.ClickSubmitsWhileStyledDisabled | pages/settings/user-profile.tsx:458-468 | On a page with the local key, no passphrase and no upload under way, the keydown handler neither submits nor suppresses Enter's default action, and a click submits. |
| ProductModal.DisplayDate | pages/components/display-product-modal.tsx:63-69 | A missing or zero timestamp gives two empty strings. Otherwise the result is the locale's date and time for the timestamp in milliseconds. |
| ProductModal.ListingUrl | pages/components/display-product-modal.tsx:75 | The URL is the origin, `/listing/` and the product id, and each part is recoverable from it. |
| ProductModal.HandleShare | pages/components/display-product-modal.tsx:71-88 | The native share, with the title, happens exactly when it is available. Otherwise the clipboard copy and alert happen. Both carry the listing URL. |
| ProductModal.ShareUrlIdentifiesListing | pages/components/display-product-modal.tsx:75 | Within one origin, equal share URLs mean equal product ids. |
| ProductModal.IsOwner | pages/components/display-product-modal.tsx:172 | A viewer with no stored key owns nothing, and one with a key owns the listing exactly when that key is the seller's. |
| ProductModal.Actions | pages/components/display-product-modal.tsx:109-247 | A closed modal renders nothing. An open one renders sharing, and the passphrase prompt exactly while it is requested. It renders the owner's group for the owner and the buyer's group otherwise, never both. |
| ProductModal.ActionsPartition | pages/components/display-product-modal.tsx:172-227 | Ownership alone decides which one of the two groups is rendered. |
| ProductModal.DeleteSteps | pages/components/display-product-modal.tsx:101-107 | Loading is raised first. The only delete request carries the id and passphrase. Loading is lowered last exactly when the delete resolves. |
| ProductModal.DeleteCalledOnceWhileLoading | pages/components/display-product-modal.tsx:101-107 | The delete is requested once, right after the modal closes, with loading raised before it and not lowered before it. |
| ProductModal.Enabled | pages/components/display-product-modal.tsx:181-195 | Edit and delete are disabled exactly while a delete is loading, and the other actions never are. |
| ProductModal.DisplayProductModal.constructor | pages/components/display-product-modal.tsx:59-61 | All three flags start false, with no delete steps. |
| ProductModal.DisplayProductModal.HandleEditToggle | pages/components/display-product-modal.tsx:90-92 | The product form's visibility flips and nothing else changes. |
| ProductModal.DisplayProductModal.FinalizeDeleteListingProcess | pages/components/display-product-modal.tsx:101-107 | The delete steps are appended, and loading stays raised exactly when the delete rejects. |
| ProductModal.DisplayProductModal.BeginDeleteListingProcess | pages/components/display-product-modal.tsx:94-100 | The extension deletes at once without a passphrase. The local key only opens the passphrase prompt, and any other method does nothing. |
| ProductModal.NsecDeleteScenario | pages/components/display-product-modal.tsx:94-107 | With the local key, confirming opens the prompt, and submitting a passphrase runs the delete steps carrying it. |
| ProductModal.ExtensionDeleteScenario | pages/components/display-product-modal.tsx:94-107 | With the extension, confirming deletes at once with no passphrase and the prompt stays closed. |

## Left out

- `nostrBuildUploadImages` is not part of this model. It is taken to sign one authorization event with the strategy it is given. A signer rejection propagates; otherwise the host's answer, or its exception, comes back.
- `getNsecWithPassphrase`, `getPrivKeyWithPassphrase` with `finalizeEvent`, `window.nostr.signEvent`, `JSON.stringify` with `encodeURIComponent`, `JSON.parse`, `atob`, the clipboard, `window.open` and `toLocaleString` are given as functions of their inputs. A private-key derivation that throws after the passphrase test is not modelled, because the local signer is total.
- The gzip compression named in the deep link is only part of the URL; nothing in the component acts on it.
- Timers and async interleaving: the remote-signer polls run at whole seconds 0 to 59 and the timeout fires at second 60 before a sixtieth interval poll. The real race between the interval, the timeout and clipboard reads that resolve late is not modelled.
- FileUploader.UploadTrace: its own contract names the early exits, a throwing derivation and a rejected extension. The rest is stated by separate lemmas: AfterSigning, AmberSigning, UploadTraceShape, SigningRunsIff, UploadIffSigned, SuccessfulUploadCallsBack and EveryCallEndsInOneOutcome. UploadImages is tied to it by equality.
- The React state updates are applied at once: batching and re-rendering are not modelled, and `useMemo` values are functions of their dependencies.
- The provider of `updateProfileData` is not part of this model. The model takes it to store the given event under its pubkey, replacing any earlier entry, and it records each call.
- The `RequestPassphraseModal`, `ProductForm`, `RedeemButton`, `ConfirmActionDropdown` and image carousel components are not part of this model. Their submit paths are given as calls, so NsecDeleteScenario leaves `requestPassphrase` as the prompt left it.
- `handleDelete`, `handleModalToggle`, `handleSendMessage` and `handleReviewAndPurchase` are the parent's. The modal records that `handleDelete` and `handleModalToggle` were called, and whether the delete resolved; the other two only appear as rendered actions.
- `displayDate`'s `!timestamp` also catches `NaN`; integers have no such value.
- The save button is a `type="submit"` button. What the browser and the button library do with an Enter key whose default action the handler does not suppress is not modelled. The model states only the handler's own submit and whether it suppresses the default action. UserProfilePage.KeyDownSubmits does not consult `isUploadingProfile`: while an upload runs the button is disabled (`isDisabled`), so its keydown handler cannot fire, and the model does not capture that.
- The `console.log` and `console.error` messages of the handshake (a missing focus, a failed read, the timeout) are left out, because they change nothing the user sees.
- Markup, class names, icons and copy-to-clipboard of keys on the profile page are presentation only.
