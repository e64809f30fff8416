# Task-upload form and input validators of the MechaWorks user frontend, in Dafny

The MechaWorks user frontend is the requester's side of an image-labeling marketplace. A requester
connects a Solana wallet, uploads images, pays a fixed fee of 0.1 SOL on-chain and creates a
labeling task on a REST backend. Almost all of it is view code and calls to outside services. This
project models the two parts that make decisions:

- **The input validators** (`utils/validation.ts`): `validateImageFile`, `validateTaskTitle` and
  `validateImageCount`. Each is a chain of guards that returns `{valid, error?}`. They are modelled
  as functions in module `Validation`, with the exact constants and messages.
- **The upload form** (`components/Upload.tsx`). Its draft state is the image URLs, the title, the
  payment signature and the busy flag. It is the class `UploadComponent.Draft`, whose methods are
  the handlers: add an image, remove an image, edit the title, restore from storage, pay, submit.
  The pure logic those handlers use is in module `Upload`. That covers the guard chains of
  "submit task" and "pay", the request body, the progress flags, the shortened signature, the
  pay button's `disabled` test and the storage keys.

Supporting modules:

- `JsText` models JavaScript's `trim` with the ECMAScript whitespace set. It proves that
  `!s.trim()` holds exactly for whitespace-only strings.
- `Guards` gives the first-failing-check semantics that every guard chain is proved against.
- `LimitsAgreement` relates the form's own copy of the limits to the validators. The form does not
  call the validators.

The wallet, the RPC node and the backend are not modelled. Their answers are parameters of the
flows: the stored sign-in token, the backend's reply to the POST, the balance reply and how the
transfer ended. The proofs show which of these answers can influence an outcome. A request or a
transfer happens only once every guard has passed.

Two observations about the source, stated by the model:

- Both messages "File size must be less than 5MB" and "Title must be less than 200 characters"
  say "less than", yet both caps are inclusive. A file of exactly 5 MiB and a title of exactly
  200 characters are accepted.
- Saving the draft never removes a storage key. After every image has been removed, a reload
  brings back the last saved list (`Upload.RemovedImagesComeBack`). Restoring also ignores the
  ten-image cap (`Upload.RestoreIgnoresImageCap`).

## Model

| member | source | states |
|---|---|---|
| `JsText.Trim` | utils/validation.ts:31 | `s.trim()` has no whitespace at either end, is never longer than `s`, and is empty exactly when `s` is all whitespace |
| `JsText.TrimCutsOnlyEdgeWhitespace` | utils/validation.ts:31 | `s.trim()` is the slice of `s` left after cutting only whitespace from its two ends |
| `Guards.FirstFailing` | components/Upload.tsx:59-78 | the reason of the first failing check in order, and None exactly when every check passes |
| `Validation.ValidateImageFile` | utils/validation.ts:8-28 | accepted exactly for an allowed MIME type with size at most 5 MiB; no error exactly when valid; a missing file reports "No file selected"; a bad type is reported before the size |
| `Validation.ValidateTaskTitle` | utils/validation.ts:30-43 | accepted exactly when non-blank and at most 200 characters; a blank title reports "required" whatever its length; a long non-blank title reports the length message |
| `Validation.ValidateImageCount` | utils/validation.ts:45-58 | accepted exactly for counts 1 to 10; 0 and counts over 10 report their own messages |
| `Validation.FileSizeCapIsInclusive` | utils/validation.ts:20-27 | a file of an allowed type of exactly 5 MiB passes, and one byte more fails with the size message |
| `Validation.TypeIsCheckedBeforeSize` | utils/validation.ts:13-25 | an oversized file of a disallowed type reports the type error |
| `Validation.LongBlankTitleIsReportedAsMissing` | utils/validation.ts:31-33 | a title of 201 spaces reports "Task title is required" |
| `Validation.TitleLengthCapIsInclusive` | utils/validation.ts:35-42 | a non-blank title of exactly 200 characters passes, and one more character gives the length error |
| `Upload.WithoutIndex` | components/Upload.tsx:230-233 | filtering out one position deletes exactly that element when the index is in range, and nothing otherwise |
| `Upload.SubmitGuard` | components/Upload.tsx:59-78 | "submit task" reports the first failing guard in the order blank title, over 200 characters, no image, no payment; it passes exactly when all four hold |
| `Upload.ImageOptions` | components/Upload.tsx:90-92 | one `{imageUrl}` option per image, same length, same order |
| `Upload.ImageUrlsOfImageOptions` | components/Upload.tsx:90-92 | the image URLs read back from the options are the images, unchanged |
| `Upload.SubmitRequest` | components/Upload.tsx:80-101 | a request is sent exactly when the guards pass and a non-empty token is stored; it carries the images in order, the title, the signature and the token |
| `Upload.SubmitFlow` | components/Upload.tsx:59-123 | blocked exactly when a guard fails, with that reason; a missing or empty token fails with the sign-in message and no notice; a task is created exactly when the request is sent and stored; a backend error shows its own message, with the payment-saved notice exactly when its status is not 401 |
| `Upload.SubmitWithoutRequestIgnoresBackend` | components/Upload.tsx:59-101 | when no request is sent, the backend's answer does not affect the outcome |
| `Upload.PaymentGuard` | components/Upload.tsx:126-140 | "pay" reports the first failing guard in the order no wallet, blank title, no image; it passes exactly when all three hold |
| `Upload.PaymentFlow` | components/Upload.tsx:126-219 | blocked exactly when a guard fails; below 100010000 lamports it fails with the insufficient-balance message; paid, with the transfer's signature, exactly when the transfer was attempted and finalized |
| `Upload.PaymentWithoutTransferIgnoresChain` | components/Upload.tsx:142-179 | when the guards or the balance check stop "pay", how a transfer would have ended does not affect the outcome |
| `Upload.PayButtonMatchesPaymentGuard` | components/Upload.tsx:465-467 | the pay button is disabled exactly when busy or when "pay" would stop at its title or image guard, so an enabled button can only be stopped by a missing wallet |
| `Upload.ProgressOf` | components/Upload.tsx:256-304 | step 1 done iff the title is not blank, step 2 iff there are images, step 3 iff there is a signature, add-image slot iff fewer than ten images |
| `Upload.SubmitGuardMatchesProgress` | components/Upload.tsx:59-78 | "submit task" passes its guards exactly when all three progress steps are done and the title has at most 200 characters |
| `Upload.SignatureDisplay` | components/Upload.tsx:522-523 | the shown signature is its first (up to) eight characters, "...", and its last (up to) eight characters |
| `Upload.SaveDraft` | components/Upload.tsx:46-57 | a non-empty signature, title or image list is written to its key; an empty one leaves the key as it was, so saving never removes a key |
| `Upload.Restored` | components/Upload.tsx:27-44 | restoring from empty storage leaves the form as it is |
| `Upload.RestoreAfterSave` | components/Upload.tsx:27-57 | a fresh form restores exactly the draft saved into empty storage |
| `Upload.RemovedImagesComeBack` | components/Upload.tsx:46-57 | after every image is removed, a reload restores the images saved earlier |
| `Upload.ReloadAfterSubmit` | components/Upload.tsx:103-106 | after a created task a reload gives an empty form; after any other outcome it gives back the saved draft |
| `Upload.RestoreIgnoresImageCap` | components/Upload.tsx:37-39 | a stored list of eleven images is restored with more than ten images |
| `LimitsAgreement.SubmitGuardAgreesWithValidators` | components/Upload.tsx:59-73 | with at most ten images the submit guard's title and image rejections coincide with those of `validateTaskTitle` and `validateImageCount` |
| `LimitsAgreement.SubmitGuardAdmitsTooManyImages` | components/Upload.tsx:70-73 | with eleven images the submit guard passes while `validateImageCount` rejects |
| `LimitsAgreement.SubmitMessagesVersusValidator` | components/Upload.tsx:60-67 | the form's length message is the validator's text word for word, while its blank-title message differs from the validator's |
| `UploadComponent.Draft.constructor` | components/Upload.tsx:18-21 | a new form has no images, no title, no signature and is not busy |
| `UploadComponent.Draft.AddImage` | components/Upload.tsx:222-228 | below ten images the URL is appended and earlier images stay; at ten or more nothing changes; the ten-image cap is preserved; title and signature are unchanged |
| `UploadComponent.Draft.RemoveImage` | components/Upload.tsx:230-233 | an in-range index deletes exactly that image, any other index changes nothing; title and signature are unchanged |
| `UploadComponent.Draft.EditTitle` | components/Upload.tsx:336 | the title becomes the input's value and nothing else changes |
| `UploadComponent.Draft.Restore` | components/Upload.tsx:27-44 | the new draft is the stored fields over the current ones |
| `UploadComponent.Draft.OnSubmit` | components/Upload.tsx:59-124 | returns the submit outcome and the request sent, none for a missing or empty token; the draft is unchanged; the busy flag ends cleared whenever the guards passed |
| `UploadComponent.Draft.MakePayment` | components/Upload.tsx:126-220 | returns the payment outcome; the signature is set only by a finalized payment; the busy flag ends cleared whenever the guards passed |

## Left out

- The Solana transfer is not modelled (components/Upload.tsx:158-210). That covers building the instruction, fetching the blockhash, `sendTransaction`, the WebSocket confirmation with its 60 s timer and the 3 s wait. Its result is the parameter `TransferOutcome`.
- The amount and the recipient of the transfer are not modelled.
- The balance query, the sign-in token lookup and the backend POST are external calls. Their answers are parameters. A stored token that is missing or empty counts as not signed in.
- Validation.ValidateImageCount: the count is a natural number. The source takes any JavaScript number and rejects only 0 and counts over 10, so it accepts negative, fractional and NaN counts; the model does not cover those inputs.
- Toasts, console logging and the navigation to `/task/<id>` are side effects and are left out. `TaskCreated` carries the id.
- JSON encoding of the stored image list is not modelled. A parseable list is restored exactly. A `JSON.parse` result that is not an array of strings is not modelled.
- When React runs the effects, and state-update batching, are not modelled. The save effect is the function `SaveDraft`, applied to the draft as a whole.
- Draft.AddImage: the cap is checked against the state it acts on. The source checks the rendered `images` and appends to `prev`. Two additions before a re-render could therefore exceed ten images in the source, and the model does not capture this.
- What other handlers may do while a `makePayment` or `onSubmit` is awaiting is not modelled. The model treats each handler as one atomic step.
- Draft.EditTitle: the input's `maxLength` of 200 is browser behaviour and is not applied. A restored title can exceed it anyway.
- Lengths are counted in Unicode characters, not UTF-16 code units. Only titles with characters outside the Basic Multilingual Plane are affected.
- Floating-point display values are not modelled: the SOL amount is computed in lamports, and the 90 % colour threshold of the title counter is left out. The insufficient-balance message is the fixed text JavaScript prints for 100010000 / 1e9.
- Presentation is left out: layout, styling, the image-count badge colours and the "Transaction:" label. The rest of the repository (wallet sign-in bar, presigned S3 upload, token helpers, landing and task-result pages) is not part of this model.
