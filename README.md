# Profile actions: a verified model

This project models the two server actions of the profile page in
`frontend/src/data/actions/profile-actions.ts`:

- `updateProfileAction` validates first name, last name and bio against a
  length schema, then issues one `PUT` of the validated record to the user
  resource and turns its outcome into a result envelope.
- `uploadProfileImageAction` identifies the logged-in user (raising when that
  fails), validates the submitted image, deletes the previous image when there
  is one, uploads the new image and binds the uploaded asset's id to the user.

Every return builds the new envelope as `{...prevState, overrides}`.

The model is written in Dafny, one module per concern:

- `Wrappers` — `Option` and `Result`.
- `Validation` — a check is a predicate paired with a message (`Rule`). `Issues` runs every check of a field and keeps the messages of the failing ones, in order. Checks are not fatal to each other.
- `ProfileSchema` and `ImageSchema` — the two schemas, their constants and messages, the flattened field errors (`fieldErrors`: field name to list of messages, failing fields only) and `safeParse`.
- `Envelopes` — the envelope as a map from field name to value, and object spread.
- `Backend` — the collaborators' outcomes as datatypes, and the requests they receive as a call trace.
- `ProfileActions` — the terminal states of each action, the envelope each one returns, the two actions as methods with early returns, and the trace they issue.

The collaborators (`getUserMeLoader`, `fileDeleteService`, `fileUploadService`, `mutateData`) are given to the actions as their outcomes. `flattenAttributes` is a function parameter about which nothing is assumed. Each action records the requests it issues, in order, in a ghost trace.

Behaviour the model keeps as the code has it:

- The bio's message says 100 characters; the limit enforced is 200 (`BioLimitIsTwoHundred`).
- The paths of `updateProfileAction` that follow the mutation never clear `zodErrors`. A successful update can therefore return data beside the validation errors of an earlier attempt (`StaleValidationErrors`). Its failure paths also leave `data` as the previous state had it. They do not set it to null.
- Each failing field gets all of its messages, not only the first. An empty file of a wrong type gets two messages (`EmptyFileOfWrongType`).
- The bind mutation's response is not inspected. A successful upload always ends in "Image Uploaded", with the flattened response as `data`.
- A failed delete stops the attempt before the upload. A failed bind after a successful upload is not compensated.

## Model

| member | source | states |
|---|---|---|
| `Validation.Issues` | frontend/src/data/actions/profile-actions.ts:76-88 | every reported message comes from a check that fails on the value, at most one per check |
| `Validation.NoIssuesIff` | frontend/src/data/actions/profile-actions.ts:76-88 | a value passes (no messages) exactly when every check holds of it |
| `Validation.FailingRuleReported` | frontend/src/data/actions/profile-actions.ts:79-88 | checks are not fatal: the message of every failing check is reported, whatever the others found |
| `Validation.Entry` | frontend/src/data/actions/profile-actions.ts:32 | a field appears in the flattened field errors exactly when it has messages, and then with those messages |
| `ProfileSchema.NameIssues` | frontend/src/data/actions/profile-actions.ts:10-15 | a name reports "expected string" when it is not a string, the default minimum message under 3 characters, the custom message over 20, and nothing otherwise; it passes iff it is a string of 3 to 20 characters |
| `ProfileSchema.BioIssues` | frontend/src/data/actions/profile-actions.ts:16-18 | a bio reports "expected string" when it is not a string, the "less than 100 characters" message over 200 characters, and nothing otherwise; it passes iff it is a string of at most 200 characters |
| `ProfileSchema.ProfileErrors` | frontend/src/data/actions/profile-actions.ts:9-26 | all three fields are checked; each field has an entry iff it fails its bounds, and no other key appears |
| `ProfileSchema.SafeParseProfile` | frontend/src/data/actions/profile-actions.ts:22-28 | parsing succeeds iff both names have 3 to 20 characters and the bio at most 200, yielding exactly the submitted strings; otherwise it fails with the non-empty field errors |
| `ProfileSchema.BioLimitIsTwoHundred` | frontend/src/data/actions/profile-actions.ts:16-17 | a bio of 101 to 200 characters is accepted, although its message names 100 |
| `ProfileSchema.ShortFirstNameScenario` | frontend/src/data/actions/profile-actions.ts:10-12 | first name "Al" with valid other fields yields exactly one entry, for the first name, with the minimum-length message |
| `ImageSchema.ImageIssues` | frontend/src/data/actions/profile-actions.ts:66-89 | the messages are, in order: the missing-image message iff the size is 0 or the name is undefined, the type message iff the type is not one of the four accepted ones, the size message iff the size exceeds 5,000,000; none iff the image is accepted |
| `ImageSchema.ImageErrors` | frontend/src/data/actions/profile-actions.ts:76-89 | only the `image` field can appear; it appears iff the image is rejected, and holds each of the three messages iff its own condition fails |
| `ImageSchema.SafeParseImage` | frontend/src/data/actions/profile-actions.ts:107-111 | parsing succeeds iff the size is non-zero, the name defined, the type one of image/jpeg, image/jpg, image/png, image/webp, and the size at most 5,000,000 inclusive; otherwise it fails with the image's field errors |
| `ImageSchema.EmptyFileOfWrongType` | frontend/src/data/actions/profile-actions.ts:79-87 | an empty file of a wrong type gets both the missing-image and the type message, in that order |
| `ImageSchema.OversizedPngScenario` | frontend/src/data/actions/profile-actions.ts:88 | a named PNG of 6,000,000 bytes is rejected with the size message alone |
| `Envelopes.Spread` | frontend/src/data/actions/profile-actions.ts:29-34 | the spread has the fields of both; the overrides win and every other previous field is kept |
| `Envelopes.SpreadKeeps` | frontend/src/data/actions/profile-actions.ts:58-63 | a field the overrides do not name is carried over as it was, absent staying absent |
| `ProfileActions.ProfileEnvelope` | frontend/src/data/actions/profile-actions.ts:28-63 | each terminal state of the profile update sets its message and `strapiErrors`; `zodErrors` only on a validation failure and `data` only on success, leaving both otherwise as before; no other field changes |
| `ProfileActions.ImageEnvelope` | frontend/src/data/actions/profile-actions.ts:111-173 | each terminal state of the image workflow sets its own message and both error fields (null except the validation errors or the upload error); `data` is null for an invalid image and the flattened bind response on success, otherwise kept; no other field changes |
| `ProfileActions.StaleValidationErrors` | frontend/src/data/actions/profile-actions.ts:28-63 | after a rejected submission, a successful update still carries the earlier, non-empty validation errors beside its data |
| `ProfileActions.ImageMessagesDistinct` | frontend/src/data/actions/profile-actions.ts:111-173 | two image envelopes with the same message come from the same terminal state |
| `ProfileActions.FieldsOf` | frontend/src/data/actions/profile-actions.ts:38 | the record sent in the update is what parsing an accepted form yields |
| `ProfileActions.UpdateProfileAction` | frontend/src/data/actions/profile-actions.ts:21-64 | a rejected form returns its field errors with "Missing fields" and issues nothing; an accepted form issues exactly one PUT of the validated record to the user with all relations populated, and no response, an error response or a response decide between "An error occurred" (with null or the backend error) and "Profile updated" with the flattened data |
| `ProfileActions.ImageCalls` | frontend/src/data/actions/profile-actions.ts:98-164 | every trace starts with the identity lookup |
| `ProfileActions.ImageCallsInOrder` | frontend/src/data/actions/profile-actions.ts:98-164 | requests are issued in the order identity, delete, upload, bind, each at most once |
| `ProfileActions.ImageCallsDelete` | frontend/src/data/actions/profile-actions.ts:121-133 | the previous image is deleted iff the user is known, the image passes and the previous id is non-empty, and only that id is deleted |
| `ProfileActions.ImageCallsUpload` | frontend/src/data/actions/profile-actions.ts:111-137 | an upload is issued iff the user is known, the image passes, and there was no previous image or deleting it succeeded |
| `ProfileActions.ImageCallsBind` | frontend/src/data/actions/profile-actions.ts:139-164 | the user is mutated iff the upload was reached and returned assets, and then by one PUT to that user setting the image to the first asset's id |
| `ProfileActions.UploadProfileImageAction` | frontend/src/data/actions/profile-actions.ts:91-174 | an unknown user raises the authorization error; otherwise it returns the envelope of the step that ended the attempt (invalid image, failed delete, no upload response, upload error, or "Image Uploaded" whatever the bind returned), and issues exactly the requests of `ImageCalls` |

## Left out

- `flattenAttributes` is not part of this model. It is a parameter of the actions, and no property of it (idempotence, shape) is assumed or proved.
- `getUserMeLoader`, `fileDeleteService`, `fileUploadService` and `mutateData` are not part of this model. Their outcomes are inputs fixed before the action runs. Their effect on the backend is not modelled.
- The query string built by `qs.stringify` is opaque. The populated user path is a constructor of its own.
- Zod is not modelled as a library. Only the outcome of its `min`, `max` and `refine` checks is reproduced. Its default texts for a too-short string and for a value that is not a string stay abstract.
- String lengths count characters. Zod counts UTF-16 code units, which differ for characters outside the Basic Multilingual Plane.
- `FormData` and `Object.fromEntries` are not modelled. Each profile entry is an optional string, where absence stands for any value that is not a string. The image is a record of size, optional name and optional type.
- The case of a missing image is left out. The first refinement would throw on it when reading the size.
- UploadProfileImageAction: requires the asset list of a successful upload to be non-empty. With an empty list the code throws when reading the first id.
- JavaScript truthiness is abstracted. The previous image id is a string, and it counts as absent iff it is empty (a null or undefined id is not modelled). A response counts as carrying an error iff the outcome says so.
- The logged-in user's id is a string. The code interpolates it into the path.
- Suspension at each `await`, and concurrent submissions, are not modelled. The model is sequential.
- `frontend/src/app/layout.tsx` and `frontend/src/data/services/summary-service.ts` are not part of this model. The first renders the page and the second wraps `fetch`.
