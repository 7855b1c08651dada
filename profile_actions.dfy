/**
 * The two server actions of the profile page. Each is a straight sequence of
 * collaborator calls with early returns; every return spreads its overrides
 * over the previous state. The collaborators' outcomes are inputs, and the
 * requests issued are recorded, in order, in a ghost call trace.
 */
module ProfileActions {
  import opened Wrappers
  import opened Validation
  import opened ProfileSchema
  import opened ImageSchema
  import opened Envelopes
  import opened Backend

  /** An action either returns an envelope or raises; raising is not an envelope. */
  datatype Outcome = Returned(envelope: Envelope) | Raised(reason: string)

  const NOT_AUTHORIZED: string := "You are not authorized to perform this action."

  /** The fields every terminal state overrides; any other field is carried over. */
  const ResultFields: set<string> := {STRAPI_ERRORS, ZOD_ERRORS, DATA, MESSAGE}

  /** The terminal states of `updateProfileAction`. */
  datatype ProfileEnd =
    | MissingFields(errors: FieldErrors)
    | UpdateNoResponse
    | UpdateRejected(error: Json)
    | ProfileUpdated(data: Json)

  /** The envelope a terminal state of `updateProfileAction` returns. The
      message is always set; `strapiErrors` is the backend's error or null;
      `zodErrors` is set only on a validation failure and otherwise left as the
      previous state had it; `data` is set only on success. */
  function ProfileEnvelope(prevState: Envelope, t: ProfileEnd): (r: Envelope)
    ensures MESSAGE in r && r[MESSAGE] == Text(
      match t
      case MissingFields(_) => "Missing fields"
      case UpdateNoResponse => "An error occurred"
      case UpdateRejected(_) => "An error occurred"
      case ProfileUpdated(_) => "Profile updated")
    ensures STRAPI_ERRORS in r && r[STRAPI_ERRORS] == (if t.UpdateRejected? then Remote(t.error) else Null)
    ensures t.MissingFields? ==> ZOD_ERRORS in r && r[ZOD_ERRORS] == Errors(t.errors)
    ensures !t.MissingFields? ==> Keeps(prevState, r, ZOD_ERRORS)
    ensures t.ProfileUpdated? ==> DATA in r && r[DATA] == Remote(t.data)
    ensures !t.ProfileUpdated? ==> Keeps(prevState, r, DATA)
    ensures forall k :: k !in ResultFields ==> Keeps(prevState, r, k)
  {
    match t
    case MissingFields(errors) =>
      Spread(prevState, map[STRAPI_ERRORS := Null, ZOD_ERRORS := Errors(errors), MESSAGE := Text("Missing fields")])
    case UpdateNoResponse =>
      Spread(prevState, map[STRAPI_ERRORS := Null, MESSAGE := Text("An error occurred")])
    case UpdateRejected(error) =>
      Spread(prevState, map[STRAPI_ERRORS := Remote(error), MESSAGE := Text("An error occurred")])
    case ProfileUpdated(data) =>
      Spread(prevState, map[MESSAGE := Text("Profile updated"), DATA := Remote(data), STRAPI_ERRORS := Null])
  }

  /** The terminal states of `uploadProfileImageAction` that return an envelope. */
  datatype ImageEnd =
    | InvalidImage(errors: FieldErrors)
    | DeleteFailed
    | UploadNoResponse
    | UploadRejected(error: Json)
    | ImageUploaded(data: Json)

  /** The envelope a terminal state of `uploadProfileImageAction` returns. The
      message is always set and distinct per state; both error fields are null
      except the validation errors of an invalid image and the backend error of
      a rejected upload; `data` is null for an invalid image, the bound user for
      a completed upload, and carried over otherwise. */
  function ImageEnvelope(prevState: Envelope, t: ImageEnd): (r: Envelope)
    ensures MESSAGE in r && r[MESSAGE] == Text(
      match t
      case InvalidImage(_) => "Invalid Image"
      case DeleteFailed => "Failed to Delete Previous Image."
      case UploadNoResponse => "Ops! Something went wrong. Please try again."
      case UploadRejected(_) => "Failed to Upload File."
      case ImageUploaded(_) => "Image Uploaded")
    ensures STRAPI_ERRORS in r && r[STRAPI_ERRORS] == (if t.UploadRejected? then Remote(t.error) else Null)
    ensures ZOD_ERRORS in r && r[ZOD_ERRORS] == (if t.InvalidImage? then Errors(t.errors) else Null)
    ensures t.InvalidImage? ==> DATA in r && r[DATA] == Null
    ensures t.ImageUploaded? ==> DATA in r && r[DATA] == Remote(t.data)
    ensures !t.InvalidImage? && !t.ImageUploaded? ==> Keeps(prevState, r, DATA)
    ensures forall k :: k !in ResultFields ==> Keeps(prevState, r, k)
  {
    match t
    case InvalidImage(errors) =>
      Spread(prevState, map[ZOD_ERRORS := Errors(errors), STRAPI_ERRORS := Null, DATA := Null,
                            MESSAGE := Text("Invalid Image")])
    case DeleteFailed =>
      Spread(prevState, map[STRAPI_ERRORS := Null, ZOD_ERRORS := Null,
                            MESSAGE := Text("Failed to Delete Previous Image.")])
    case UploadNoResponse =>
      Spread(prevState, map[STRAPI_ERRORS := Null, ZOD_ERRORS := Null,
                            MESSAGE := Text("Ops! Something went wrong. Please try again.")])
    case UploadRejected(error) =>
      Spread(prevState, map[STRAPI_ERRORS := Remote(error), ZOD_ERRORS := Null,
                            MESSAGE := Text("Failed to Upload File.")])
    case ImageUploaded(data) =>
      Spread(prevState, map[DATA := Remote(data), ZOD_ERRORS := Null, STRAPI_ERRORS := Null,
                            MESSAGE := Text("Image Uploaded")])
  }

  /** The remote-result paths of `updateProfileAction` do not clear
      `zodErrors`: after a rejected submission, a successful one returns an
      envelope that still holds the earlier validation errors beside the data. */
  lemma StaleValidationErrors(prevState: Envelope, rejected: ProfileForm, data: Json)
    requires !ProfileAccepted(rejected)
    ensures var failed := ProfileEnvelope(prevState, MissingFields(ProfileErrors(rejected)));
            var updated := ProfileEnvelope(failed, ProfileUpdated(data));
            && updated[MESSAGE] == Text("Profile updated")
            && updated[DATA] == Remote(data)
            && updated[ZOD_ERRORS] == Errors(ProfileErrors(rejected))
            && ProfileErrors(rejected) != map[]
  {
    var errs := ProfileErrors(rejected);
    assert FIRST_NAME in errs || LAST_NAME in errs || BIO in errs;
  }

  /** The image workflow reports each terminal state with its own message, so
      the message alone tells the caller which step ended the attempt. */
  lemma ImageMessagesDistinct(prev1: Envelope, t1: ImageEnd, prev2: Envelope, t2: ImageEnd)
    requires ImageEnvelope(prev1, t1)[MESSAGE] == ImageEnvelope(prev2, t2)[MESSAGE]
    ensures t1.InvalidImage? <==> t2.InvalidImage?
    ensures t1.DeleteFailed? <==> t2.DeleteFailed?
    ensures t1.UploadNoResponse? <==> t2.UploadNoResponse?
    ensures t1.UploadRejected? <==> t2.UploadRejected?
    ensures t1.ImageUploaded? <==> t2.ImageUploaded?
  {
  }

  /** The validated record of an accepted form. */
  function FieldsOf(form: ProfileForm): (fields: ProfileFields)
    requires ProfileAccepted(form)
    ensures SafeParseProfile(form) == Success(fields)
  {
    ProfileFields(form.firstName.value, form.lastName.value, form.bio.value)
  }

  /**
   * `updateProfileAction`: validate the three fields; on failure report their
   * errors and issue nothing; otherwise issue exactly one PUT of the validated
   * record, whose outcome decides the message. The remote-result paths leave
   * `zodErrors` (and, unless the update succeeds, `data`) as the previous
   * state had them.
   */
  method UpdateProfileAction(userId: string, prevState: Envelope, form: ProfileForm,
                             response: MutateResult, flatten: MutateResult -> Json)
    returns (r: Envelope, ghost calls: seq<Call>)
    ensures !ProfileAccepted(form) ==> calls == []
    ensures !ProfileAccepted(form) ==> r == ProfileEnvelope(prevState, MissingFields(ProfileErrors(form)))
    ensures ProfileAccepted(form) ==>
      calls == [MutateData(Put, UserPopulateAll(userId), ProfilePayload(FieldsOf(form)))]
    ensures ProfileAccepted(form) && response.NoResponse? ==> r == ProfileEnvelope(prevState, UpdateNoResponse)
    ensures ProfileAccepted(form) && response.ErrorResponse? ==> r == ProfileEnvelope(prevState, UpdateRejected(response.error))
    ensures ProfileAccepted(form) && response.Response? ==> r == ProfileEnvelope(prevState, ProfileUpdated(flatten(response)))
    ensures Mutates(calls) <==> ProfileAccepted(form)
  {
    var validated := SafeParseProfile(form);
    if validated.Failure? {
      r := ProfileEnvelope(prevState, MissingFields(validated.error));
      calls := [];
      return;
    }

    calls := [MutateData(Put, UserPopulateAll(userId), ProfilePayload(validated.value))];
    assert calls[0] in calls;

    if response.NoResponse? {
      r := ProfileEnvelope(prevState, UpdateNoResponse);
      return;
    }

    if response.ErrorResponse? {
      r := ProfileEnvelope(prevState, UpdateRejected(response.error));
      return;
    }

    var flattenedData := flatten(response);
    r := ProfileEnvelope(prevState, ProfileUpdated(flattenedData));
  }

  /** The image workflow reaches the upload: the user is known, the image
      passes, and there was no previous image or deleting it succeeded. */
  predicate ReachesUpload(imageId: string, image: File, user: UserResult, deletion: DeleteResult) {
    user.Authorized? && ImageAccepted(image) && (imageId == "" || deletion.Deleted?)
  }

  /** The requests `uploadProfileImageAction` issues, in order, given what its
      collaborators answer. */
  function ImageCalls(imageId: string, image: File, user: UserResult, deletion: DeleteResult,
                      upload: UploadResult): (calls: seq<Call>)
    requires upload.Uploaded? ==> upload.assetIds != []
    ensures calls != [] && calls[0] == GetUserMe
  {
    if user.Unauthorized? || !ImageAccepted(image) then [GetUserMe]
    else if imageId != "" && deletion.DeleteThrew? then [GetUserMe, FileDelete(imageId)]
    else
      [GetUserMe]
      + (if imageId != "" then [FileDelete(imageId)] else [])
      + [FileUpload(image)]
      + (if upload.Uploaded? then [MutateData(Put, User(user.id), ImagePayload(upload.assetIds[0]))] else [])
  }

  /** Identity, then delete, then upload, then bind: each at most once, never out of order. */
  lemma ImageCallsInOrder(imageId: string, image: File, user: UserResult, deletion: DeleteResult,
                          upload: UploadResult)
    requires upload.Uploaded? ==> upload.assetIds != []
    ensures InWorkflowOrder(ImageCalls(imageId, image, user, deletion, upload))
  {
    var calls := ImageCalls(imageId, image, user, deletion, upload);
    if ReachesUpload(imageId, image, user, deletion) {
      // stages 0, then 1 when there is a previous image, then 2, then 3 on a successful upload
      assert forall k :: 0 <= k < |calls| ==>
        Stage(calls[k]) == (if k == 0 || imageId != "" then k else k + 1);
    }
  }

  /** The previous image is deleted exactly when the user is known, the new
      image passes and there is a previous image. */
  lemma ImageCallsDelete(imageId: string, image: File, user: UserResult, deletion: DeleteResult,
                         upload: UploadResult)
    requires upload.Uploaded? ==> upload.assetIds != []
    ensures FileDelete(imageId) in ImageCalls(imageId, image, user, deletion, upload)
            <==> user.Authorized? && ImageAccepted(image) && imageId != ""
    ensures forall c :: c in ImageCalls(imageId, image, user, deletion, upload) && c.FileDelete? ==> c == FileDelete(imageId)
  {
  }

  /** Nothing is uploaded for an unknown user, an invalid image or a failed delete. */
  lemma ImageCallsUpload(imageId: string, image: File, user: UserResult, deletion: DeleteResult,
                         upload: UploadResult)
    requires upload.Uploaded? ==> upload.assetIds != []
    ensures Uploads(ImageCalls(imageId, image, user, deletion, upload)) <==> ReachesUpload(imageId, image, user, deletion)
  {
    var calls := ImageCalls(imageId, image, user, deletion, upload);
    if ReachesUpload(imageId, image, user, deletion) {
      assert FileUpload(image) in calls;
    }
  }

  /** The user record is mutated only after a successful upload, and then
      with the first uploaded asset's id. */
  lemma ImageCallsBind(imageId: string, image: File, user: UserResult, deletion: DeleteResult,
                       upload: UploadResult)
    requires upload.Uploaded? ==> upload.assetIds != []
    ensures Mutates(ImageCalls(imageId, image, user, deletion, upload))
            <==> ReachesUpload(imageId, image, user, deletion) && upload.Uploaded?
    ensures forall c :: c in ImageCalls(imageId, image, user, deletion, upload) && c.MutateData? ==>
              user.Authorized? && upload.Uploaded? &&
              c == MutateData(Put, User(user.id), ImagePayload(upload.assetIds[0]))
  {
    var calls := ImageCalls(imageId, image, user, deletion, upload);
    if ReachesUpload(imageId, image, user, deletion) && upload.Uploaded? {
      assert calls[|calls| - 1] in calls;
    }
  }

  /**
   * `uploadProfileImageAction`: identify the user (raising when that fails),
   * validate the image, delete the previous image when there is one, upload
   * the new one and bind its id to the user. A failure at one step issues
   * nothing after it. The bind's response is not inspected: a successful
   * upload always ends in "Image Uploaded".
   */
  method UploadProfileImageAction(imageId: string, prevState: Envelope, image: File,
                                  user: UserResult, deletion: DeleteResult,
                                  upload: UploadResult, bind: MutateResult,
                                  flatten: MutateResult -> Json)
    returns (out: Outcome, ghost calls: seq<Call>)
    requires upload.Uploaded? ==> upload.assetIds != []
    ensures calls == ImageCalls(imageId, image, user, deletion, upload)
    ensures out.Raised? <==> user.Unauthorized?
    ensures user.Unauthorized? ==> out == Raised(NOT_AUTHORIZED)
    ensures user.Authorized? && !ImageAccepted(image) ==>
      out == Returned(ImageEnvelope(prevState, InvalidImage(ImageErrors(image))))
    ensures user.Authorized? && ImageAccepted(image) && imageId != "" && deletion.DeleteThrew? ==>
      out == Returned(ImageEnvelope(prevState, DeleteFailed))
    ensures ReachesUpload(imageId, image, user, deletion) ==>
      out == Returned(ImageEnvelope(prevState,
        match upload
        case NoUploadResponse => UploadNoResponse
        case UploadError(error) => UploadRejected(error)
        case Uploaded(_) => ImageUploaded(flatten(bind))))
  {
    calls := [GetUserMe];
    if user.Unauthorized? {
      out := Raised(NOT_AUTHORIZED);
      return;
    }
    var userId := user.id;

    var validatedFields := SafeParseImage(image);
    if validatedFields.Failure? {
      out := Returned(ImageEnvelope(prevState, InvalidImage(validatedFields.error)));
      return;
    }

    if imageId != "" {
      calls := calls + [FileDelete(imageId)];
      if deletion.DeleteThrew? {
        out := Returned(ImageEnvelope(prevState, DeleteFailed));
        return;
      }
    }

    calls := calls + [FileUpload(image)];

    if upload.NoUploadResponse? {
      out := Returned(ImageEnvelope(prevState, UploadNoResponse));
      return;
    }

    if upload.UploadError? {
      out := Returned(ImageEnvelope(prevState, UploadRejected(upload.error)));
      return;
    }

    var updatedImageId := upload.assetIds[0];
    calls := calls + [MutateData(Put, User(userId), ImagePayload(updatedImageId))];
    var flattenedData := flatten(bind);
    out := Returned(ImageEnvelope(prevState, ImageUploaded(flattenedData)));
  }
}
