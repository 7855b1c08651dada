/**
 * The collaborators of the actions, none of which is part of the model: the
 * identity loader, the file delete and upload services and the mutation
 * client. Each call is represented by the outcome it produces, supplied to
 * the actions as input, and by the record of the request in a call trace.
 */
module Backend {
  import opened ProfileSchema
  import opened ImageSchema
  import opened Envelopes

  /** `getUserMeLoader()`: `ok` false, or the logged-in user's id. */
  datatype UserResult = Unauthorized | Authorized(id: string)

  /** `fileDeleteService(id)`: completes or throws. */
  datatype DeleteResult = Deleted | DeleteThrew

  type AssetId = int

  /** `fileUploadService(image)`: no response, a response carrying an error, or
      the uploaded assets' ids. */
  datatype UploadResult = NoUploadResponse | UploadError(error: Json) | Uploaded(assetIds: seq<AssetId>)

  /** `mutateData(method, path, body)`: no response, a response carrying an
      error, or a response. */
  datatype MutateResult = NoResponse | ErrorResponse(error: Json) | Response(body: Json)

  datatype HttpMethod = Put

  /** The user resource, with the query that populates all relations, or plain. */
  datatype Path = UserPopulateAll(userId: string) | User(userId: string)

  datatype Payload = ProfilePayload(fields: ProfileFields) | ImagePayload(image: AssetId)

  /** A request issued to a collaborator. */
  datatype Call =
    | GetUserMe
    | FileDelete(imageId: string)
    | FileUpload(image: File)
    | MutateData(verb: HttpMethod, path: Path, payload: Payload)

  /** Where a call stands in the image workflow: identity, delete, upload, bind. */
  function Stage(c: Call): nat {
    match c
    case GetUserMe => 0
    case FileDelete(_) => 1
    case FileUpload(_) => 2
    case MutateData(_, _, _) => 3
  }

  /** Calls issued in workflow order, each stage at most once. */
  predicate InWorkflowOrder(calls: seq<Call>) {
    forall i, j :: 0 <= i < j < |calls| ==> Stage(calls[i]) < Stage(calls[j])
  }

  /** Whether a mutation was issued. */
  predicate Mutates(calls: seq<Call>) {
    exists c :: c in calls && c.MutateData?
  }

  /** Whether an upload was issued. */
  predicate Uploads(calls: seq<Call>) {
    exists c :: c in calls && c.FileUpload?
  }
}
