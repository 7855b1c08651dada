/**
 * The image schema of `uploadProfileImageAction`: three refinements of the
 * submitted file, each with its message. Refinements are not fatal, so a file
 * that breaks several of them gets every one of their messages.
 */
module ImageSchema {
  import opened Wrappers
  import opened Validation

  /** The submitted file as the refinements see it: its size, and its name and
      MIME type, either of which may be undefined. */
  datatype File = File(size: nat, name: Option<string>, mimeType: Option<string>)

  const MAX_FILE_SIZE: nat := 5000000
  const ACCEPTED_IMAGE_TYPES: seq<string> := ["image/jpeg", "image/jpg", "image/png", "image/webp"]

  const IMAGE: string := "image"

  const MISSING_IMAGE: Message := Custom("Please update or add new image.")
  const WRONG_TYPE: Message := Custom(".jpg, .jpeg, .png and .webp files are accepted.")
  const TOO_LARGE: Message := Custom("Max file size is 5MB.")

  /** The refinements, in the order the schema chains them. */
  const ImageRules: seq<Rule<File>> := [
    Rule((f: File) => !(f.size == 0 || f.name.None?), MISSING_IMAGE),
    Rule((f: File) => f.mimeType.Some? && f.mimeType.value in ACCEPTED_IMAGE_TYPES, WRONG_TYPE),
    Rule((f: File) => f.size <= MAX_FILE_SIZE, TOO_LARGE)
  ]

  /** What the schema admits, stated directly: a non-empty, named file of one
      of four image types and of at most 5,000,000 bytes, the bound included. */
  predicate ImageAccepted(f: File) {
    && f.size != 0
    && f.name.Some?
    && f.mimeType in {Some("image/jpeg"), Some("image/jpg"), Some("image/png"), Some("image/webp")}
    && f.size <= 5000000
  }

  /** The messages reported for a file, in refinement order: one per broken refinement. */
  function ImageIssues(f: File): (ms: seq<Message>)
    ensures ms == (if f.size == 0 || f.name.None? then [MISSING_IMAGE] else [])
                + (if f.mimeType.None? || f.mimeType.value !in ACCEPTED_IMAGE_TYPES then [WRONG_TYPE] else [])
                + (if MAX_FILE_SIZE < f.size then [TOO_LARGE] else [])
    ensures ms == [] <==> ImageAccepted(f)
  {
    NoIssuesIff(ImageRules, f);
    assert ImageRules[1..][1..][1..] == [];
    assert Issues(ImageRules[2..], f) == if MAX_FILE_SIZE < f.size then [TOO_LARGE] else [];
    assert Issues(ImageRules[1..], f) ==
      (if f.mimeType.None? || f.mimeType.value !in ACCEPTED_IMAGE_TYPES then [WRONG_TYPE] else [])
      + Issues(ImageRules[2..], f);
    Issues(ImageRules, f)
  }

  /** The flattened field errors of the image schema. */
  function ImageErrors(f: File): (errs: FieldErrors)
    ensures errs.Keys <= {IMAGE}
    ensures IMAGE in errs <==> !ImageAccepted(f)
    ensures IMAGE in errs ==> (MISSING_IMAGE in errs[IMAGE] <==> f.size == 0 || f.name.None?)
    ensures IMAGE in errs ==> (WRONG_TYPE in errs[IMAGE] <==> f.mimeType !in {Some("image/jpeg"), Some("image/jpg"), Some("image/png"), Some("image/webp")})
    ensures IMAGE in errs ==> (TOO_LARGE in errs[IMAGE] <==> 5000000 < f.size)
  {
    Entry(IMAGE, ImageIssues(f))
  }

  /** `imageSchema.safeParse` on the submitted file. */
  function SafeParseImage(f: File): (r: Result<File, FieldErrors>)
    ensures r.Success? <==> ImageAccepted(f)
    ensures r.Success? ==> r.value == f
    ensures r.Failure? ==> r.error == ImageErrors(f) && IMAGE in r.error
  {
    var errs := ImageErrors(f);
    if errs == map[] then Success(f) else Failure(errs)
  }

  /** An empty file of a wrong type gets both messages: the first refinement
      failing does not stop the second. */
  lemma EmptyFileOfWrongType(name: string)
    ensures ImageIssues(File(0, Some(name), Some("text/plain"))) == [MISSING_IMAGE, WRONG_TYPE]
  {
  }

  /** A PNG of 6,000,000 bytes is rejected for its size alone. */
  lemma OversizedPngScenario(name: string)
    ensures ImageErrors(File(6000000, Some(name), Some("image/png"))) == map[IMAGE := [TOO_LARGE]]
  {
    assert ImageIssues(File(6000000, Some(name), Some("image/png"))) == [TOO_LARGE];
  }
}
