/**
 * The stand-alone input validators of the frontend: an image file, a task title and an image count.
 * Each returns `{valid, error?}`; a guard fails with a fixed message, and the first failing guard wins.
 */
module Validation {
  import opened Wrappers
  import opened JsText

  const MAX_FILE_SIZE: nat := 5 * 1024 * 1024
  const ALLOWED_IMAGE_TYPES: seq<string> := ["image/jpeg", "image/jpg", "image/png", "image/gif", "image/webp"]
  const MAX_IMAGES_PER_TASK: nat := 10
  const MAX_TITLE_LENGTH: nat := 200

  // The messages, with the template literals evaluated for the constants above
  // (MAX_FILE_SIZE / (1024 * 1024) is 5).
  const NO_FILE_SELECTED := "No file selected"
  const INVALID_FILE_TYPE := "Invalid file type. Please upload JPEG, PNG, GIF, or WebP images only"
  const FILE_TOO_LARGE := "File size must be less than 5MB"
  const TITLE_REQUIRED := "Task title is required"
  const TITLE_TOO_LONG := "Title must be less than 200 characters"
  const NO_IMAGES := "At least one image is required"
  const TOO_MANY_IMAGES := "Maximum 10 images allowed per task"

  /** The two attributes of a browser `File` that are inspected: its MIME type and its size in bytes. */
  datatype ImageFile = ImageFile(mimeType: string, size: nat)

  /** The `{ valid, error? }` object the validators return. */
  datatype Verdict = Verdict(valid: bool, error: Option<string>)

  const Accepted := Verdict(true, None)

  function Rejected(message: string): Verdict {
    Verdict(false, Some(message))
  }

  /**
   * Validates a selected file (None when nothing was selected). The file is accepted exactly when its
   * type is one of the five allowed MIME types and its size is at most 5 MiB; the missing file is
   * reported before the type, and the type before the size.
   */
  function ValidateImageFile(file: Option<ImageFile>): (r: Verdict)
    ensures r.valid <==> file.Some? && file.value.mimeType in ALLOWED_IMAGE_TYPES && file.value.size <= MAX_FILE_SIZE
    ensures r.valid <==> r.error == None
    ensures file.None? ==> r.error == Some(NO_FILE_SELECTED)
    ensures file.Some? && file.value.mimeType !in ALLOWED_IMAGE_TYPES ==> r.error == Some(INVALID_FILE_TYPE)
    ensures file.Some? && file.value.mimeType in ALLOWED_IMAGE_TYPES && file.value.size > MAX_FILE_SIZE
            ==> r.error == Some(FILE_TOO_LARGE)
  {
    if file.None? then Rejected(NO_FILE_SELECTED)
    else if file.value.mimeType !in ALLOWED_IMAGE_TYPES then Rejected(INVALID_FILE_TYPE)
    else if file.value.size > MAX_FILE_SIZE then Rejected(FILE_TOO_LARGE)
    else Accepted
  }

  /**
   * Validates a task title. It is accepted exactly when it is not blank and has at most 200 characters;
   * a blank title is reported as missing whatever its length.
   */
  function ValidateTaskTitle(title: string): (r: Verdict)
    ensures r.valid <==> !IsBlank(title) && |title| <= MAX_TITLE_LENGTH
    ensures r.valid <==> r.error == None
    ensures IsBlank(title) ==> r.error == Some(TITLE_REQUIRED)
    ensures !IsBlank(title) && |title| > MAX_TITLE_LENGTH ==> r.error == Some(TITLE_TOO_LONG)
  {
    if title == "" || Trim(title) == "" then Rejected(TITLE_REQUIRED)
    else if |title| > MAX_TITLE_LENGTH then Rejected(TITLE_TOO_LONG)
    else Accepted
  }

  /** Validates the number of images of a task: accepted exactly for 1 to 10. */
  function ValidateImageCount(count: nat): (r: Verdict)
    ensures r.valid <==> 1 <= count <= MAX_IMAGES_PER_TASK
    ensures r.valid <==> r.error == None
    ensures count == 0 ==> r.error == Some(NO_IMAGES)
    ensures count > MAX_IMAGES_PER_TASK ==> r.error == Some(TOO_MANY_IMAGES)
  {
    if count == 0 then Rejected(NO_IMAGES)
    else if count > MAX_IMAGES_PER_TASK then Rejected(TOO_MANY_IMAGES)
    else Accepted
  }

  /** The size cap is inclusive: a file of exactly 5 MiB passes, one byte more does not. */
  lemma FileSizeCapIsInclusive(mimeType: string)
    requires mimeType in ALLOWED_IMAGE_TYPES
    ensures ValidateImageFile(Some(ImageFile(mimeType, MAX_FILE_SIZE))).valid
    ensures ValidateImageFile(Some(ImageFile(mimeType, MAX_FILE_SIZE + 1))).error == Some(FILE_TOO_LARGE)
  {
  }

  /** An oversized file of a disallowed type reports its type, not its size. */
  lemma TypeIsCheckedBeforeSize(file: ImageFile)
    requires file.mimeType !in ALLOWED_IMAGE_TYPES && file.size > MAX_FILE_SIZE
    ensures ValidateImageFile(Some(file)).error == Some(INVALID_FILE_TYPE)
  {
  }

  /** A title of 201 spaces is reported as missing, not as too long. */
  lemma LongBlankTitleIsReportedAsMissing()
    ensures ValidateTaskTitle(seq(201, _ => ' ')).error == Some(TITLE_REQUIRED)
  {
  }

  /** The length cap is inclusive: a non-blank title of exactly 200 characters passes, one of 201 does not. */
  lemma TitleLengthCapIsInclusive(title: string, c: char)
    requires |title| == MAX_TITLE_LENGTH && !IsBlank(title)
    ensures ValidateTaskTitle(title).valid
    ensures ValidateTaskTitle(title + [c]).error == Some(TITLE_TOO_LONG)
  {
    var longer := title + [c];
    assert !IsBlank(longer) by {
      var i :| 0 <= i < |title| && !IsJsWhitespace(title[i]);
      assert longer[i] == title[i];
    }
  }
}
