/**
 * The Android framework as Capturandro sees it: intents, the content-resolver
 * cursor and the outcomes of the file and image calls it makes. Every value
 * here is an input chosen by the platform, not computed by the controller.
 */
module Android {
  import opened Wrappers
  import opened Uris

  /** `Activity.RESULT_OK`. */
  const ResultOk: int := -1

  /** `Intent.ACTION_SEND` and `Intent.ACTION_SEND_MULTIPLE`. */
  const ActionSend: string := "android.intent.action.SEND"
  const ActionSendMultiple: string := "android.intent.action.SEND_MULTIPLE"

  /**
   * An `Intent`, seen through the accessors the controller calls:
   * `getAction()`, `getData()`, `hasExtra(EXTRA_STREAM)`,
   * `getParcelableExtra(EXTRA_STREAM)` and `getParcelableArrayListExtra(EXTRA_STREAM)`.
   * The last two are `None` when the extra is missing or of the other type.
   */
  datatype Intent = Intent(
    action: Option<string>,
    data: Option<Uri>,
    hasStream: bool,
    streamExtra: Option<Uri>,
    streamListExtra: Option<seq<Option<Uri>>>)

  /**
   * The first row of the cursor the content resolver returns for a picked Uri:
   * the value read from the `DATA` column (`None` for SQL NULL) and whether a
   * `DISPLAY_NAME` column exists.
   */
  datatype CursorRow = CursorRow(data: Option<string>, hasDisplayNameColumn: bool)

  /**
   * What the platform does during one picker result: the cursor returned by
   * `ContentResolver.query` (`None` for a null cursor), whether `File.createNewFile`
   * throws `IOException`, whether EXIF data is found in the source image, and
   * whether the resize throws `IllegalArgumentException`.
   */
  datatype Collaborators = Collaborators(
    query: Option<CursorRow>,
    createFileThrows: bool,
    exifFound: bool,
    resizeThrows: bool)
}
