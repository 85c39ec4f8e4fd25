/**
 * What each operation of the Capturandro controller does, as functions of the
 * controller's settings, its pending filename and the platform's answers.
 * The methods of `Controller.Capturandro` are proved to perform exactly these
 * runs; the lemmas of module `Properties` are proved about them.
 */
module Routing {
  import opened Wrappers
  import opened Uris
  import opened Android
  import opened Effects

  /** The request codes passed to `startActivityForResult`. */
  const ImageFromCameraResult: int := 1
  const ImageFromGalleryResult: int := 2

  /** The messages of the exceptions the controller raises itself. */
  const EventHandlerMissing: string :=
    "Unable to import image. Did you remember to implement ICapturandroiEventHandler?"
  const PicasaHandlerMissing: string :=
    "Unable to import image. Did you remember to implement ICapturandroPicasaEventHandler?"
  const ImageCouldNotBeAdded: string := "Image could not be added"
  const VideoCantBeAdded: string := "Video can't be added"

  /**
   * The parts of a controller that are fixed at construction: whether each of the
   * two event handlers is registered, the storage-directory override, and the
   * activity's external cache directory, which is null when shared storage is
   * unavailable.
   */
  datatype Settings = Settings(
    eventHandler: bool,
    picasaHandler: bool,
    storageDirectory: Option<string>,
    cacheDir: Option<string>)

  /**
   * `getStorageDirectory`: the override when one is set, the cache directory
   * (possibly null) otherwise.
   */
  function StorageDirectory(s: Settings): Option<string>
  {
    if s.storageDirectory.None? then s.cacheDir else s.storageDirectory
  }

  /**
   * `saveBitmap`: with EXIF data the source image is resized and rotated into the
   * target; without it the target is resized onto itself. Then exactly one
   * callback, success or the resize's failure. Calling a callback on a missing
   * event handler throws `NullPointerException`.
   */
  function SaveBitmapRun(handler: bool, name: string, inFile: File, outFile: File, w: Collaborators): Run
  {
    var resize := ResizeRequested(if w.exifFound then inFile else outFile, outFile, w.exifFound);
    var callback := if w.resizeThrows then ImportFailed(ResizeRejected) else ImportSucceeded(name);
    if handler then Run([resize, callback], Normal) else Run([resize], Thrown(NullPointer))
  }

  /** The three ways `handleImageFromGallery` can go. */
  datatype GalleryRoute = DownloadRoute | IgnoreRoute | LocalCopyRoute(row: CursorRow)

  /**
   * The classification done by `handleImageFromGallery`: with a cursor, provider
   * Uris are downloaded when a `DISPLAY_NAME` column exists and dropped otherwise,
   * and every other Uri is copied locally; without a cursor, a non-empty Uri is
   * downloaded and an empty one dropped.
   */
  function Route(uri: Uri, query: Option<CursorRow>): GalleryRoute
  {
    match query
    case Some(row) =>
      if IsPicasaProviderUri(uri) then
        (if row.hasDisplayNameColumn then DownloadRoute else IgnoreRoute)
      else LocalCopyRoute(row)
    case None =>
      if IsPicasaAndroid2Image(Some(uri)) then DownloadRoute else IgnoreRoute
  }

  /** `fetchPicasaImage`: needs the Picasa handler, then starts one download task. */
  function DownloadRun(s: Settings, uri: Uri, filename: Option<string>): Run
  {
    if !s.picasaHandler then Run([], Thrown(IllegalState(PicasaHandlerMissing)))
    else Run([DownloadStarted(uri, filename)], Normal)
  }

  /**
   * `fetchLocalGalleryImageFile`: the path read from the cursor is resized into
   * `<cache dir>/<filename>`, and success is reported once more afterwards.
   * A null path or a null filename makes a `File` constructor throw.
   */
  function LocalCopyRun(s: Settings, filename: Option<string>, row: CursorRow, w: Collaborators): Run
  {
    if row.data.None? || filename.None? then Run([], Thrown(NullPointer))
    else
      var name := filename.value;
      var saved := SaveBitmapRun(s.eventHandler, name, File(None, row.data.value), File(s.cacheDir, name), w);
      if saved.completion.Thrown? then saved
      else Run(saved.effects + [ImportSucceeded(name)], Normal)
  }

  /** `handleImageFromGallery` (and `handleSendImage`, which is only a call to it). */
  function GalleryRun(s: Settings, uri: Uri, filename: Option<string>, w: Collaborators): Run
  {
    match Route(uri, w.query)
    case DownloadRoute => DownloadRun(s, uri, filename)
    case IgnoreRoute => Run([], Normal)
    case LocalCopyRoute(row) => LocalCopyRun(s, filename, row, w)
  }

  /**
   * The camera branch with a pending filename: the file is created in the storage
   * directory (a failure is reported but does not stop anything), resized onto
   * itself, and success is reported once more afterwards.
   */
  function CameraRun(s: Settings, name: string, w: Collaborators): Run
    requires s.eventHandler
  {
    var file := File(StorageDirectory(s), name);
    var created := [CreateFile(file)] + (if w.createFileThrows then [ImportFailed(CreateFileFailed)] else []);
    var saved := SaveBitmapRun(true, name, file, file, w);
    Run(created + saved.effects + [ImportSucceeded(name)], Normal)
  }

  /** The Uri of a gallery result: `intent.getData()`, or null when there is no intent. */
  function SelectedImage(intent: Option<Intent>): Option<Uri>
  {
    if intent.Some? then intent.value.data else None
  }

  /** `onActivityResult`. */
  function ActivityResult(s: Settings, filename: Option<string>, reqCode: int, resultCode: int,
                          intent: Option<Intent>, w: Collaborators): Run
  {
    if !s.eventHandler then Run([], Thrown(IllegalState(EventHandlerMissing)))
    else if reqCode == ImageFromCameraResult then
      if resultCode != ResultOk then Run([], Normal)
      else if filename.None? then Run([ImportFailed(CapturandroError(ImageCouldNotBeAdded))], Normal)
      else CameraRun(s, filename.value, w)
    else if reqCode == ImageFromGalleryResult then
      var selected := SelectedImage(intent);
      if IsUserAttemptingToAddVideo(selected) then
        Run([ImportFailed(CapturandroError(VideoCantBeAdded))], Normal)
      else if selected.None? then Run([], Normal)
      else GalleryRun(s, selected.value, filename, w)
    else Run([], Normal)
  }
}
