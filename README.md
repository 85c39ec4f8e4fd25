# Capturandro import controller in Dafny

Capturandro is an Android library that lets an application import an image
from the camera, from the local gallery, or from a cloud gallery
(the Picasa/gallery3d content providers). This project models the decision logic of
its controller, `Capturandro` in `Capturandro.java`. The model covers:

- the pending filename that `importImageFromCamera` and `importImageFromGallery` set;
- the routing of `onActivityResult`: camera or gallery request, result code,
  missing event handler, video guard, no Uri;
- the classification of a picked Uri by string prefix: the four gallery3d
  providers, the video prefix, and the non-empty fallback used when the content
  resolver returns no cursor;
- what each path does: create the file, resize it, report success or failure,
  start a download, or throw.

Files:

- `wrappers.dfy`: `Option`, Java's `null`.
- `uris.dfy` (module `Uris`): the provider table, the video prefix and the three Uri tests.
  `IsPicasaAndroid3Image` is the source's early-return scan of the table.
- `android.dfy` (module `Android`): what the platform supplies. An `Intent`
  is seen through its accessors, the cursor through its first row, and the
  `Collaborators` record holds the outcomes of `createNewFile`, the EXIF read
  and the resize.
- `effects.dfy` (module `Effects`): the trace of observable effects. These are
  the callbacks `onImportSuccess` and `onImportFailure`, file creation, resize
  requests, download starts and activity launches. A call ends normally or
  with an `IllegalStateException` or `NullPointerException`.
- `routing.dfy` (module `Routing`): one function for each operation that makes
  callbacks, resizes or downloads. Each gives the effects the operation performs
  and how it ends.
- `capturandro.dfy` (module `Controller`): the class `Capturandro`. Its mutable
  state is the pending `filename` and the trace `effects`. The handlers and the
  storage-directory override are constants, because the source only sets them in
  the constructor. The activity's external cache directory is a constant too. It
  is `None` when shared storage is unavailable, and then a file built on it is a
  bare relative file. Every method follows the source's statements. The methods
  that make callbacks, resizes or downloads are proved to perform exactly the run
  of their `Routing` function (`FetchPicasaAndroid3Image` only when the cursor has
  a `DISPLAY_NAME` column, and nothing otherwise). The others state their result
  and new state directly.
- `properties.dfy` (module `Properties`): the lemmas about those runs.

Calling a callback on a missing `eventHandler` is a null dereference. So
`Notify` throws `NullPointerException` when no event handler is registered.
This matters only on `handleSendImage`, the one entry point that does not check
for the handler.

The code does the following, which a reader may not expect:

- A camera result whose `createNewFile` throws reports the failure.
  It still resizes the file and reports success.
- `handleSendImage` does not pass through the video guard.
- A gallery result ignores the result code.
- The local gallery copy is written to the activity's external cache directory.
  It does not go to the configured storage directory.

## Model

| member | source | states |
|---|---|---|
| `Uris.IsPicasaAndroid3Image` | library/src/no/finn/capturandro/util/Capturandro.java:194-202 | true exactly when the Uri string starts with one of the four entries of `PICASA_CONTENT_PROVIDERS`, both as the provider predicate and written out with Java's `startsWith` |
| `Uris.ProviderTableIsPrefixFree` | library/src/no/finn/capturandro/util/Capturandro.java:27-32 | no entry of the provider table is a prefix of another entry |
| `Uris.ProviderPrefixesAreDisjoint` | library/src/no/finn/capturandro/util/Capturandro.java:194-202 | at most one provider prefix matches any Uri, so the scan order of the table does not change the answer |
| `Uris.VideoUriIsNotProviderUri` | library/src/no/finn/capturandro/util/Capturandro.java:230-232 | a Uri that the video guard catches never matches a cloud gallery provider |
| `Uris.IsUserAttemptingToAddVideo` | library/src/no/finn/capturandro/util/Capturandro.java:230-232 | true exactly when the Uri is non-null and starts with `content://media/external/video/` |
| `Uris.IsPicasaAndroid2Image` | library/src/no/finn/capturandro/util/Capturandro.java:190-192 | true exactly when the Uri is non-null and its string is non-empty |
| `Uris.ProviderUriIsPicasaAndroid2Image` | library/src/no/finn/capturandro/util/Capturandro.java:190-192 | every provider Uri also passes the non-empty test used when there is no cursor |
| `Controller.Capturandro.constructor` | library/src/no/finn/capturandro/util/Capturandro.java:81-87 | the handlers, filename and storage directory are those given, and nothing has happened yet |
| `Controller.Capturandro.GetStorageDirectory` | library/src/no/finn/capturandro/util/Capturandro.java:256-262 | the storage-directory override when one is set, otherwise the activity's external cache directory, which may be null |
| `Controller.Capturandro.ImportImageFromCamera` | library/src/no/finn/capturandro/util/Capturandro.java:89-95 | the camera is launched with `<storage dir>/<name>` as output and the pending filename becomes `name`. A null name throws `NullPointerException` and changes nothing |
| `Controller.Capturandro.ImportImageFromGallery` | library/src/no/finn/capturandro/util/Capturandro.java:97-101 | the gallery picker is launched and the pending filename becomes the argument, null included |
| `Controller.Capturandro.Notify` | library/src/no/finn/capturandro/util/Capturandro.java:159-162 | a callback is recorded when the event handler is registered. Otherwise it throws `NullPointerException` and records nothing |
| `Controller.Capturandro.OnActivityResult` | library/src/no/finn/capturandro/util/Capturandro.java:103-146 | appends exactly the effects of `Routing.ActivityResult` and ends as it does. The pending filename is unchanged |
| `Controller.Capturandro.SaveBitmap` | library/src/no/finn/capturandro/util/Capturandro.java:148-164 | requests the resize, rotated from the source with EXIF data or in place on the target without it, then makes one callback: success, or failure when the resize throws |
| `Controller.Capturandro.HandleImageFromGallery` | library/src/no/finn/capturandro/util/Capturandro.java:166-188 | appends exactly the effects of `Routing.GalleryRun`: the route from `Routing.Route`, then a download, nothing, or a local copy |
| `Controller.Capturandro.FetchPicasaAndroid3Image` | library/src/no/finn/capturandro/util/Capturandro.java:204-210 | downloads when the cursor has a `DISPLAY_NAME` column, and does nothing otherwise |
| `Controller.Capturandro.FetchPicasaImage` | library/src/no/finn/capturandro/util/Capturandro.java:212-218 | throws `IllegalStateException` when no Picasa handler is registered. Otherwise starts one download of the Uri to the filename |
| `Controller.Capturandro.FetchLocalGalleryImageFile` | library/src/no/finn/capturandro/util/Capturandro.java:221-228 | a null path or filename throws `NullPointerException`. Otherwise `saveBitmap` writes to `<cache dir>/<filename>`, reading the picked file only when EXIF data was found, and success is then reported once more whatever `saveBitmap` reported |
| `Controller.Capturandro.GetImagesFromIntent` | library/src/no/finn/capturandro/util/Capturandro.java:235-249 | a null intent throws `NullPointerException`. `ACTION_SEND` gives the single stream extra, or nothing when it is absent. `ACTION_SEND_MULTIPLE` gives the stream list (possibly null), or an empty list when absent. Any other action gives an empty list |
| `Controller.Capturandro.HandleSendImage` | library/src/no/finn/capturandro/util/Capturandro.java:251-253 | performs exactly the gallery handling of `Routing.GalleryRun`, with no video guard and no handler check |
| `Controller.CameraRoundTrip` | library/src/no/finn/capturandro/util/Capturandro.java:89-120 | the file the camera is told to write is the file the result creates. It lies in the storage directory, and the last effect is success for the name |
| `Properties.MissingEventHandlerThrows` | library/src/no/finn/capturandro/util/Capturandro.java:103-106 | without an event handler every request and result code throws `IllegalStateException` with no effect before it |
| `Properties.IgnoredResultsAreSilent` | library/src/no/finn/capturandro/util/Capturandro.java:108-145 | a camera result other than `RESULT_OK`, or an unknown request code, has no effect and ends normally |
| `Properties.CameraWithoutFilenameFails` | library/src/no/finn/capturandro/util/Capturandro.java:121-124 | a camera result with no pending filename reports exactly one failure, "Image could not be added", and nothing else |
| `Properties.CameraRunCount` | library/src/no/finn/capturandro/util/Capturandro.java:111-120 | the camera branch creates once and resizes once. It reports failure once per throwing step and success twice, or once when the resize throws |
| `Properties.CameraAlwaysEndsWithSuccess` | library/src/no/finn/capturandro/util/Capturandro.java:111-124 | a camera result with a pending filename always ends with success for it. A `createNewFile` failure is reported second and does not stop the resize. No download is started |
| `Properties.CameraStoresInStorageDirectory` | library/src/no/finn/capturandro/util/Capturandro.java:111-119 | the camera file is created in the storage directory and resized onto itself |
| `Properties.GalleryResult` | library/src/no/finn/capturandro/util/Capturandro.java:128-144 | a video Uri gives exactly one "Video can't be added" failure. No Uri (null intent or null data) gives nothing. Any other Uri goes to the gallery handling with the pending filename |
| `Properties.GalleryIgnoresResultCode` | library/src/no/finn/capturandro/util/Capturandro.java:128-144 | a gallery result does the same whatever its result code |
| `Properties.VideoTouchesNothing` | library/src/no/finn/capturandro/util/Capturandro.java:135-138 | a refused video makes no resize, no download and no success |
| `Properties.RouteCases` | library/src/no/finn/capturandro/util/Capturandro.java:166-188 | the five cases of the gallery classification, each as an if-and-only-if on the cursor, the provider prefix, the `DISPLAY_NAME` column and the emptiness of the Uri |
| `Properties.GalleryEffectsByRoute` | library/src/no/finn/capturandro/util/Capturandro.java:166-228 | with both handlers registered: exactly one download on the download route and no download effect on the others. The download route does nothing else, the ignore route does nothing at all, and the local-copy route with a path and a filename ends normally with success for the filename |
| `Properties.LocalCopyGoesToCacheDir` | library/src/no/finn/capturandro/util/Capturandro.java:221-228 | the local copy goes to `<cache dir>/<filename>` whatever the storage directory. The resize reads the picked file only when EXIF data was found; without it the cache target is resized and the picked image is never copied. Success is reported twice unless the resize throws |
| `Properties.DownloadNeedsPicasaHandler` | library/src/no/finn/capturandro/util/Capturandro.java:212-218 | any download route taken without a Picasa handler throws `IllegalStateException` and starts nothing |
| `Properties.SaveBitmapReportsOnce` | library/src/no/finn/capturandro/util/Capturandro.java:148-164 | exactly one callback, which is success exactly when the resize does not throw. The resize reads the source only with EXIF data |
| `Properties.SendImageSkipsVideoGuard` | library/src/no/finn/capturandro/util/Capturandro.java:251-253 | a video Uri known to the content resolver is imported by `handleSendImage`, while the same Uri as a gallery result is refused |
| `Properties.SendImageSkipsHandlerCheck` | library/src/no/finn/capturandro/util/Capturandro.java:251-253 | without an event handler, a shared local image is resized and then throws `NullPointerException` at the first callback. A download needs only the Picasa handler |

## Left out

- The download task (`DownloadFileAsyncTask`, and `DownloadPicasaImageAsyncTask` beside it). It does stream I/O on a background thread. The model records only that a download of the Uri to the filename was started.
- The `Builder`. It only copies fields, so the model keeps just the constructor it calls.
- `BitmapUtil` (EXIF reading, resize and rotation) and the `STORED_IMAGE_WIDTH`/`STORED_IMAGE_HEIGHT` bounds from `Config`. They are not part of this model. Their outcomes are inputs: EXIF found or not, `IllegalArgumentException` thrown or not.
- Intent construction and `startActivityForResult`. A launch is recorded as one effect. For the camera it carries the `EXTRA_OUTPUT` file; the request code and the rest of the intent are not recorded.
- `ContentResolver.query`, `moveToFirst`, `getColumnIndex` and `close`. The cursor is given by its first row's `DATA` value and whether a `DISPLAY_NAME` column exists. An empty cursor, or one without a `DATA` column, makes Android's `getString` throw; that case is not modelled.
- Exceptions other than those the controller throws or catches itself: Android runtime exceptions, non-`IllegalArgumentException` failures of the image code, and exceptions thrown by the host's callbacks.
- `printStackTrace` logging, and the `onActivityResult` method of the event-handler interface, which the controller never calls.
- Controller.Capturandro.HandleSendImage: a null Uri is not modelled. What happens then is decided by the content resolver, which is not part of this model.
- Controller.Capturandro.GetImagesFromIntent: an extra that is not a `Parcelable` (or not a list, for `ACTION_SEND_MULTIPLE`) is treated as the `null` its accessor returns. A `Parcelable` extra that is not a `Uri` throws `ClassCastException` at the cast; that case is not modelled. Null entries inside the list are kept as they are.
- `getExternalCacheDir()` is called again each time the source needs it. The model reads it once, as a constant of the controller, so a change in storage availability between two calls is not modelled.
- Concurrency: overlapping picker round trips and parallel downloads are not modelled. The controller itself is single-threaded.
