/** What the controller's runs promise, proved about the functions of module `Routing`. */
module Properties {
  import opened Wrappers
  import opened Uris
  import opened Android
  import opened Effects
  import opened Routing

  /** Without an event handler every result is refused before anything happens. */
  lemma MissingEventHandlerThrows(s: Settings, filename: Option<string>, reqCode: int, resultCode: int,
                                  intent: Option<Intent>, w: Collaborators)
    requires !s.eventHandler
    ensures ActivityResult(s, filename, reqCode, resultCode, intent, w)
            == Run([], Thrown(IllegalState(EventHandlerMissing)))
  {
  }

  /** A cancelled camera result and an unknown request code do nothing at all. */
  lemma IgnoredResultsAreSilent(s: Settings, filename: Option<string>, reqCode: int, resultCode: int,
                                intent: Option<Intent>, w: Collaborators)
    requires s.eventHandler
    requires (reqCode == ImageFromCameraResult && resultCode != ResultOk)
          || (reqCode != ImageFromCameraResult && reqCode != ImageFromGalleryResult)
    ensures ActivityResult(s, filename, reqCode, resultCode, intent, w) == Run([], Normal)
  {
  }

  /** A camera result with no pending filename reports one failure and nothing else. */
  lemma CameraWithoutFilenameFails(s: Settings, intent: Option<Intent>, w: Collaborators)
    requires s.eventHandler
    ensures ActivityResult(s, None, ImageFromCameraResult, ResultOk, intent, w)
            == Run([ImportFailed(CapturandroError(ImageCouldNotBeAdded))], Normal)
  {
  }

  /** The number of effects of each kind in a trace of one, two or three effects. */
  lemma CountSmall(a: Effect, b: Effect, c: Effect, k: EffectKind)
    ensures Count([a], k) == (if a.Kind() == k then 1 else 0)
    ensures Count([a, b], k) == Count([a], k) + (if b.Kind() == k then 1 else 0)
    ensures Count([a, b, c], k) == Count([a, b], k) + (if c.Kind() == k then 1 else 0)
  {
    assert [a, b] == [a] + [b];
    assert [a, b, c] == [a, b] + [c];
    CountConcat([a], [b], k);
    CountConcat([a, b], [c], k);
  }

  /** How many effects of each kind the camera branch performs. */
  lemma CameraRunCount(s: Settings, name: string, w: Collaborators, k: EffectKind)
    requires s.eventHandler
    ensures Count(CameraRun(s, name, w).effects, k)
            == (if k == Create || k == Resize then 1 else 0)
             + (if k == Fail then (if w.createFileThrows then 1 else 0) + (if w.resizeThrows then 1 else 0) else 0)
             + (if k == Success then (if w.resizeThrows then 1 else 2) else 0)
  {
    var file := File(StorageDirectory(s), name);
    var created := [CreateFile(file)] + (if w.createFileThrows then [ImportFailed(CreateFileFailed)] else []);
    var saved := SaveBitmapRun(true, name, file, file, w).effects;
    var tail := [saved[0], saved[1], ImportSucceeded(name)];
    assert saved[1] == if w.resizeThrows then ImportFailed(ResizeRejected) else ImportSucceeded(name);
    assert CameraRun(s, name, w).effects == created + tail;
    CountConcat(created, tail, k);
    CountSmall(saved[0], saved[1], ImportSucceeded(name), k);
    CountSmall(CreateFile(file), ImportFailed(CreateFileFailed), ImportFailed(CreateFileFailed), k);
    if w.createFileThrows {
      assert created == [CreateFile(file), ImportFailed(CreateFileFailed)];
    } else {
      assert created == [CreateFile(file)];
    }
  }

  /**
   * A camera result with a pending filename always ends by reporting success for
   * it: after a failed `createNewFile` (reported second, right after the attempt),
   * and a second time after the resize's own report, so success is reported twice
   * unless the resize throws. The resize always runs, exactly once.
   */
  lemma CameraAlwaysEndsWithSuccess(s: Settings, name: string, intent: Option<Intent>, w: Collaborators)
    requires s.eventHandler
    ensures var r := ActivityResult(s, Some(name), ImageFromCameraResult, ResultOk, intent, w);
            && r.completion == Normal
            && |r.effects| > 1 && r.effects[|r.effects| - 1] == ImportSucceeded(name)
            && (w.createFileThrows ==> r.effects[1] == ImportFailed(CreateFileFailed))
            && Count(r.effects, Success) == (if w.resizeThrows then 1 else 2)
            && Count(r.effects, Fail) == (if w.createFileThrows then 1 else 0) + (if w.resizeThrows then 1 else 0)
            && Count(r.effects, Resize) == 1
            && Count(r.effects, Download) == 0
  {
    assert ActivityResult(s, Some(name), ImageFromCameraResult, ResultOk, intent, w) == CameraRun(s, name, w);
    CameraRunCount(s, name, w, Success);
    CameraRunCount(s, name, w, Fail);
    CameraRunCount(s, name, w, Resize);
    CameraRunCount(s, name, w, Download);
  }

  /** The camera's image is created and resized in place in the storage directory. */
  lemma CameraStoresInStorageDirectory(s: Settings, name: string, intent: Option<Intent>, w: Collaborators)
    requires s.eventHandler
    ensures var r := ActivityResult(s, Some(name), ImageFromCameraResult, ResultOk, intent, w);
            var file := File(StorageDirectory(s), name);
            && r.effects[0] == CreateFile(file)
            && ResizeRequested(file, file, w.exifFound) in r.effects
  {
    var r := ActivityResult(s, Some(name), ImageFromCameraResult, ResultOk, intent, w);
    var file := File(StorageDirectory(s), name);
    assert r.effects[if w.createFileThrows then 2 else 1] == ResizeRequested(file, file, w.exifFound);
  }

  /**
   * The gallery branch: a video Uri is refused with one failure, a missing Uri
   * does nothing, and any other Uri is handed to the gallery handling with the
   * pending filename. The result code plays no part.
   */
  lemma GalleryResult(s: Settings, filename: Option<string>, resultCode: int, intent: Option<Intent>, w: Collaborators)
    requires s.eventHandler
    ensures var r := ActivityResult(s, filename, ImageFromGalleryResult, resultCode, intent, w);
            var selected := SelectedImage(intent);
            && (IsUserAttemptingToAddVideo(selected) ==>
                  r == Run([ImportFailed(CapturandroError(VideoCantBeAdded))], Normal))
            && (selected.None? ==> r == Run([], Normal))
            && (selected.Some? && !IsUserAttemptingToAddVideo(selected) ==>
                  r == GalleryRun(s, selected.value, filename, w))
  {
  }

  /** The gallery branch gives the same run whatever the result code. */
  lemma GalleryIgnoresResultCode(s: Settings, filename: Option<string>, resultCode1: int, resultCode2: int,
                                 intent: Option<Intent>, w: Collaborators)
    ensures ActivityResult(s, filename, ImageFromGalleryResult, resultCode1, intent, w)
         == ActivityResult(s, filename, ImageFromGalleryResult, resultCode2, intent, w)
  {
  }

  /** A refused video performs no query, copy, resize or download. */
  lemma VideoTouchesNothing(s: Settings, filename: Option<string>, resultCode: int, intent: Option<Intent>, w: Collaborators)
    requires s.eventHandler && IsUserAttemptingToAddVideo(SelectedImage(intent))
    ensures var r := ActivityResult(s, filename, ImageFromGalleryResult, resultCode, intent, w);
            Count(r.effects, Fail) == 1 && Count(r.effects, Resize) == 0 && Count(r.effects, Download) == 0
            && Count(r.effects, Success) == 0
  {
  }

  /** The five cases of the gallery classification, each as an if-and-only-if. */
  lemma RouteCases(uri: Uri, query: Option<CursorRow>)
    ensures query.None? ==> (Route(uri, query) == DownloadRoute <==> |uri| > 0)
    ensures query.None? ==> (Route(uri, query) == IgnoreRoute <==> |uri| == 0)
    ensures query.Some? ==> (Route(uri, query) == DownloadRoute <==>
                               IsPicasaProviderUri(uri) && query.value.hasDisplayNameColumn)
    ensures query.Some? ==> (Route(uri, query) == IgnoreRoute <==>
                               IsPicasaProviderUri(uri) && !query.value.hasDisplayNameColumn)
    ensures query.Some? ==> (Route(uri, query) == LocalCopyRoute(query.value) <==> !IsPicasaProviderUri(uri))
  {
  }

  /**
   * With both handlers registered, the gallery handling starts exactly one
   * download on the download route and none otherwise, does nothing on the ignore
   * route, and on the local-copy route (with a path and a filename) ends with
   * success for the filename. Off the download route no effect is a download.
   */
  lemma GalleryEffectsByRoute(s: Settings, uri: Uri, filename: Option<string>, w: Collaborators)
    requires s.eventHandler && s.picasaHandler
    ensures var r := GalleryRun(s, uri, filename, w);
            && Count(r.effects, Download) == (if Route(uri, w.query) == DownloadRoute then 1 else 0)
            && (Route(uri, w.query) == DownloadRoute ==> r == Run([DownloadStarted(uri, filename)], Normal))
            && (Route(uri, w.query) == IgnoreRoute ==> r == Run([], Normal))
            && (Route(uri, w.query) != DownloadRoute ==>
                  forall i :: 0 <= i < |r.effects| ==> !r.effects[i].DownloadStarted?)
            && (Route(uri, w.query).LocalCopyRoute? && Route(uri, w.query).row.data.Some? && filename.Some? ==>
                  r.completion == Normal && r.effects[|r.effects| - 1] == ImportSucceeded(filename.value))
  {
    var r := GalleryRun(s, uri, filename, w);
    CountZeroIffAbsent(r.effects, Download);
    match Route(uri, w.query)
    case DownloadRoute =>
    case IgnoreRoute =>
    case LocalCopyRoute(row) =>
      if row.data.Some? && filename.Some? {
        var saved := SaveBitmapRun(true, filename.value, File(None, row.data.value),
                                   File(s.cacheDir, filename.value), w);
        assert r.effects == [saved.effects[0]] + [saved.effects[1]] + [ImportSucceeded(filename.value)];
        CountConcat([saved.effects[0]] + [saved.effects[1]], [ImportSucceeded(filename.value)], Download);
        CountConcat([saved.effects[0]], [saved.effects[1]], Download);
      }
  }

  /**
   * The local copy: resized into `<cache dir>/<filename>` whatever the storage
   * directory is, read from the picked file only when EXIF data was found, and
   * reported as a success twice unless the resize throws.
   */
  lemma LocalCopyGoesToCacheDir(s: Settings, uri: Uri, name: string, w: Collaborators, row: CursorRow, path: string)
    requires s.eventHandler
    requires Route(uri, w.query) == LocalCopyRoute(row) && row.data == Some(path)
    ensures var r := GalleryRun(s, uri, Some(name), w);
            var target := File(s.cacheDir, name);
            && r.completion == Normal
            && r.effects[0] == ResizeRequested(if w.exifFound then File(None, path) else target, target, w.exifFound)
            && r.effects[|r.effects| - 1] == ImportSucceeded(name)
            && Count(r.effects, Success) == (if w.resizeThrows then 1 else 2)
  {
    var r := GalleryRun(s, uri, Some(name), w);
    var saved := SaveBitmapRun(true, name, File(None, path), File(s.cacheDir, name), w);
    assert r.effects == [saved.effects[0]] + [saved.effects[1]] + [ImportSucceeded(name)];
    CountConcat([saved.effects[0]] + [saved.effects[1]], [ImportSucceeded(name)], Success);
    CountConcat([saved.effects[0]], [saved.effects[1]], Success);
  }

  /** Any download taken without a Picasa handler throws and starts nothing. */
  lemma DownloadNeedsPicasaHandler(s: Settings, uri: Uri, filename: Option<string>, w: Collaborators)
    requires Route(uri, w.query) == DownloadRoute && !s.picasaHandler
    ensures GalleryRun(s, uri, filename, w) == Run([], Thrown(IllegalState(PicasaHandlerMissing)))
  {
  }

  /** `saveBitmap` reports exactly one outcome: success unless the resize throws. */
  lemma SaveBitmapReportsOnce(name: string, inFile: File, outFile: File, w: Collaborators)
    ensures var r := SaveBitmapRun(true, name, inFile, outFile, w);
            && r.completion == Normal
            && Count(r.effects, Success) + Count(r.effects, Fail) == 1
            && (Count(r.effects, Success) == 1 <==> !w.resizeThrows)
            && r.effects[0] == ResizeRequested(if w.exifFound then inFile else outFile, outFile, w.exifFound)
  {
    var r := SaveBitmapRun(true, name, inFile, outFile, w);
    assert r.effects == [r.effects[0]] + [r.effects[1]];
    CountConcat([r.effects[0]], [r.effects[1]], Success);
    CountConcat([r.effects[0]], [r.effects[1]], Fail);
  }

  /**
   * A shared image skips the video guard: a video Uri that the content resolver
   * knows is copied and imported, while the same Uri as a gallery result is refused.
   */
  lemma SendImageSkipsVideoGuard(s: Settings, uri: Uri, name: string, w: Collaborators, path: string,
                                 hasDisplayName: bool, resultCode: int, intent: Intent)
    requires s.eventHandler && IsUserAttemptingToAddVideo(Some(uri))
    requires w.query == Some(CursorRow(Some(path), hasDisplayName)) && intent.data == Some(uri)
    ensures GalleryRun(s, uri, Some(name), w).completion == Normal
    ensures Count(GalleryRun(s, uri, Some(name), w).effects, Success) > 0
    ensures ActivityResult(s, Some(name), ImageFromGalleryResult, resultCode, Some(intent), w)
            == Run([ImportFailed(CapturandroError(VideoCantBeAdded))], Normal)
  {
    VideoUriIsNotProviderUri(uri);
    LocalCopyGoesToCacheDir(s, uri, name, w, w.query.value, path);
  }

  /**
   * A shared image skips the event-handler check: without one, the local copy
   * still asks for the resize and then throws `NullPointerException` at the first
   * callback, and a download needs only the Picasa handler.
   */
  lemma SendImageSkipsHandlerCheck(s: Settings, uri: Uri, name: string, w: Collaborators)
    requires !s.eventHandler
    ensures Route(uri, w.query).LocalCopyRoute? && w.query.value.data.Some? ==>
              GalleryRun(s, uri, Some(name), w).completion == Thrown(NullPointer)
              && |GalleryRun(s, uri, Some(name), w).effects| == 1
              && GalleryRun(s, uri, Some(name), w).effects[0].ResizeRequested?
    ensures Route(uri, w.query) == DownloadRoute && s.picasaHandler ==>
              GalleryRun(s, uri, Some(name), w) == Run([DownloadStarted(uri, Some(name))], Normal)
  {
  }
}
