/**
 * The Capturandro controller (Capturandro.java) as a class. The only state it
 * changes is the pending filename; everything it does to the outside world is
 * appended to the trace `effects`. Android's answers arrive as `Collaborators`.
 */
module Controller {
  import opened Wrappers
  import opened Uris
  import opened Android
  import opened Effects
  import opened Routing

  class Capturandro {
    const hasEventHandler: bool
    const hasPicasaHandler: bool
    const storageDirectory: Option<string>
    /** `activity.getExternalCacheDir()`; `None` when shared storage is unavailable. */
    const externalCacheDir: Option<string>

    /** The filename the next camera or gallery result is stored under. */
    var filename: Option<string>
    /** Everything the controller has done so far, oldest first. */
    var effects: seq<Effect>

    /** The constructor the builder calls: it copies the builder's fields. */
    constructor (eventHandler: bool, picasaHandler: bool, filename: Option<string>,
                 storageDirectory: Option<string>, externalCacheDir: Option<string>)
      ensures hasEventHandler == eventHandler && hasPicasaHandler == picasaHandler
      ensures this.filename == filename && this.storageDirectory == storageDirectory
      ensures this.externalCacheDir == externalCacheDir && effects == []
    {
      hasEventHandler := eventHandler;
      hasPicasaHandler := picasaHandler;
      this.filename := filename;
      this.storageDirectory := storageDirectory;
      this.externalCacheDir := externalCacheDir;
      effects := [];
    }

    function CurrentSettings(): Settings
    {
      Settings(hasEventHandler, hasPicasaHandler, storageDirectory, externalCacheDir)
    }

    function GetStorageDirectory(): (dir: Option<string>)
      ensures storageDirectory.Some? ==> dir == storageDirectory
      ensures storageDirectory.None? ==> dir == externalCacheDir
    {
      StorageDirectory(CurrentSettings())
    }

    /**
     * Launches the camera with `<storage dir>/<name>` as its output and makes `name`
     * the pending filename. A null name makes the `File` constructor throw first.
     */
    method ImportImageFromCamera(name: Option<string>) returns (outcome: Completion)
      modifies this`filename, this`effects
      ensures name.None? ==> outcome == Thrown(NullPointer) && filename == old(filename) && effects == old(effects)
      ensures name.Some? ==> outcome == Normal && filename == name
      ensures name.Some? ==> effects == old(effects) + [CameraLaunched(File(GetStorageDirectory(), name.value))]
    {
      if name.None? {
        return Thrown(NullPointer);
      }
      var output := File(GetStorageDirectory(), name.value);
      filename := name;
      effects := effects + [CameraLaunched(output)];
      outcome := Normal;
    }

    /** Launches the gallery picker and makes `name` the pending filename. */
    method ImportImageFromGallery(name: Option<string>)
      modifies this`filename, this`effects
      ensures filename == name
      ensures effects == old(effects) + [GalleryLaunched]
    {
      filename := name;
      effects := effects + [GalleryLaunched];
    }

    /** A call on `eventHandler`: recorded when it is registered, a null dereference otherwise. */
    method Notify(e: Effect) returns (outcome: Completion)
      modifies this`effects
      ensures hasEventHandler ==> outcome == Normal && effects == old(effects) + [e]
      ensures !hasEventHandler ==> outcome == Thrown(NullPointer) && effects == old(effects)
    {
      if !hasEventHandler {
        return Thrown(NullPointer);
      }
      effects := effects + [e];
      outcome := Normal;
    }

    method OnActivityResult(reqCode: int, resultCode: int, intent: Option<Intent>, w: Collaborators)
      returns (outcome: Completion)
      modifies this`effects
      ensures filename == old(filename)
      ensures effects == old(effects) + ActivityResult(CurrentSettings(), filename, reqCode, resultCode, intent, w).effects
      ensures outcome == ActivityResult(CurrentSettings(), filename, reqCode, resultCode, intent, w).completion
    {
      if !hasEventHandler {
        return Thrown(IllegalState(EventHandlerMissing));
      }
      outcome := Normal;
      if reqCode == ImageFromCameraResult {
        if resultCode == ResultOk {
          if filename.Some? {
            var name := filename.value;
            var fileToStore := File(GetStorageDirectory(), name);
            effects := effects + [CreateFile(fileToStore)];
            // The event handler is registered on this branch, so no callback throws.
            if w.createFileThrows {
              outcome := Notify(ImportFailed(CreateFileFailed));
            }
            outcome := SaveBitmap(name, fileToStore, fileToStore, w);
            outcome := Notify(ImportSucceeded(name));
          } else {
            outcome := Notify(ImportFailed(CapturandroError(ImageCouldNotBeAdded)));
          }
        }
      } else if reqCode == ImageFromGalleryResult {
        var selectedImage: Option<Uri> := None;
        if intent.Some? {
          selectedImage := intent.value.data;
        }
        if IsUserAttemptingToAddVideo(selectedImage) {
          outcome := Notify(ImportFailed(CapturandroError(VideoCantBeAdded)));
          return;
        }
        if selectedImage.Some? {
          outcome := HandleImageFromGallery(selectedImage.value, filename, w);
        }
      }
    }

    method SaveBitmap(name: string, inFile: File, outFile: File, w: Collaborators) returns (outcome: Completion)
      modifies this`effects
      ensures effects == old(effects) + SaveBitmapRun(hasEventHandler, name, inFile, outFile, w).effects
      ensures outcome == SaveBitmapRun(hasEventHandler, name, inFile, outFile, w).completion
    {
      if w.exifFound {
        effects := effects + [ResizeRequested(inFile, outFile, true)];
      } else {
        effects := effects + [ResizeRequested(outFile, outFile, false)];
      }
      if w.resizeThrows {
        outcome := Notify(ImportFailed(ResizeRejected));
      } else {
        outcome := Notify(ImportSucceeded(name));
      }
    }

    method HandleImageFromGallery(selectedImage: Uri, name: Option<string>, w: Collaborators)
      returns (outcome: Completion)
      modifies this`effects
      ensures effects == old(effects) + GalleryRun(CurrentSettings(), selectedImage, name, w).effects
      ensures outcome == GalleryRun(CurrentSettings(), selectedImage, name, w).completion
    {
      if w.query.Some? {
        var picasa3 := IsPicasaAndroid3Image(selectedImage);
        if picasa3 {
          outcome := FetchPicasaAndroid3Image(selectedImage, name, w.query.value);
        } else {
          outcome := FetchLocalGalleryImageFile(name, w.query.value, w);
        }
      } else if IsPicasaAndroid2Image(Some(selectedImage)) {
        outcome := FetchPicasaImage(selectedImage, name);
      } else {
        outcome := Normal;
      }
    }

    method FetchPicasaAndroid3Image(selectedImage: Uri, name: Option<string>, row: CursorRow)
      returns (outcome: Completion)
      modifies this`effects
      ensures row.hasDisplayNameColumn ==> effects == old(effects) + DownloadRun(CurrentSettings(), selectedImage, name).effects
      ensures row.hasDisplayNameColumn ==> outcome == DownloadRun(CurrentSettings(), selectedImage, name).completion
      ensures !row.hasDisplayNameColumn ==> effects == old(effects) && outcome == Normal
    {
      if row.hasDisplayNameColumn {
        outcome := FetchPicasaImage(selectedImage, name);
      } else {
        outcome := Normal;
      }
    }

    method FetchPicasaImage(selectedImage: Uri, name: Option<string>) returns (outcome: Completion)
      modifies this`effects
      ensures effects == old(effects) + DownloadRun(CurrentSettings(), selectedImage, name).effects
      ensures outcome == DownloadRun(CurrentSettings(), selectedImage, name).completion
    {
      if !hasPicasaHandler {
        return Thrown(IllegalState(PicasaHandlerMissing));
      }
      effects := effects + [DownloadStarted(selectedImage, name)];
      outcome := Normal;
    }

    method FetchLocalGalleryImageFile(name: Option<string>, row: CursorRow, w: Collaborators)
      returns (outcome: Completion)
      modifies this`effects
      ensures effects == old(effects) + LocalCopyRun(CurrentSettings(), name, row, w).effects
      ensures outcome == LocalCopyRun(CurrentSettings(), name, row, w).completion
    {
      if row.data.None? {
        return Thrown(NullPointer);
      }
      var inFile := File(None, row.data.value);
      if name.None? {
        return Thrown(NullPointer);
      }
      var outFile := File(externalCacheDir, name.value);
      outcome := SaveBitmap(name.value, inFile, outFile, w);
      if outcome.Normal? {
        outcome := Notify(ImportSucceeded(name.value));
      }
    }

    /**
     * Collects the shared Uris of an `ACTION_SEND` or `ACTION_SEND_MULTIPLE` intent.
     * A null intent throws at `getAction()`.
     */
    method GetImagesFromIntent(maybeIntent: Option<Intent>)
      returns (imageUris: Option<seq<Option<Uri>>>, outcome: Completion)
      ensures maybeIntent.None? ==> outcome == Thrown(NullPointer)
      ensures maybeIntent.Some? ==> outcome == Normal
      ensures maybeIntent.Some? && maybeIntent.value.action == Some(ActionSend) ==>
                var intent := maybeIntent.value;
                imageUris == Some(if intent.hasStream then [intent.streamExtra] else [])
      ensures maybeIntent.Some? && maybeIntent.value.action == Some(ActionSendMultiple) ==>
                var intent := maybeIntent.value;
                imageUris == (if intent.hasStream then intent.streamListExtra else Some([]))
      ensures maybeIntent.Some? && maybeIntent.value.action != Some(ActionSend)
              && maybeIntent.value.action != Some(ActionSendMultiple) ==>
                imageUris == Some([])
    {
      imageUris := Some([]);
      if maybeIntent.None? {
        return imageUris, Thrown(NullPointer);
      }
      var intent := maybeIntent.value;
      outcome := Normal;
      if intent.action == Some(ActionSend) {
        if intent.hasStream {
          assert imageUris.value + [intent.streamExtra] == [intent.streamExtra];
          imageUris := Some(imageUris.value + [intent.streamExtra]);
        }
      } else if intent.action == Some(ActionSendMultiple) {
        if intent.hasStream {
          imageUris := intent.streamListExtra;
        }
      }
    }

    /** A shared Uri goes straight to the gallery handling, with no checks of its own. */
    method HandleSendImage(imageUri: Uri, name: Option<string>, w: Collaborators)
      returns (outcome: Completion)
      modifies this`effects
      ensures effects == old(effects) + GalleryRun(CurrentSettings(), imageUri, name, w).effects
      ensures outcome == GalleryRun(CurrentSettings(), imageUri, name, w).completion
    {
      outcome := HandleImageFromGallery(imageUri, name, w);
    }
  }

  /**
   * The camera round trip: the file the camera is told to write is the file the
   * result creates and resizes, and the import is reported for its name.
   */
  method CameraRoundTrip(name: string, storageDirectory: Option<string>, externalCacheDir: Option<string>, w: Collaborators)
    returns (launched: File, created: File, last: Effect)
    ensures launched == created
    ensures launched == File(if storageDirectory.Some? then storageDirectory else externalCacheDir, name)
    ensures last == ImportSucceeded(name)
  {
    var controller := new Capturandro(true, false, None, storageDirectory, externalCacheDir);
    var launch := controller.ImportImageFromCamera(Some(name));
    launched := controller.effects[0].output;
    var result := controller.OnActivityResult(ImageFromCameraResult, ResultOk, None, w);
    created := controller.effects[1].file;
    last := controller.effects[|controller.effects| - 1];
  }
}
