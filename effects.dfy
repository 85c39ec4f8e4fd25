/**
 * The observable behaviour of the controller: the trace of callbacks, file
 * operations, download tasks and activity launches it performs, and the way a
 * call ends (normally or with an exception).
 */
module Effects {
  import opened Wrappers
  import opened Uris

  /**
   * `new File(parent, name)`. A null parent gives the same file as `new File(name)`,
   * a path relative to the working directory.
   */
  datatype File = File(parent: Option<string>, name: string)

  /** The exception passed to `onImportFailure`. */
  datatype Failure =
    | CreateFileFailed            // the IOException thrown by createNewFile
    | ResizeRejected              // the IllegalArgumentException thrown by the resize
    | CapturandroError(message: string)

  /** An exception that escapes a public call. */
  datatype Exception = IllegalState(message: string) | NullPointer

  datatype Completion = Normal | Thrown(exception: Exception)

  datatype EffectKind = Launch | Create | Resize | Download | Success | Fail

  datatype Effect =
    | CameraLaunched(output: File)        // startActivityForResult(ACTION_IMAGE_CAPTURE)
    | GalleryLaunched                     // startActivityForResult(ACTION_PICK)
    | CreateFile(file: File)              // File.createNewFile
    | ResizeRequested(source: File, target: File, withExif: bool)
    | DownloadStarted(uri: Uri, destination: Option<string>)
    | ImportSucceeded(imported: string)   // eventHandler.onImportSuccess
    | ImportFailed(cause: Failure)        // eventHandler.onImportFailure
  {
    function Kind(): EffectKind
    {
      match this
      case CameraLaunched(_) => Launch
      case GalleryLaunched => Launch
      case CreateFile(_) => Create
      case ResizeRequested(_, _, _) => Resize
      case DownloadStarted(_, _) => Download
      case ImportSucceeded(_) => Success
      case ImportFailed(_) => Fail
    }
  }

  /** The effects one call performs, and how the call ends. */
  datatype Run = Run(effects: seq<Effect>, completion: Completion)

  /** The number of effects of kind `k` in a trace. */
  function Count(t: seq<Effect>, k: EffectKind): (n: nat)
    ensures n <= |t|
  {
    if t == [] then 0
    else (if t[0].Kind() == k then 1 else 0) + Count(t[1..], k)
  }

  /** A kind is counted zero times exactly when no effect of the trace has it. */
  lemma {:induction false} CountZeroIffAbsent(t: seq<Effect>, k: EffectKind)
    ensures Count(t, k) == 0 <==> forall i :: 0 <= i < |t| ==> t[i].Kind() != k
  {
    if t != [] {
      CountZeroIffAbsent(t[1..], k);
      assert forall i :: 1 <= i < |t| ==> t[i] == t[1..][i - 1];
    }
  }

  lemma {:induction false} CountConcat(a: seq<Effect>, b: seq<Effect>, k: EffectKind)
    ensures Count(a + b, k) == Count(a, k) + Count(b, k)
  {
    if a == [] {
      assert a + b == b;
    } else {
      assert (a + b)[1..] == a[1..] + b;
      CountConcat(a[1..], b, k);
    }
  }
}
