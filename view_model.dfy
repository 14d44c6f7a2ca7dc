/**
 * The application-scoped view model shared by the camera screen, the photo
 * screen and the save dialog. Each `MutableStateFlow` of the source is a plain
 * field holding its last value.
 */
module ViewModel {
  import opened Wrappers
  import opened Media

  /** `Build.VERSION_CODES.Q`, the first platform level with scoped storage. */
  const SDK_Q: int := 29
  const JPEG_MIME: string := "image/jpeg"
  /** `Environment.DIRECTORY_DCIM`. */
  const DIRECTORY_DCIM: string := "DCIM"

  const SAVED_NOTICE: string := "Successfully saved an image"
  const INSERT_FAILED: string := "Failed to create new MediaStore record."
  const OPEN_FAILED: string := "Failed to open output stream."
  const COMPRESS_FAILED: string := "Failed to save bitmap."

  /** The four logical screen orientations. */
  datatype ScreenOrientation = Portrait | Landscape | ReversePortrait | ReverseLandscape

  /** The two-slot orientation register: the reading before last and the last reading. */
  datatype OrientationPair = OrientationPair(first: ScreenOrientation, second: ScreenOrientation)

  const INITIAL_ORIENTATION: OrientationPair := OrientationPair(Portrait, Portrait)

  /** One step of the register: the last reading moves to `first`, `n` becomes `second`. */
  function Shift(s: OrientationPair, n: ScreenOrientation): (r: OrientationPair)
    ensures r.second == n && r.first == s.second
  {
    OrientationPair(s.second, n)
  }

  /** Two steps forget the whole earlier register: only the two newest readings remain. */
  lemma TwoShiftsForgetHistory(s: OrientationPair, t: OrientationPair, a: ScreenOrientation, b: ScreenOrientation)
    ensures Shift(Shift(s, a), b) == Shift(Shift(t, a), b) == OrientationPair(a, b)
  {
  }

  datatype PhotoState = StateNotStarted | StateStarted | StateEnded

  /** A decoded image, known only by identity; pixels are not modelled. */
  datatype Bitmap = Bitmap(id: nat)

  /**
   * What the platform answers at each step of a save: insert (false = it
   * returned null), open the stream (false = it returned null), compress
   * (false = it returned false).
   */
  datatype StorageOutcomes = StorageOutcomes(inserted: bool, streamOpened: bool, compressed: bool)

  /** A save either succeeds with the new entry's URI or rethrows an `IOException` with its message. */
  datatype SaveResult = Saved(uri: Uri) | Failed(message: string)

  function ImagesCollection(sdk: int): (c: Collection)
    ensures c == ExternalPrimary <==> sdk >= SDK_Q
  {
    if sdk >= SDK_Q then ExternalPrimary else ExternalContent
  }

  /** The details of the entry a save inserts. */
  function ImageDetails(imageName: string, sdk: int): (v: ContentValues)
    ensures v.displayName == imageName && v.mimeType == JPEG_MIME
    ensures v.relativePath.Some? <==> sdk >= SDK_Q
    ensures v.relativePath.Some? ==> v.relativePath.value == DIRECTORY_DCIM
    ensures v.collection == ImagesCollection(sdk)
  {
    ContentValues(ImagesCollection(sdk), imageName, JPEG_MIME,
                  if sdk >= SDK_Q then Some(DIRECTORY_DCIM) else None)
  }

  /**
   * The message of the `IOException` a save throws, or `None` when every step
   * succeeds. A null bitmap fails like a compression that returns false.
   */
  function SaveFailure(bitmap: Option<Bitmap>, o: StorageOutcomes): (m: Option<string>)
    ensures m.None? <==> o.inserted && o.streamOpened && bitmap.Some? && o.compressed
    ensures !o.inserted ==> m == Some(INSERT_FAILED)
    ensures o.inserted && !o.streamOpened ==> m == Some(OPEN_FAILED)
    ensures o.inserted && o.streamOpened && (bitmap.None? || !o.compressed) ==> m == Some(COMPRESS_FAILED)
  {
    if !o.inserted then Some(INSERT_FAILED)
    else if !o.streamOpened then Some(OPEN_FAILED)
    else if bitmap.None? || !o.compressed then Some(COMPRESS_FAILED)
    else None
  }

  /**
   * What a save does to the store: on success exactly one new entry with the
   * image details; on failure the store is as it was before the call.
   */
  ghost predicate SaveEffect(before: map<Uri, ContentValues>, after: map<Uri, ContentValues>,
                             r: SaveResult, bitmap: Option<Bitmap>, imageName: string,
                             sdk: int, o: StorageOutcomes)
  {
    && (r.Saved? <==> SaveFailure(bitmap, o).None?)
    && (r.Saved? ==> r.uri !in before && after == before[r.uri := ImageDetails(imageName, sdk)])
    && (r.Failed? ==> after == before && Some(r.message) == SaveFailure(bitmap, o))
  }

  /** A successful save grows the store by exactly one entry. */
  lemma SaveAddsOneEntry(before: map<Uri, ContentValues>, after: map<Uri, ContentValues>,
                         r: SaveResult, bitmap: Option<Bitmap>, imageName: string,
                         sdk: int, o: StorageOutcomes)
    requires SaveEffect(before, after, r, bitmap, imageName, sdk, o) && r.Saved?
    ensures |after| == |before| + 1
    ensures after[r.uri].displayName == imageName
  {
    assert after.Keys == before.Keys + {r.uri};
  }

  class MainViewModel {
    var bitmap: Option<Bitmap>
    var imageName: Option<string>
    var photoState: PhotoState
    var screenOrientationState: OrientationPair
    /** Toast notices shown through the application context, oldest first. */
    var toasts: seq<string>

    constructor ()
      ensures bitmap == None && imageName == None
      ensures photoState == StateNotStarted
      ensures screenOrientationState == INITIAL_ORIENTATION
      ensures toasts == []
    {
      bitmap := None;
      imageName := None;
      photoState := StateNotStarted;
      screenOrientationState := INITIAL_ORIENTATION;
      toasts := [];
    }

    method SetImageName(name: string)
      modifies this`imageName
      ensures imageName == Some(name)
    {
      imageName := Some(name);
    }

    method MakePhotoStateStarted()
      modifies this`photoState
      ensures photoState == StateStarted
    {
      photoState := StateStarted;
    }

    method MakePhotoStateEnded()
      modifies this`photoState
      ensures photoState == StateEnded
    {
      photoState := StateEnded;
    }

    /** Pushes a reading into the register, with no check that it differs from the last one. */
    method UpdateScreenOrientation(n: ScreenOrientation)
      modifies this`screenOrientationState
      ensures screenOrientationState.first == old(screenOrientationState).second
      ensures screenOrientationState.second == n
    {
      screenOrientationState := Shift(screenOrientationState, n);
    }

    /**
     * The decoded (possibly null) bitmap becomes the shared value.
     * `getBitmap` assigns the flow itself; `OnCaptureSuccess` uses this
     * method for that assignment.
     */
    method UpdateBitmapValue(b: Option<Bitmap>)
      modifies this`bitmap
      ensures bitmap == b
    {
      bitmap := b;
    }

    /**
     * insert, then open the stream, then compress; on any failure the entry
     * inserted so far is deleted and the failure is passed on to the caller.
     */
    method SaveImageToExternalStorage(resolver: ContentResolver, bitmap: Option<Bitmap>,
                                      imageName: string, sdk: int, o: StorageOutcomes)
      returns (r: SaveResult)
      requires resolver.Valid()
      modifies resolver, this`toasts
      ensures resolver.Valid()
      ensures SaveEffect(old(resolver.entries), resolver.entries, r, bitmap, imageName, sdk, o)
      ensures toasts == if r.Saved? then old(toasts) + [SAVED_NOTICE] else old(toasts)
    {
      var imagesDetails := ImageDetails(imageName, sdk);
      var imageContentUri: Option<Uri> := None;
      var failure: Option<string> := None;
      // try
      var inserted := resolver.Insert(imagesDetails, o.inserted);
      if inserted.None? {
        failure := Some(INSERT_FAILED);
      } else {
        imageContentUri := inserted;
        if !o.streamOpened {
          failure := Some(OPEN_FAILED);
        } else if bitmap.None? || !o.compressed {
          failure := Some(COMPRESS_FAILED);
        }
      }
      if failure.None? {
        toasts := toasts + [SAVED_NOTICE];
        r := Saved(imageContentUri.value);
      } else {
        // catch: don't leave an orphan entry behind
        if imageContentUri.Some? {
          resolver.Delete(imageContentUri.value);
        }
        r := Failed(failure.value);
      }
    }
  }
}
