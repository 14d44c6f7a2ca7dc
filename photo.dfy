/**
 * The photo screen: showing the captured bitmap or a placeholder, and the
 * decision table that either saves, shows a rationale or asks for the storage
 * permission, with the callback that answers the permission request.
 */
module Photo {
  import opened Wrappers
  import opened Media
  import opened ViewModel

  datatype SaveDecision = SaveToStorage | ShowStorageRationale | RequestStoragePermission

  /**
   * `saveImage`'s decision. From platform level Q on no permission is needed.
   * Below it the storage permission decides, and when it is missing the
   * rationale question is asked about the CAMERA permission.
   */
  function SaveImageDecision(sdk: int, storageGranted: bool, cameraRationale: bool): (d: SaveDecision)
    ensures sdk >= SDK_Q ==> d == SaveToStorage
    ensures sdk < SDK_Q && storageGranted ==> d == SaveToStorage
    ensures sdk < SDK_Q && !storageGranted ==>
              d == if cameraRationale then ShowStorageRationale else RequestStoragePermission
  {
    if sdk < SDK_Q then
      if storageGranted then SaveToStorage
      else if cameraRationale then ShowStorageRationale
      else RequestStoragePermission
    else SaveToStorage
  }

  /** The save goes ahead exactly when the level is at least Q or the permission is held. */
  lemma SavesExactlyWhenAllowed(sdk: int, storageGranted: bool, cameraRationale: bool)
    ensures (SaveImageDecision(sdk, storageGranted, cameraRationale) == SaveToStorage) ==
            (sdk >= SDK_Q || storageGranted)
    ensures (SaveImageDecision(sdk, storageGranted, cameraRationale) == RequestStoragePermission) ==
            (sdk < SDK_Q && !storageGranted && !cameraRationale)
  {
  }

  datatype PermissionResponse = SaveStoredName(name: string) | NothingToSave | ShowStorageExplanation

  /** The permission callback: granted saves the stored name if there is one; denied explains. */
  function PermissionResultDecision(isGranted: bool, storedName: Option<string>): (r: PermissionResponse)
    ensures r == ShowStorageExplanation <==> !isGranted
    ensures r.SaveStoredName? <==> isGranted && storedName.Some?
    ensures r.SaveStoredName? ==> Some(r.name) == storedName
  {
    if isGranted then
      if storedName.Some? then SaveStoredName(storedName.value) else NothingToSave
    else ShowStorageExplanation
  }

  /** The visibility of the placeholder image and text, the photo, and the save-as and cancel buttons. */
  datatype Controls = Controls(placeholderImage: bool, placeholderText: bool,
                               photo: bool, saveAs: bool, cancel: bool)

  const DEFAULT_CONTROLS: Controls := Controls(false, false, true, true, true)
  const PLACEHOLDER_CONTROLS: Controls := Controls(true, true, false, false, false)

  function Inverted(c: Controls): Controls
  {
    Controls(!c.placeholderImage, !c.placeholderText, !c.photo, !c.saveAs, !c.cancel)
  }

  /** The default controls are the placeholder's exact inverse. */
  lemma DefaultControlsInvertPlaceholder()
    ensures Inverted(PLACEHOLDER_CONTROLS) == DEFAULT_CONTROLS
    ensures Inverted(DEFAULT_CONTROLS) == PLACEHOLDER_CONTROLS
  {
  }

  /** `displayImage`'s effect: a null bitmap shows the placeholder, a real one leaves the controls alone. */
  function DisplayEffect(c: Controls, b: Option<Bitmap>): Controls
  {
    if b.None? then PLACEHOLDER_CONTROLS else c
  }

  /** The controls after the default ones are shown once and then each bitmap is displayed in turn. */
  function ControlsAfter(bitmaps: seq<Option<Bitmap>>): Controls
    decreases |bitmaps|
  {
    if bitmaps == [] then DEFAULT_CONTROLS
    else DisplayEffect(ControlsAfter(bitmaps[..|bitmaps| - 1]), bitmaps[|bitmaps| - 1])
  }

  /** The placeholder is up exactly when some bitmap so far was null; a later bitmap never takes it down. */
  lemma {:induction false} PlaceholderIffSomeNullBitmap(bitmaps: seq<Option<Bitmap>>)
    ensures ControlsAfter(bitmaps) ==
              if exists i :: 0 <= i < |bitmaps| && bitmaps[i].None? then PLACEHOLDER_CONTROLS
              else DEFAULT_CONTROLS
  {
    if bitmaps != [] {
      var n := |bitmaps|;
      var prefix := bitmaps[..n - 1];
      PlaceholderIffSomeNullBitmap(prefix);
      if exists i :: 0 <= i < |prefix| && prefix[i].None? {
        var i :| 0 <= i < |prefix| && prefix[i].None?;
        assert bitmaps[i].None?;
      } else if bitmaps[n - 1].Some? {
        forall i | 0 <= i < n ensures bitmaps[i].Some? {
          if i < n - 1 { assert bitmaps[i] == prefix[i]; }
        }
      }
    }
  }

  datatype Dialog = SaveImageDialog | StorageRationaleDialog | StorageExplanationDialog

  /** A UI step the fragment takes: a dialog shown or the storage permission requested. */
  datatype UiEffect = ShowDialog(dialog: Dialog) | PermissionRequest

  /**
   * What carrying out decision `d` does: save through the view model, show
   * the rationale dialog, or request the permission; nothing else changes.
   */
  ghost predicate Dispatched(d: SaveDecision, saved: Option<SaveResult>,
                             entries0: map<Uri, ContentValues>, entries1: map<Uri, ContentValues>,
                             toasts0: seq<string>, toasts1: seq<string>,
                             effects0: seq<UiEffect>, effects1: seq<UiEffect>,
                             bitmap: Option<Bitmap>, imageName: string, sdk: int, o: StorageOutcomes)
  {
    match d
    case SaveToStorage =>
      && saved.Some?
      && SaveEffect(entries0, entries1, saved.value, bitmap, imageName, sdk, o)
      && toasts1 == (if saved.value.Saved? then toasts0 + [SAVED_NOTICE] else toasts0)
      && effects1 == effects0
    case ShowStorageRationale =>
      && saved.None? && entries1 == entries0 && toasts1 == toasts0
      && effects1 == effects0 + [ShowDialog(StorageRationaleDialog)]
    case RequestStoragePermission =>
      && saved.None? && entries1 == entries0 && toasts1 == toasts0
      && effects1 == effects0 + [PermissionRequest]
  }

  class PhotoFragment {
    const viewModel: MainViewModel

    var bitmap: Option<Bitmap>
    var imageNameFromViewModel: Option<string>
    var controls: Controls
    /** The image handed to the zoomable photo view, if any. */
    var photoImage: Option<Bitmap>
    var effects: seq<UiEffect>
    var atCameraScreen: bool
    /** Every bitmap the collector has displayed, oldest first. */
    ghost var displayed: seq<Option<Bitmap>>

    ghost predicate Valid()
      reads this
    {
      controls == ControlsAfter(displayed)
    }

    /** `onCreateView`: the default controls are shown, once. */
    constructor (viewModel: MainViewModel)
      ensures Valid() && this.viewModel == viewModel
      ensures displayed == [] && controls == DEFAULT_CONTROLS
      ensures bitmap == None && imageNameFromViewModel == None && photoImage == None
      ensures effects == [] && !atCameraScreen
    {
      this.viewModel := viewModel;
      bitmap := None;
      imageNameFromViewModel := None;
      photoImage := None;
      effects := [];
      atCameraScreen := false;
      displayed := [];
      new;
      ShowDefaultControls();
    }

    /**
     * Internal step of `displayImage` for a null bitmap. It does not extend
     * `displayed`, so outside `ObserveBitmap` it does not keep `Valid()`.
     */
    method ShowPlaceholder()
      modifies this`controls
      ensures controls == PLACEHOLDER_CONTROLS
    {
      controls := PLACEHOLDER_CONTROLS;
    }

    /**
     * Internal step of `onCreateView`. It does not extend `displayed`, so
     * outside the constructor it does not keep `Valid()`.
     */
    method ShowDefaultControls()
      modifies this`controls
      ensures controls == DEFAULT_CONTROLS
    {
      controls := DEFAULT_CONTROLS;
    }

    /**
     * `displayImage`: a bitmap goes to the photo view, a null one brings up
     * the placeholder. Internal step of `ObserveBitmap`, which records the
     * bitmap in `displayed` so the controls keep matching their history.
     */
    method DisplayImage(b: Option<Bitmap>)
      modifies this`controls, this`photoImage
      ensures controls == DisplayEffect(old(controls), b)
      ensures photoImage == if b.Some? then b else old(photoImage)
    {
      if b.Some? {
        photoImage := b;
      } else {
        ShowPlaceholder();
      }
    }

    /** The collector of the shared bitmap. */
    method ObserveBitmap(b: Option<Bitmap>)
      requires Valid()
      modifies this`bitmap, this`controls, this`photoImage, this`displayed
      ensures Valid()
      ensures displayed == old(displayed) + [b]
      ensures bitmap == b
      ensures photoImage == if b.Some? then b else old(photoImage)
    {
      bitmap := b;
      DisplayImage(bitmap);
      displayed := displayed + [b];
      assert displayed[..|displayed| - 1] == old(displayed);
    }

    /** The collector of the shared image name. */
    method ObserveImageName(name: Option<string>)
      modifies this`imageNameFromViewModel
      ensures imageNameFromViewModel == name
    {
      imageNameFromViewModel := name;
    }

    method OnSaveAsClick()
      modifies this`effects
      ensures effects == old(effects) + [ShowDialog(SaveImageDialog)]
    {
      effects := effects + [ShowDialog(SaveImageDialog)];
    }

    method OnCancelClick()
      modifies this`atCameraScreen
      ensures atCameraScreen
    {
      atCameraScreen := true;
    }

    /**
     * `saveImage`: the platform level, the storage permission, the camera
     * rationale answer and the storage outcomes are inputs. A failed save is
     * returned as `Failed`; the source lets that exception escape.
     */
    method SaveImage(imageName: string, sdk: int, storageGranted: bool, cameraRationale: bool,
                     resolver: ContentResolver, o: StorageOutcomes)
      returns (saved: Option<SaveResult>)
      requires resolver.Valid()
      modifies resolver, viewModel`toasts, this`effects
      ensures resolver.Valid()
      ensures Dispatched(SaveImageDecision(sdk, storageGranted, cameraRationale), saved,
                         old(resolver.entries), resolver.entries, old(viewModel.toasts), viewModel.toasts,
                         old(effects), effects, bitmap, imageName, sdk, o)
    {
      if sdk < SDK_Q {
        if storageGranted {
          var r := viewModel.SaveImageToExternalStorage(resolver, bitmap, imageName, sdk, o);
          saved := Some(r);
        } else if cameraRationale {
          effects := effects + [ShowDialog(StorageRationaleDialog)];
          saved := None;
        } else {
          effects := effects + [PermissionRequest];
          saved := None;
        }
      } else {
        var r := viewModel.SaveImageToExternalStorage(resolver, bitmap, imageName, sdk, o);
        saved := Some(r);
      }
    }

    /** The save dialog's callback. */
    method OnSaveClick(imageName: string, sdk: int, storageGranted: bool, cameraRationale: bool,
                       resolver: ContentResolver, o: StorageOutcomes)
      returns (saved: Option<SaveResult>)
      requires resolver.Valid()
      modifies resolver, viewModel`toasts, this`effects
      ensures resolver.Valid()
      ensures Dispatched(SaveImageDecision(sdk, storageGranted, cameraRationale), saved,
                         old(resolver.entries), resolver.entries, old(viewModel.toasts), viewModel.toasts,
                         old(effects), effects, bitmap, imageName, sdk, o)
    {
      saved := SaveImage(imageName, sdk, storageGranted, cameraRationale, resolver, o);
    }

    /**
     * The answer to the storage permission request. `sdk`, `storageGranted`
     * and `cameraRationale` are what `saveImage` then reads from the platform.
     */
    method OnPermissionResult(isGranted: bool, sdk: int, storageGranted: bool, cameraRationale: bool,
                              resolver: ContentResolver, o: StorageOutcomes)
      returns (saved: Option<SaveResult>)
      requires resolver.Valid()
      modifies resolver, viewModel`toasts, this`effects
      ensures resolver.Valid()
      ensures match PermissionResultDecision(isGranted, imageNameFromViewModel)
        case SaveStoredName(name) =>
          Dispatched(SaveImageDecision(sdk, storageGranted, cameraRationale), saved,
                     old(resolver.entries), resolver.entries, old(viewModel.toasts), viewModel.toasts,
                     old(effects), effects, bitmap, name, sdk, o)
        case NothingToSave =>
          saved.None? && resolver.entries == old(resolver.entries)
          && viewModel.toasts == old(viewModel.toasts) && effects == old(effects)
        case ShowStorageExplanation =>
          saved.None? && resolver.entries == old(resolver.entries)
          && viewModel.toasts == old(viewModel.toasts)
          && effects == old(effects) + [ShowDialog(StorageExplanationDialog)]
    {
      if isGranted {
        if imageNameFromViewModel.Some? {
          saved := SaveImage(imageNameFromViewModel.value, sdk, storageGranted, cameraRationale, resolver, o);
        } else {
          saved := None;
        }
      } else {
        effects := effects + [ShowDialog(StorageExplanationDialog)];
        saved := None;
      }
    }
  }
}
