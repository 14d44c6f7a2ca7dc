# camera-x: a Dafny model of the app's own logic

This models the parts of the Android camera app that are its own logic rather
than calls into CameraX or the view system. Platform answers are plain inputs:
whether the camera has a flash unit, whether a capture use case is bound, how a
capture ends, the platform level, the storage permission, the rationale answer,
and how each media-store step ends.

- **Camera screen** (`camera.dfy`, module `Camera`):
  - sorting raw sensor degrees into four logical orientations and a capture target rotation;
  - classifying the two-slot orientation register into one of nine named transitions;
  - the rotation animations and flash icons chosen for those transitions;
  - the flash-mode cycle and the lens toggle;
  - the photo-state calls of the shutter and the capture callbacks;
  - the placeholders that decide whether the focus marker shows.

  `CameraFragment` is a class whose methods update its fields as the fragment does.
- **View model** (`view_model.dfy`, module `ViewModel`): the shared state the
  screens read and write (orientation register, photo state, image name,
  bitmap) as the class `MainViewModel`. It also holds the save sequence
  insert → open → compress, which deletes the inserted entry on any failure.
- **Media store** (`media.dfy`, module `Media`): an abstract content resolver.
  Its entries are a map from URIs to the values attached at insert.
- **Photo screen** (`photo.dfy`, module `Photo`): the save decision table, the
  permission callback, and the placeholder/default-controls visibility, on
  the class `PhotoFragment`.
- **Save dialog** (`save_dialog.dfy`, module `SaveDialog`): save-button
  enablement and the guarded save click, on the class `SaveImageDialogFragment`.

Each Kotlin `StateFlow` is a plain field holding its last value. Each collector
of one is a method (`ObserveScreenOrientation`, `ObservePhotoState`,
`ObserveBitmap`, `ObserveImageName`) that the driver calls after the value changes.
Toasts, dialogs and permission requests are logged in `seq` fields, so "nothing
was shown" can be stated.

Behaviour reproduced as the code has it:
- The orientation register shifts on every reading, even when the bucket has
  not changed. The previous slot is the reading before last, not the last
  *distinct* orientation.
- A capture error hides the spinner and shows a notice, but leaves the photo
  state at Started.
- Seven register values have no branch. They leave the transition unchanged
  and start no animation.
- A flash click under the 0to90 transition sets the `_90_0` icon.
- The storage rationale question asks about the CAMERA permission.
- A failed save deletes the orphan entry and rethrows its `IOException`.
  Nothing catches it: not `saveImage`, `onSaveClick`, the save dialog's click
  listener or the permission callback. No uncaught-exception handler is
  installed either, so the app crashes. The model returns the failure as
  `Failed(message)` instead.
- Only the flash button's own listener sets its enabled flag, and a disabled
  button gets no clicks. So after one click with no flash unit the button
  stays disabled, and the flash mode is frozen, even after flipping to a lens
  with a flash. `OnFlashClick` therefore requires the button to be enabled.

## Model

| member | source | states |
|---|---|---|
| Media.ContentResolver.Insert | app/src/main/java/com/lacrima/camerax/MainViewModel.kt:162-163 | an accepted insert adds exactly one entry under a URI not in use before; a refused insert (null) changes nothing |
| Media.ContentResolver.Delete | app/src/main/java/com/lacrima/camerax/MainViewModel.kt:170-173 | the store afterwards is the store without that URI |
| ViewModel.ImagesCollection | app/src/main/java/com/lacrima/camerax/MainViewModel.kt:144-148 | the primary external volume is used exactly when the level is at least Q |
| ViewModel.ImageDetails | app/src/main/java/com/lacrima/camerax/MainViewModel.kt:149-155 | display name is the given name, MIME type is image/jpeg, and a relative path (DCIM) is present exactly when the level is at least Q |
| ViewModel.SaveFailure | app/src/main/java/com/lacrima/camerax/MainViewModel.kt:161-167 | a save fails unless insert, open and compress all succeed on a non-null bitmap; a failed insert, a failed open and a failed or impossible compression each give their own message |
| ViewModel.SaveAddsOneEntry | app/src/main/java/com/lacrima/camerax/MainViewModel.kt:161-168 | a successful save grows the store by exactly one entry, carrying the image name |
| ViewModel.MainViewModel.constructor | app/src/main/java/com/lacrima/camerax/MainViewModel.kt:41-71 | no bitmap, no image name, photo state NotStarted, register (Portrait, Portrait) |
| ViewModel.MainViewModel.SetImageName | app/src/main/java/com/lacrima/camerax/MainViewModel.kt:49-51 | the image name becomes exactly the given string |
| ViewModel.MainViewModel.MakePhotoStateStarted | app/src/main/java/com/lacrima/camerax/MainViewModel.kt:57-59 | photo state becomes Started from any state |
| ViewModel.MainViewModel.MakePhotoStateEnded | app/src/main/java/com/lacrima/camerax/MainViewModel.kt:61-63 | photo state becomes Ended from any state |
| ViewModel.Shift | app/src/main/java/com/lacrima/camerax/MainViewModel.kt:75 | one step of the register: the new reading goes to the second slot, the old second slot moves to the first, and the old first is dropped |
| ViewModel.TwoShiftsForgetHistory | app/src/main/java/com/lacrima/camerax/MainViewModel.kt:74-76 | after two readings the register holds exactly those two, whatever it held before |
| ViewModel.MainViewModel.UpdateScreenOrientation | app/src/main/java/com/lacrima/camerax/MainViewModel.kt:75-79 | the register becomes (old second, new reading), with no distinctness check |
| ViewModel.MainViewModel.UpdateBitmapValue | app/src/main/java/com/lacrima/camerax/MainViewModel.kt:108 | the shared bitmap becomes the decoded (possibly null) bitmap, as `getBitmap` assigns it |
| ViewModel.MainViewModel.SaveImageToExternalStorage | app/src/main/java/com/lacrima/camerax/MainViewModel.kt:137-176 | on success one new entry with the image details and the success notice; on any failure the store equals its state before the call, the specific IOException message is returned and no notice is shown |
| Camera.ViewRotation | app/src/main/java/com/lacrima/camerax/camera/CameraFragment.kt:652-658 | every orientation turns a button by a right-angle multiple in [0, 360) |
| Camera.ViewRotationInjective | app/src/main/java/com/lacrima/camerax/camera/CameraFragment.kt:652-658 | distinct orientations give distinct button rotations |
| Camera.Bucket | app/src/main/java/com/lacrima/camerax/camera/CameraFragment.kt:1005-1026 | every int lands in exactly one bucket: [45,135) ReverseLandscape, [135,225) ReversePortrait, [225,315) Landscape, everything else (including -1) Portrait; the capture rotation's degrees equal the degrees changeViewRotation gives that orientation |
| Camera.TrackHoldsLastTwo | app/src/main/java/com/lacrima/camerax/MainViewModel.kt:71-76 | after any stream of readings the register holds exactly the buckets of the last two readings (Portrait before the second one) |
| Camera.RepeatedReadingFillsBothSlots | app/src/main/java/com/lacrima/camerax/MainViewModel.kt:75-76 | two readings in the same bucket v leave the register at (v, v) |
| Camera.Endpoints | app/src/main/java/com/lacrima/camerax/camera/CameraFragment.kt:1240-1250 | each transition XtoY is chosen for a register whose first orientation has X degrees and second has Y degrees |
| Camera.ClassifyPair | app/src/main/java/com/lacrima/camerax/camera/CameraFragment.kt:326-458 | a classified register value is exactly the endpoints of the transition chosen; nothing is chosen exactly for the seven unmapped pairs |
| Camera.ClassifyInvertsEndpoints | app/src/main/java/com/lacrima/camerax/camera/CameraFragment.kt:326-458 | each of the nine transitions is chosen for its own endpoints |
| Camera.EndpointsInjective | app/src/main/java/com/lacrima/camerax/camera/CameraFragment.kt:1240-1250 | no two transitions share endpoints |
| Camera.ExactlyNineClassified | app/src/main/java/com/lacrima/camerax/camera/CameraFragment.kt:326-458 | a register value is classified exactly when it is one of nine listed values; nine are classified and seven are not |
| Camera.RotationAnimations | app/src/main/java/com/lacrima/camerax/camera/CameraFragment.kt:334-456 | 0to0 starts no animation; every other XtoY gives the flip button switch_camera_X_Y and the flash button flash_(mode)_X_Y |
| Camera.NextFlashMode | app/src/main/java/com/lacrima/camerax/camera/CameraFragment.kt:549-626 | Auto becomes Off, Off becomes On, anything else becomes Auto; the mode always changes |
| Camera.FlashCycleHasPeriodThree | app/src/main/java/com/lacrima/camerax/camera/CameraFragment.kt:549-626 | three flash clicks return to the starting mode and two never do |
| Camera.FlashClickIcon | app/src/main/java/com/lacrima/camerax/camera/CameraFragment.kt:551-621 | the icon always shows the new mode; 0to0 gives the default icon, 0to90 the _90_0 resource, every other transition its own X_Y resource |
| Camera.ZeroToNinetyIconIsReversed | app/src/main/java/com/lacrima/camerax/camera/CameraFragment.kt:554-557 | under 0to90 the click icon runs opposite to the flash animation the collector started |
| Camera.ToggledLens | app/src/main/java/com/lacrima/camerax/camera/CameraFragment.kt:532-538 | Front becomes Back and anything else becomes Front; the lens always changes |
| Camera.CameraErrorText | app/src/main/java/com/lacrima/camerax/camera/CameraFragment.kt:1161-1195 | the generic text is shown exactly for the stream-configuration error and the other recoverable error |
| Camera.ErrorTextsDistinguishCodes | app/src/main/java/com/lacrima/camerax/camera/CameraFragment.kt:1161-1195 | two error codes show the same text exactly when they are the same code or both are the two recoverable ones |
| Camera.CameraFragment.constructor | app/src/main/java/com/lacrima/camerax/camera/CameraFragment.kt:64-86 | transition 0to0, back lens, flash Auto, not flipped, default Auto flash icon |
| Camera.CameraFragment.OnOrientationChanged | app/src/main/java/com/lacrima/camerax/camera/CameraFragment.kt:1005-1029 | the reading's bucket is pushed into the register and its rotation returned for the capture use case |
| Camera.CameraFragment.StartImageButtonRotationAnimation | app/src/main/java/com/lacrima/camerax/camera/CameraFragment.kt:1109-1127 | the button shows the animation, the animation is started, and currentImageResourceFlashButton records it whichever button it is |
| Camera.CameraFragment.ObserveScreenOrientation | app/src/main/java/com/lacrima/camerax/camera/CameraFragment.kt:322-458 | the flash rotation resets to 0; a classified register sets the transition and, unless 0to0, starts flip then flash animations; an unmapped register changes nothing else |
| Camera.CameraFragment.OnFlipClick | app/src/main/java/com/lacrima/camerax/camera/CameraFragment.kt:530-541 | the lens toggles |
| Camera.CameraFragment.OnFlashClick | app/src/main/java/com/lacrima/camerax/camera/CameraFragment.kt:544-633 | callable only while the button is enabled; with a flash unit: button enabled, rotated to the current orientation, mode cycled and icon set for the new mode; without one: button disabled and mode, icon and rotation unchanged |
| Camera.CameraFragment.TakePhoto | app/src/main/java/com/lacrima/camerax/camera/CameraFragment.kt:686-692 | flippedHorizontally is set iff the lens is Front; photo state is Started even when no capture use case is bound |
| Camera.CameraFragment.OnCaptureSuccess | app/src/main/java/com/lacrima/camerax/camera/CameraFragment.kt:703-727 | the decoded bitmap is shared, the photo screen is reached, then the state is Ended |
| Camera.CameraFragment.OnCaptureError | app/src/main/java/com/lacrima/camerax/camera/CameraFragment.kt:729-739 | the spinner is hidden and the error notice shown; the photo state is unchanged |
| Camera.CameraFragment.ObservePhotoState | app/src/main/java/com/lacrima/camerax/camera/CameraFragment.kt:308-319 | the spinner is visible exactly while the state is Started |
| Camera.CameraFragment.SetFocusPlaceAndVisibility | app/src/main/java/com/lacrima/camerax/camera/CameraFragment.kt:989-996 | the focus marker is visible iff neither placeholder is visible and the lens is not Front |
| Camera.CameraFragment.ShowNoAccess | app/src/main/java/com/lacrima/camerax/camera/CameraFragment.kt:185-194 | the no-permission placeholder shows; the error placeholder and the controls are hidden |
| Camera.CameraFragment.ShowAccess | app/src/main/java/com/lacrima/camerax/camera/CameraFragment.kt:199-210 | both placeholders hidden and the controls shown |
| Camera.CameraFragment.ShowErrorPlaceholder | app/src/main/java/com/lacrima/camerax/camera/CameraFragment.kt:223-240 | the error placeholder shows the given text; the no-permission placeholder and the controls are hidden |
| Camera.CameraFragment.OnCameraState | app/src/main/java/com/lacrima/camerax/camera/CameraFragment.kt:1145-1198 | an open camera clears a visible placeholder; an error code then shows its own text |
| Photo.SaveImageDecision | app/src/main/java/com/lacrima/camerax/photo/PhotoFragment.kt:256-277 | at level Q or later it saves whatever the permission; below Q it saves iff the storage permission is held, else shows the rationale iff the camera rationale is requested, else requests the permission |
| Photo.SavesExactlyWhenAllowed | app/src/main/java/com/lacrima/camerax/photo/PhotoFragment.kt:256-277 | a save happens iff the level is at least Q or the permission is held; a request happens iff below Q, not held and no rationale |
| Photo.PermissionResultDecision | app/src/main/java/com/lacrima/camerax/photo/PhotoFragment.kt:66-77 | denied shows the explanation; granted saves the stored name iff there is one, and that exact name |
| Photo.DefaultControlsInvertPlaceholder | app/src/main/java/com/lacrima/camerax/photo/PhotoFragment.kt:213-230 | the default controls are the exact inverse of the placeholder's |
| Photo.PlaceholderIffSomeNullBitmap | app/src/main/java/com/lacrima/camerax/photo/PhotoFragment.kt:184-199 | after the default controls and any stream of bitmaps, the placeholder is up iff some bitmap was null; otherwise the default controls remain |
| Photo.PhotoFragment.constructor | app/src/main/java/com/lacrima/camerax/photo/PhotoFragment.kt:103-191 | the default controls are shown, once, with no bitmap and no name |
| Photo.PhotoFragment.ShowPlaceholder | app/src/main/java/com/lacrima/camerax/photo/PhotoFragment.kt:213-220 | placeholder image and text shown; photo, save-as and cancel hidden |
| Photo.PhotoFragment.ShowDefaultControls | app/src/main/java/com/lacrima/camerax/photo/PhotoFragment.kt:222-230 | placeholder hidden; photo, save-as and cancel shown |
| Photo.PhotoFragment.DisplayImage | app/src/main/java/com/lacrima/camerax/photo/PhotoFragment.kt:193-204 | a bitmap goes to the photo view with the controls untouched; a null bitmap shows the placeholder |
| Photo.PhotoFragment.ObserveBitmap | app/src/main/java/com/lacrima/camerax/photo/PhotoFragment.kt:138-148 | the bitmap is kept and displayed, and the controls stay those of the whole displayed history |
| Photo.PhotoFragment.ObserveImageName | app/src/main/java/com/lacrima/camerax/photo/PhotoFragment.kt:151-153 | the stored name follows the view model's |
| Photo.PhotoFragment.OnSaveAsClick | app/src/main/java/com/lacrima/camerax/photo/PhotoFragment.kt:172-175 | the save dialog is shown |
| Photo.PhotoFragment.OnCancelClick | app/src/main/java/com/lacrima/camerax/photo/PhotoFragment.kt:177-180 | the camera screen is reached |
| Photo.PhotoFragment.SaveImage | app/src/main/java/com/lacrima/camerax/photo/PhotoFragment.kt:256-277 | carries out the decision table: a save with the view model's contract, or the rationale dialog, or one permission request, and nothing else |
| Photo.PhotoFragment.OnSaveClick | app/src/main/java/com/lacrima/camerax/photo/PhotoFragment.kt:279-280 | same as SaveImage |
| Photo.PhotoFragment.OnPermissionResult | app/src/main/java/com/lacrima/camerax/photo/PhotoFragment.kt:64-79 | granted with a stored name runs SaveImage on it; granted without one does nothing; denied shows the explanation dialog and saves nothing |
| SaveDialog.SaveImageDialogFragment.constructor | app/src/main/java/com/lacrima/camerax/photo/SaveImageDialogFragment.kt:60-71 | the save button starts enabled iff the initial text is non-empty |
| SaveDialog.SaveImageDialogFragment.BeforeTextChanged | app/src/main/java/com/lacrima/camerax/photo/SaveImageDialogFragment.kt:41-43 | the button is enabled iff the text seen is non-null and non-empty |
| SaveDialog.SaveImageDialogFragment.OnTextChanged | app/src/main/java/com/lacrima/camerax/photo/SaveImageDialogFragment.kt:45-47 | the button is enabled iff the text seen is non-null and non-empty |
| SaveDialog.SaveImageDialogFragment.EditText | app/src/main/java/com/lacrima/camerax/photo/SaveImageDialogFragment.kt:40-50 | after any edit the button is enabled iff the new text is non-empty |
| SaveDialog.SaveImageDialogFragment.SaveClick | app/src/main/java/com/lacrima/camerax/photo/SaveImageDialogFragment.kt:73-83 | with text: the name is stored in the view model, the photo screen's onSaveClick runs on that same name with its full contract, and the dialog is dismissed unless the save failed; with no text nothing happens |
| SaveDialog.SaveImageDialogFragment.CancelClick | app/src/main/java/com/lacrima/camerax/photo/SaveImageDialogFragment.kt:64-66 | the dialog is dismissed, with no name stored and no callback |

## Left out

- CameraX binding, preview, `takePicture` and tap-to-focus metering futures (`bindCameraUseCases`, `setUpCamera`, `setTapToFocus`): these are vendor-library calls with asynchronous callbacks. Their results are inputs: flash unit present, capture use case bound, capture success with a decoded bitmap, or capture error.
- `OnFlashClick`, `OnFlipClick`: the rebinding of use cases that follows each click is not modelled, for the reason above.
- Bitmap decode, rotation and horizontal flip (`getBitmap`, `Util.rotate`, `Util.flipHorizontally`): float-matrix platform graphics. Only the assignment of the decoded result to the bitmap flow is modelled, through `UpdateBitmapValue`, so `flippedHorizontally` is not connected to the image.
- `aspectRatio`: floating-point arithmetic.
- The SharedPreferences that persist the lens and flash mode across sessions: I/O. The fields start from the source's defaults.
- Flash mode and lens facing are enums, not the CameraX integers. An out-of-range integer read back from the preferences cannot occur in the model. "Anything else becomes Auto" is therefore On becoming Auto.
- The shutter's white-flash foreground animation, the delayed removal of the focus result, and the focus marker's x/y position: timers and float coordinates.
- Coroutines, StateFlow collection and executors: concurrency. Each flow is a field, and each collector is a method whoever drives the model calls.
- The camera screen's own camera-permission flow (`updateCameraUi`'s denied branch, `onStart`) and its result callback: outside the core modelled here.
- The initial visibility and enablement that come from the XML layouts: the layouts are not part of this model. The camera screen starts with placeholders hidden, controls shown and the flash button enabled.
- The real MediaStore and ContentResolver: represented by `Media.ContentResolver`, whose insert outcome is an input. The written bytes and the stream's closing are not modelled.
- `recycleBitmap`, `setImageCaptured`, `updateBitmapValue`, the other `getBitmap` overload, and the photo view's `recycle`: they only release platform memory or are never called. `UpdateBitmapValue` is kept only to stand for `getBitmap`'s own assignment of the bitmap flow.
- SaveDialog.SaveImageDialogFragment.SaveClick: a failed save ends the app's process, but the model returns `Failed` and carries on. In that case `dismissed == old(dismissed)` means only that `dismiss` never ran. No state after a `Failed` result from `SaveClick` or from `Photo.PhotoFragment.OnPermissionResult` exists in the app.
- ViewModel.SaveFailure: `streamOpened == false` stands for `openOutputStream` returning null. An open that throws its own `IOException` (such as `FileNotFoundException`) is folded into this case. It runs the same cleanup, but its message is the platform's, not the modelled one.
- The permission dialog classes, the activity's volume-key relay and the zoomable image view: fixed text and framework plumbing.
- The storage rationale dialog expects its parent to implement a listener that `PhotoFragment` does not implement, so attaching it would throw. This crosses fragment lifecycles and is not modelled. `SaveImage` only records that the dialog was shown.
