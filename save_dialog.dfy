/**
 * The dialog that asks for the image name: the save button is enabled exactly
 * while the name field holds text, and a save click with text stores the name,
 * hands it to the photo screen and closes the dialog unless that save fails.
 */
module SaveDialog {
  import opened Wrappers
  import opened ViewModel
  import opened Media
  import Photo

  /** Kotlin's `text?.isNotEmpty() == true` and `text != null && text.isNotEmpty()`. */
  predicate IsNotEmpty(text: Option<string>)
  {
    text.Some? && |text.value| > 0
  }

  class SaveImageDialogFragment {
    const viewModel: MainViewModel

    var text: Option<string>
    var saveButtonEnabled: bool
    var dismissed: bool

    /** `onCreateDialog`: the save button starts enabled iff the field already holds text. */
    constructor (viewModel: MainViewModel, initialText: Option<string>)
      ensures this.viewModel == viewModel && text == initialText
      ensures saveButtonEnabled == IsNotEmpty(initialText)
      ensures !dismissed
    {
      this.viewModel := viewModel;
      text := initialText;
      saveButtonEnabled := IsNotEmpty(initialText);
      dismissed := false;
    }

    method BeforeTextChanged(s: Option<string>)
      modifies this`saveButtonEnabled
      ensures saveButtonEnabled == IsNotEmpty(s)
    {
      saveButtonEnabled := IsNotEmpty(s);
    }

    method OnTextChanged(s: Option<string>)
      modifies this`saveButtonEnabled
      ensures saveButtonEnabled == IsNotEmpty(s)
    {
      saveButtonEnabled := IsNotEmpty(s);
    }

    /** One edit of the name field, with the watcher's two callbacks around it. */
    method EditText(newText: Option<string>)
      modifies this`text, this`saveButtonEnabled
      ensures text == newText
      ensures saveButtonEnabled == IsNotEmpty(newText)
    {
      BeforeTextChanged(text);
      text := newText;
      OnTextChanged(text);
    }

    /**
     * The save button. With text it stores the name in the view model and
     * hands that name to the photo screen's `onSaveClick`, whose platform
     * answers are the remaining parameters. The dialog is dismissed only when
     * that callback returns normally: a failed save throws out of the
     * listener before `dismiss`, which ends the app. With no text nothing
     * happens.
     */
    method SaveClick(listener: Photo.PhotoFragment, sdk: int, storageGranted: bool, cameraRationale: bool,
                     resolver: ContentResolver, o: StorageOutcomes)
      returns (saved: Option<SaveResult>)
      requires listener.viewModel == viewModel
      requires resolver.Valid()
      modifies viewModel`imageName, viewModel`toasts, this`dismissed, resolver, listener`effects
      ensures resolver.Valid()
      ensures IsNotEmpty(text) ==>
                && viewModel.imageName == text
                && Photo.Dispatched(Photo.SaveImageDecision(sdk, storageGranted, cameraRationale), saved,
                                    old(resolver.entries), resolver.entries, old(viewModel.toasts), viewModel.toasts,
                                    old(listener.effects), listener.effects, listener.bitmap, text.value, sdk, o)
                && (if saved.Some? && saved.value.Failed? then dismissed == old(dismissed) else dismissed)
      ensures !IsNotEmpty(text) ==>
                && saved == None
                && viewModel.imageName == old(viewModel.imageName)
                && resolver.entries == old(resolver.entries)
                && viewModel.toasts == old(viewModel.toasts)
                && listener.effects == old(listener.effects)
                && dismissed == old(dismissed)
    {
      saved := None;
      if IsNotEmpty(text) {
        viewModel.SetImageName(text.value);
        saved := listener.OnSaveClick(text.value, sdk, storageGranted, cameraRationale, resolver, o);
        if !(saved.Some? && saved.value.Failed?) {
          dismissed := true;
        }
      }
    }

    /** The cancel button: closes the dialog, storing nothing. */
    method CancelClick()
      modifies this`dismissed
      ensures dismissed
    {
      dismissed := true;
    }
  }
}
