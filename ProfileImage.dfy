/**
 * The profile picture widget of src/components/ProfileImageUpload.jsx: who
 * may see it, and how choosing, uploading and cancelling a picture change its
 * state.
 */
module ProfileImage {
  import opened Js

  const UploadFailed := "Failed to upload image. Please try again."
  const ChangeLabel := "Change Profile Picture"
  const UploadLabel := "Upload Profile Picture"

  /** The signed-in user as the component receives it; `id` is whatever JSON value the server sent. */
  datatype User = User(id: Value)

  /** The artist whose profile is shown: its owning user, if any, and its current picture. */
  datatype Artist = Artist(user: Option<User>, profileImage: Value)

  /** A file chosen in the picker. */
  datatype File = File(name: string)

  /** `artist.user?.id` */
  function OwnerId(artist: Artist): Value {
    if artist.user.Some? then artist.user.value.id else Undefined
  }

  /** `user && artist && user.id === artist.user?.id` */
  predicate IsOwner(user: Option<User>, artist: Option<Artist>): (b: bool)
    ensures b <==> (
      && user.Some? && artist.Some?
      && if artist.value.user.Some? then user.value.id == artist.value.user.value.id
         else user.value.id == Undefined)
  {
    user.Some? && artist.Some? && user.value.id == OwnerId(artist.value)
  }

  /** No one owns a profile without both a user and an artist, and the ids
      are compared strictly, so a numeric id never matches its decimal text. */
  lemma IsOwnerMeaning(user: Option<User>, artist: Option<Artist>)
    ensures user.None? || artist.None? ==> !IsOwner(user, artist)
    ensures forall n: int :: !IsOwner(Some(User(Num(n))), Some(Artist(Some(User(Str(IntToString(n)))), Null)))
  {
  }

  /** What the component renders when it renders anything. */
  datatype Panel = Panel(
    pickerLabel: Option<string>,   // the file picker, shown while no file is chosen
    previewShown: bool,            // the preview with Upload and Cancel, shown once a file is chosen
    buttonsDisabled: bool,
    uploadCaption: string,
    errorText: Option<string>)

  class ProfileImageUpload {
    var selectedFile: Option<File>
    var preview: Option<string>
    var isUploading: bool
    var error: string

    constructor ()
      ensures selectedFile == None && preview == None && !isUploading && error == ""
    {
      selectedFile, preview, isUploading, error := None, None, false, "";
    }

    /** The rendered widget: nothing at all for anyone but the owner; otherwise
        either the picker or the preview, never both. */
    function Render(user: Option<User>, artist: Option<Artist>): (p: Option<Panel>)
      reads this
      ensures p.None? <==> !IsOwner(user, artist)
      ensures p.Some? ==> (p.value.pickerLabel.Some? <==> !p.value.previewShown)
      ensures p.Some? ==> (p.value.previewShown <==> selectedFile.Some?)
      ensures p.Some? ==> (p.value.errorText.Some? <==> error != "")
      ensures p.Some? ==> p.value.buttonsDisabled == isUploading
    {
      if !IsOwner(user, artist) then None
      else
        var pickerText := if Truthy(artist.value.profileImage) then ChangeLabel else UploadLabel;
        Some(Panel(
          if selectedFile.None? then Some(pickerText) else None,
          selectedFile.Some?,
          isUploading,
          if isUploading then "Uploading..." else "Upload",
          if error != "" then Some(error) else None))
    }

    /** `handleFileSelect(e)` with `e.target.files[0]`: a chosen file is kept
        and the error cleared; an empty choice changes nothing. */
    method HandleFileSelect(file: Option<File>)
      modifies this
      ensures preview == old(preview) && isUploading == old(isUploading)
      ensures file.Some? ==> selectedFile == file && error == ""
      ensures file.None? ==> selectedFile == old(selectedFile) && error == old(error)
    {
      if file.Some? {
        selectedFile := file;
        error := "";
      }
    }

    /** `handleUpload` up to the request: it does not stop when no file is
        chosen; it clears the error, marks the widget busy and sends the
        selected file (possibly none). */
    method BeginUpload() returns (sent: Option<File>)
      modifies this
      ensures sent == selectedFile
      ensures selectedFile == old(selectedFile) && preview == old(preview)
      ensures isUploading && error == ""
    {
      if selectedFile.None? {
        error := "";
      }
      isUploading := true;
      error := "";
      sent := selectedFile;
    }

    /** `handleUpload` after the request: success drops the selection and
        preview, failure shows the failure text; the widget is no longer busy
        either way. */
    method FinishUpload(succeeded: bool)
      modifies this
      ensures !isUploading
      ensures succeeded ==> selectedFile == None && preview == None && error == old(error)
      ensures !succeeded ==>
        error == UploadFailed && selectedFile == old(selectedFile) && preview == old(preview)
    {
      if succeeded {
        selectedFile := None;
        preview := None;
      } else {
        error := UploadFailed;
      }
      isUploading := false;
    }

    /** `handleCancel()`: drops the selection, the preview and the error. */
    method HandleCancel()
      modifies this
      ensures selectedFile == None && preview == None && error == ""
      ensures isUploading == old(isUploading)
    {
      selectedFile := None;
      preview := None;
      error := "";
    }
  }
}
