/**
 * The image picker: it checks a chosen file's type and size, keeps a preview
 * URL and an error line, and reports a choice or a removal to its parent
 * through the `onImageSelect` and `onImageRemove` callbacks, which the model
 * records as effects in call order.
 */
module ImageUpload {
  import opened Base
  import opened Text

  /** 2 MiB, the largest accepted file size, inclusive. */
  const MaxImageBytes := 2 * 1024 * 1024
  const NotAnImage := "Please select an image file."
  const TooLarge := "File size must be less than 2MB."

  datatype File = File(name: string, mimeType: string, size: nat)

  /** A callback into the parent: `onImageSelect(file or null)`, or `onImageRemove()`. */
  datatype Effect = ImageSelected(file: Option<File>) | ImageRemoved

  /** The file checks of `handleFileChange`, type before size; "" for an accepted file. */
  function FileError(file: File): (e: string)
    ensures e == "" <==> StartsWith(file.mimeType, "image/") && file.size <= MaxImageBytes
    ensures !StartsWith(file.mimeType, "image/") ==> e == NotAnImage
    ensures StartsWith(file.mimeType, "image/") && file.size > MaxImageBytes ==> e == TooLarge
  {
    if !StartsWith(file.mimeType, "image/") then NotAnImage
    else if file.size > MaxImageBytes then TooLarge
    else ""
  }

  /** The size cap is inclusive: exactly 2 MiB passes and one byte more does not. */
  lemma SizeCapIsInclusive(name: string, mimeType: string)
    requires StartsWith(mimeType, "image/")
    ensures FileError(File(name, mimeType, 2097152)) == ""
    ensures FileError(File(name, mimeType, 2097153)) == TooLarge
  {
  }

  class Uploader {
    var previewUrl: Option<string>
    var error: string
    /** The callbacks made so far, oldest first. */
    var effects: seq<Effect>

    constructor ()
      ensures previewUrl.None? && error == "" && effects == []
    {
      previewUrl := None;
      error := "";
      effects := [];
    }

    /** The effect on `existingImage`: the preview follows the parent's stored image. */
    method ShowExisting(existingImage: string)
      modifies this
      ensures previewUrl == (if existingImage != "" then Some(existingImage) else None)
      ensures error == old(error) && effects == old(effects)
    {
      if existingImage != "" {
        previewUrl := Some(existingImage);
      } else {
        previewUrl := None;
      }
    }

    /**
     * `handleFileChange`: `file` is the first chosen file, if any, and
     * `objectUrl` what `URL.createObjectURL` gives for it.
     */
    method HandleFileChange(file: Option<File>, objectUrl: string)
      modifies this
      // no file: the error is cleared and nothing else happens
      ensures file.None? ==> error == "" && previewUrl == old(previewUrl) && effects == old(effects)
      // a rejected file: its error is shown and the parent hears nothing
      ensures file.Some? && FileError(file.value) != "" ==>
              error == FileError(file.value) && previewUrl == old(previewUrl) && effects == old(effects)
      // an accepted file: previewed and reported exactly once
      ensures file.Some? && FileError(file.value) == "" ==>
              error == "" && previewUrl == Some(objectUrl) && effects == old(effects) + [ImageSelected(file)]
    {
      error := "";
      if file.None? {
        return;
      }
      var f := file.value;
      if !StartsWith(f.mimeType, "image/") {
        error := NotAnImage;
        return;
      }
      if f.size > MaxImageBytes {
        error := TooLarge;
        return;
      }
      previewUrl := Some(objectUrl);
      effects := effects + [ImageSelected(file)];
    }

    /** `handleRemove`: `onImageSelect(null)` first, then `onImageRemove()` when the parent gave one. */
    method HandleRemove(hasRemoveHandler: bool)
      modifies this
      ensures previewUrl.None? && error == old(error)
      ensures effects == old(effects) + [ImageSelected(None)] + (if hasRemoveHandler then [ImageRemoved] else [])
    {
      previewUrl := None;
      effects := effects + [ImageSelected(None)];
      if hasRemoveHandler {
        effects := effects + [ImageRemoved];
      }
    }
  }
}
