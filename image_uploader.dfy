/**
 * The upload widget of components/ImageUploader.tsx: the media-type gate in `handleFile`,
 * the first-file choice of the drop and change handlers, and the `isDragging` and
 * `imagePreview` fields its handlers set. The `onImageUpload` prop is not called here;
 * each handler returns what it passed to it, if anything.
 */
module ImageUploader {
  import opened Common

  const ImagePrefix := "image/"

  /** Whether and with what a handler called `onImageUpload`. */
  datatype Callback = NotCalled | Called(arg: Option<File>)

  /** The gate of `handleFile`: a file is present and its type starts with `image/`. */
  predicate Accepts(file: Option<File>)
  {
    file.Some? && ImagePrefix <= file.value.mimeType
  }

  /** What `handleFile` passes to `onImageUpload`: the file itself, or `null` for a rejected one. */
  function Forwarded(file: Option<File>): (arg: Option<File>)
    ensures arg.Some? <==> Accepts(file)
    ensures arg.Some? ==> arg == file && |arg.value.mimeType| >= 6 && arg.value.mimeType[..6] == "image/"
  {
    if Accepts(file) then file else None
  }

  /** `files && files.length > 0 ? files[0] : nothing`: the one file the handlers look at. */
  function FirstFile(files: Option<seq<File>>): (first: Option<File>)
    ensures first.Some? <==> files.Some? && |files.value| > 0
    ensures first.Some? ==> first.value == files.value[0]
  {
    match files
    case Some(list) => if |list| > 0 then Some(list[0]) else None
    case None => None
  }

  /** What a drop or a change of the file input passes to `onImageUpload`. */
  function FilesCallback(files: Option<seq<File>>): Callback
  {
    match FirstFile(files)
    case Some(file) => Called(Forwarded(Some(file)))
    case None => NotCalled
  }

  /**
   * A drop or a change calls back exactly when the list holds a file; it passes on the first
   * file when that is an image and `null` otherwise, and the files after it never matter.
   */
  lemma FilesCallbackUsesFirstOnly(files: Option<seq<File>>)
    ensures FilesCallback(files).Called? <==> files.Some? && |files.value| > 0
    ensures FilesCallback(files).Called? ==>
              FilesCallback(files) == Called(Forwarded(Some(files.value[0])))
              && FilesCallback(files) == FilesCallback(Some([files.value[0]]))
  {
  }

  /** Any `image/` type passes, also ones the file picker does not offer; anything else is refused. */
  lemma GateExamples(name: string, bytes: seq<bv8>)
    ensures Accepts(Some(File(name, "image/png", bytes)))
    ensures Accepts(Some(File(name, "image/jpeg", bytes)))
    ensures Accepts(Some(File(name, "image/webp", bytes)))
    ensures Accepts(Some(File(name, "image/gif", bytes)))
    ensures !Accepts(Some(File(name, "text/plain", bytes)))
    ensures !Accepts(Some(File(name, "Image/png", bytes)))
    ensures !Accepts(Some(File(name, "image", bytes)))
    ensures !Accepts(Some(File(name, "", bytes)))
    ensures !Accepts(None)
  {
    assert ImagePrefix[0] == 'i' != "text/plain"[0];
    assert ImagePrefix[0] == 'i' != "Image/png"[0];
  }

  /** The component's state, changed in place by its handlers. */
  class Uploader {
    var imagePreview: Option<string>
    var isDragging: bool

    constructor ()
      ensures imagePreview.None? && !isDragging
    {
      imagePreview, isDragging := None, false;
    }

    /**
     * `handleFile`. An accepted file is passed on; its preview arrives later, through
     * `PreviewLoaded`. A rejected or missing file clears the preview and passes on `null`.
     */
    method HandleFile(file: Option<File>) returns (upload: Callback)
      modifies this
      ensures upload == Called(Forwarded(file))
      ensures imagePreview == (if Accepts(file) then old(imagePreview) else None)
      ensures isDragging == old(isDragging)
    {
      if file.Some? && ImagePrefix <= file.value.mimeType {
        upload := Called(file);
      } else {
        imagePreview := None;
        upload := Called(None);
      }
    }

    /** The `FileReader`'s `onloadend`: the preview becomes what the reader produced. */
    method PreviewLoaded(result: Option<string>)
      modifies this
      ensures imagePreview == result && isDragging == old(isDragging)
    {
      imagePreview := result;
    }

    /** `handleDragOver`. */
    method HandleDragOver()
      modifies this
      ensures isDragging && imagePreview == old(imagePreview)
    {
      isDragging := true;
    }

    /** `handleDragLeave`. */
    method HandleDragLeave()
      modifies this
      ensures !isDragging && imagePreview == old(imagePreview)
    {
      isDragging := false;
    }

    /** `handleDrop`: stop dragging, then hand the first dropped file, if any, to `handleFile`. */
    method HandleDrop(files: Option<seq<File>>) returns (upload: Callback)
      modifies this
      ensures !isDragging
      ensures upload == FilesCallback(files)
      ensures imagePreview == (if FirstFile(files).Some? && !Accepts(FirstFile(files)) then None else old(imagePreview))
    {
      isDragging := false;
      if files.Some? && |files.value| > 0 {
        upload := HandleFile(Some(files.value[0]));
      } else {
        upload := NotCalled;
      }
    }

    /** `handleFileChange`: hand the first chosen file, if any, to `handleFile`. */
    method HandleFileChange(files: Option<seq<File>>) returns (upload: Callback)
      modifies this
      ensures isDragging == old(isDragging)
      ensures upload == FilesCallback(files)
      ensures imagePreview == (if FirstFile(files).Some? && !Accepts(FirstFile(files)) then None else old(imagePreview))
    {
      if files.Some? && |files.value| > 0 {
        upload := HandleFile(Some(files.value[0]));
      } else {
        upload := NotCalled;
      }
    }
  }
}
