/** The image upload hook: the file validator and the choice of file made by file selection, drop
    and paste. Reading a file into a data URL is a parameter (`read`), and every call of the
    upload callback is recorded in order in `uploads`. */
module ImageUpload {
  import opened Wrappers
  import opened Text

  const DEFAULT_MAX_SIZE_MB: real := 10.0
  const IMAGE_PREFIX := "image/"
  const BYTES_PER_MB: real := 1048576.0

  /** A file as the browser hands it over: its MIME type and its size in bytes. */
  datatype File = File(name: string, mimeType: string, size: nat)

  /** A clipboard item: its type and what `getAsFile()` returns for it. */
  datatype ClipboardItem = ClipboardItem(kind: string, asFile: Option<File>)

  /** One call of the upload callback: the data URL read from the file, and the file as the blob. */
  datatype Upload = Upload(imageUrl: string, imageBlob: File)

  /** `validateImage`: an `image/` MIME type and at most `maxSizeMB` mebibytes. */
  predicate ValidateImage(file: File, maxSizeMB: real) {
    StartsWith(file.mimeType, IMAGE_PREFIX) && file.size as real <= maxSizeMB * BYTES_PER_MB
  }

  /** The limit is inclusive: a file of exactly the limit passes and one byte more fails. */
  lemma SizeLimitInclusive(name: string, mimeType: string, mb: nat)
    requires StartsWith(mimeType, IMAGE_PREFIX)
    ensures ValidateImage(File(name, mimeType, mb * 1048576), mb as real)
    ensures !ValidateImage(File(name, mimeType, mb * 1048576 + 1), mb as real)
  {
  }

  /** Whatever its size, a file whose type does not begin with `image/` is rejected. */
  lemma NonImageRejected(file: File, maxSizeMB: real)
    requires |file.mimeType| < |IMAGE_PREFIX| || file.mimeType[..|IMAGE_PREFIX|] != IMAGE_PREFIX
    ensures !ValidateImage(file, maxSizeMB)
  {
  }

  /** Raising the limit never turns an accepted file away. */
  lemma LimitMonotone(file: File, a: real, b: real)
    requires a <= b && ValidateImage(file, a)
    ensures ValidateImage(file, b)
  {
  }

  /** What `processFile` leads to: one upload of the file's data URL when it passes, nothing else. */
  function UploadsFor(file: File, maxSizeMB: real, read: File -> string): (r: seq<Upload>)
    ensures |r| <= 1
    ensures r != [] <==> ValidateImage(file, maxSizeMB)
    ensures r != [] ==> r[0] == Upload(read(file), file)
  {
    if ValidateImage(file, maxSizeMB) then [Upload(read(file), file)] else []
  }

  /** The file a paste processes: the first item with an `image/` type whose `getAsFile()` gives
      a file; items before it are image items without a file or not images at all. */
  function FirstPastedImage(items: seq<ClipboardItem>): (r: Option<nat>)
    ensures r.Some? ==> r.value < |items| && StartsWith(items[r.value].kind, IMAGE_PREFIX) &&
                        items[r.value].asFile.Some?
    ensures r.Some? ==> forall j :: 0 <= j < r.value ==>
      !StartsWith(items[j].kind, IMAGE_PREFIX) || items[j].asFile.None?
    ensures r.None? ==> forall j :: 0 <= j < |items| ==>
      !StartsWith(items[j].kind, IMAGE_PREFIX) || items[j].asFile.None?
  {
    if items == [] then None
    else if StartsWith(items[0].kind, IMAGE_PREFIX) && items[0].asFile.Some? then Some(0)
    else
      var rest := FirstPastedImage(items[1..]);
      if rest.None? then None else Some(rest.value + 1)
  }

  class Uploader {
    var maxSizeMB: real
    /** The value of the file input element. */
    var inputValue: string
    /** Every call of the upload callback so far, oldest first. */
    var uploads: seq<Upload>

    /** The hook with its options; `maxSizeMB` defaults to 10. */
    constructor(maxSizeMB: Option<real>, inputValue: string)
      ensures this.maxSizeMB == maxSizeMB.GetOr(DEFAULT_MAX_SIZE_MB)
      ensures this.inputValue == inputValue && uploads == []
    {
      this.maxSizeMB := maxSizeMB.GetOr(DEFAULT_MAX_SIZE_MB);
      this.inputValue := inputValue;
      uploads := [];
    }

    /** `processFile`: validates, then hands the file's data URL and the file to the callback. */
    method ProcessFile(file: File, read: File -> string)
      modifies this
      ensures uploads == old(uploads) + UploadsFor(file, maxSizeMB, read)
      ensures maxSizeMB == old(maxSizeMB) && inputValue == old(inputValue)
    {
      if !ValidateImage(file, maxSizeMB) {
        return;
      }
      uploads := uploads + [Upload(read(file), file)];
    }

    /** `handleFileSelect`: processes the first selected file, if any, and always clears the input
        so that the same file can be chosen again. */
    method HandleFileSelect(files: Option<seq<File>>, read: File -> string)
      modifies this
      ensures files.Some? && files.value != [] ==>
        uploads == old(uploads) + UploadsFor(files.value[0], maxSizeMB, read)
      ensures files.None? || files.value == [] ==> uploads == old(uploads)
      ensures inputValue == "" && maxSizeMB == old(maxSizeMB)
    {
      if files.Some? && files.value != [] {
        ProcessFile(files.value[0], read);
      }
      inputValue := "";
    }

    /** `handleDrop`: processes the first dropped file, if any. */
    method HandleDrop(files: seq<File>, read: File -> string)
      modifies this
      ensures files != [] ==> uploads == old(uploads) + UploadsFor(files[0], maxSizeMB, read)
      ensures files == [] ==> uploads == old(uploads)
      ensures maxSizeMB == old(maxSizeMB) && inputValue == old(inputValue)
    {
      if files != [] {
        ProcessFile(files[0], read);
      }
    }

    /** `handlePaste`: walks the clipboard items and processes the first image item that yields a
        file, then stops, whether or not that file passes validation. */
    method HandlePaste(items: Option<seq<ClipboardItem>>, read: File -> string)
      modifies this
      ensures items.None? ==> uploads == old(uploads)
      ensures items.Some? ==>
        var first := FirstPastedImage(items.value);
        && (first.None? ==> uploads == old(uploads))
        && (first.Some? ==>
              uploads == old(uploads) + UploadsFor(items.value[first.value].asFile.value, maxSizeMB, read))
      ensures maxSizeMB == old(maxSizeMB) && inputValue == old(inputValue)
    {
      if items.None? {
        return;
      }
      var list := items.value;
      var i := 0;
      while i < |list|
        invariant 0 <= i <= |list|
        invariant forall j :: 0 <= j < i ==> !StartsWith(list[j].kind, IMAGE_PREFIX) || list[j].asFile.None?
        invariant uploads == old(uploads) && maxSizeMB == old(maxSizeMB) && inputValue == old(inputValue)
      {
        var item := list[i];
        if StartsWith(item.kind, IMAGE_PREFIX) {
          var file := item.asFile;
          if file.Some? {
            ProcessFile(file.value, read);
            return;
          }
        }
        i := i + 1;
      }
    }
  }
}
