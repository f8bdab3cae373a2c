/**
 * The file input's checks before upload (how many files, how large), the
 * drag-highlight flag of its drop zone, and the value the form field
 * receives when files are chosen.
 */
module FileInput {
  import opened Wrappers

  datatype File = File(name: string, size: int)

  /** What `handleFiles` does with a batch. */
  datatype Handled =
    | TooManyFiles
    | TooLarge
    | Uploaded(fileList: seq<File>)
    | NoUploader

  /** A numeric prop is truthy when it is set and non-zero. */
  predicate Truthy(n: Option<int>) { n.Some? && n.value != 0 }

  /** The files strictly larger than `maxSize`, in order. */
  function Oversized(files: seq<File>, maxSize: int): (r: seq<File>)
    ensures |r| == 0 <==> forall i :: 0 <= i < |files| ==> files[i].size <= maxSize
  {
    if files == [] then []
    else (if files[0].size > maxSize then [files[0]] else []) + Oversized(files[1..], maxSize)
  }

  /**
   * `handleFiles`: the count check when `maxFiles` is truthy, then the size
   * check when `maxSize` is truthy, then the upload callback if there is one.
   */
  function HandleFiles(files: seq<File>, maxFiles: Option<int>, maxSize: Option<int>, hasUpload: bool): (h: Handled)
    ensures h == TooManyFiles <==> Truthy(maxFiles) && |files| > maxFiles.value
    ensures h == TooLarge <==>
      !(Truthy(maxFiles) && |files| > maxFiles.value) &&
      Truthy(maxSize) && exists i :: 0 <= i < |files| && files[i].size > maxSize.value
    ensures h.Uploaded? ==> h.fileList == files && hasUpload
    ensures h == NoUploader ==> !hasUpload
  {
    if Truthy(maxFiles) && |files| > maxFiles.value then TooManyFiles
    else if Truthy(maxSize) && |Oversized(files, maxSize.value)| > 0 then TooLarge
    else if hasUpload then Uploaded(files)
    else NoUploader
  }

  /** What the form field is set to when the file input changes. */
  datatype FieldValue = FileList(files: seq<File>) | OneFile(file: File) | NoFile

  /** The field value: the whole list when `multiple`, else the first file or nothing. */
  function ChangeValue(files: seq<File>, multiple: bool): (v: FieldValue)
    ensures multiple ==> v == FileList(files)
    ensures !multiple && |files| > 0 ==> v == OneFile(files[0])
    ensures !multiple && files == [] ==> v == NoFile
  {
    if multiple then FileList(files)
    else if |files| > 0 then OneFile(files[0])
    else NoFile
  }

  /** The input's `onChange`: every selection, even an empty one, goes through `handleFiles`, then to the field. */
  function InputChange(files: seq<File>, multiple: bool, maxFiles: Option<int>, maxSize: Option<int>, hasUpload: bool)
    : (r: (Handled, FieldValue))
    ensures r.0 == HandleFiles(files, maxFiles, maxSize, hasUpload)
    ensures r.1 == ChangeValue(files, multiple)
  {
    (HandleFiles(files, maxFiles, maxSize, hasUpload), ChangeValue(files, multiple))
  }

  datatype DragEvent = DragEnter | DragOver | DragLeave | OtherDrag   // any other drag event type

  /** The drop zone's highlight flag. */
  class DropZone {
    var dragActive: bool

    constructor ()
      ensures !dragActive
    {
      dragActive := false;
    }

    /** `handleDrag`: enter and over raise the flag, leave lowers it, anything else leaves it. */
    method HandleDrag(e: DragEvent)
      modifies this
      ensures e == DragEnter || e == DragOver ==> dragActive
      ensures e == DragLeave ==> !dragActive
      ensures e == OtherDrag ==> dragActive == old(dragActive)
    {
      if e == DragEnter || e == DragOver {
        dragActive := true;
      } else if e == DragLeave {
        dragActive := false;
      }
    }

    /** `handleDrop`: the flag always drops; a non-empty drop is handled like a selection. */
    method HandleDrop(files: seq<File>, maxFiles: Option<int>, maxSize: Option<int>, hasUpload: bool)
      returns (handled: Option<Handled>)
      modifies this
      ensures !dragActive
      ensures files == [] ==> handled == None
      ensures files != [] ==> handled == Some(HandleFiles(files, maxFiles, maxSize, hasUpload))
    {
      dragActive := false;
      if |files| > 0 {
        handled := Some(HandleFiles(files, maxFiles, maxSize, hasUpload));
      } else {
        handled := None;
      }
    }
  }

  // ---------------------------------------------------------------------------
  // Properties

  /** A file of exactly `maxSize` bytes passes the size check. */
  lemma ExactSizePasses(f: File, maxSize: int)
    requires f.size == maxSize
    ensures HandleFiles([f], None, Some(maxSize), true) == Uploaded([f])
  {
  }

  /** The count check comes first: a batch both too long and too large is rejected for its count. */
  lemma CountCheckFirst(files: seq<File>, maxFiles: int, maxSize: int)
    requires maxFiles != 0 && |files| > maxFiles
    requires maxSize != 0 && exists i :: 0 <= i < |files| && files[i].size > maxSize
    ensures HandleFiles(files, Some(maxFiles), Some(maxSize), true) == TooManyFiles
  {
  }

  /** A limit of 0 is no limit: it behaves as if unset. */
  lemma ZeroLimitIsNoLimit(files: seq<File>, hasUpload: bool)
    ensures HandleFiles(files, Some(0), Some(0), hasUpload) == HandleFiles(files, None, None, hasUpload)
    ensures HandleFiles(files, Some(0), Some(0), true) == Uploaded(files)
  {
  }

  /** Files reach the upload callback, unchanged and in order, exactly when both checks pass. */
  lemma UploadIffChecksPass(files: seq<File>, maxFiles: Option<int>, maxSize: Option<int>)
    ensures HandleFiles(files, maxFiles, maxSize, true) == Uploaded(files) <==>
      !(Truthy(maxFiles) && |files| > maxFiles.value) &&
      !(Truthy(maxSize) && exists i :: 0 <= i < |files| && files[i].size > maxSize.value)
  {
  }

  /** Dragging in and then dropping always ends with the highlight off, whatever was dropped. */
  method DragThenDrop(files: seq<File>) returns (during: bool, after: bool, handled: Option<Handled>)
    ensures during && !after
    ensures files != [] <==> handled.Some?
  {
    var zone := new DropZone();
    zone.HandleDrag(DragEnter);
    zone.HandleDrag(OtherDrag);
    during := zone.dragActive;
    handled := zone.HandleDrop(files, None, None, true);
    after := zone.dragActive;
  }

  /** Leaving the zone lowers the flag; hovering again raises it. */
  method LeaveAndReturn() returns (left: bool, back: bool)
    ensures !left && back
  {
    var zone := new DropZone();
    zone.HandleDrag(DragEnter);
    zone.HandleDrag(DragLeave);
    left := zone.dragActive;
    zone.HandleDrag(DragOver);
    back := zone.dragActive;
  }
}
