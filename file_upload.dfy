/** The upload widget: a size limit and a MIME allow-list per media kind, the first
    file of a drop or of the file input, and removing the chosen file. */
module FileUpload {
  import opened Seqs
  import Text

  datatype MediaKind = Image | Video

  datatype File = File(name: string, size: nat, mimeType: string)

  datatype Rejection = TooLarge | WrongType
  datatype Verdict = Accept(file: File) | Reject(reason: Rejection)

  /** The `accept` attribute, a comma-separated list. */
  function AcceptedTypes(kind: MediaKind): (r: string)
    ensures |r| > 6 && r[..6] == (if kind == Image then "image/" else "video/")
  {
    var r := match kind
      case Image => "image/jpeg,image/png,image/webp,image/jpg"
      case Video => "video/mp4,video/webm,video/mov";
    var prefix := if kind == Image then "image/" else "video/";
    assert forall i :: 0 <= i < 6 ==> r[i] == prefix[i];
    assert r[..6] == prefix;
    r
  }

  /** The size limit in bytes. */
  function MaxSize(kind: MediaKind): (r: nat)
    ensures r == (if kind == Image then 5 else 50) * 1024 * 1024
  {
    match kind
    case Image => 5 * 1024 * 1024
    case Video => 50 * 1024 * 1024
  }

  /** `acceptedTypes.split(',')`. */
  function ValidTypes(kind: MediaKind): seq<string> {
    Text.Split(AcceptedTypes(kind), ',')
  }

  /** The checks of `handleFileSelect`: size first, then the exact MIME type. */
  function Check(kind: MediaKind, f: File): (v: Verdict)
    ensures v.Accept? ==> v.file == f
    ensures v == Reject(TooLarge) <==> f.size > MaxSize(kind)
    ensures v == Accept(f) <==> f.size <= MaxSize(kind) && f.mimeType in ValidTypes(kind)
  {
    if f.size > MaxSize(kind) then Reject(TooLarge)
    else if f.mimeType !in ValidTypes(kind) then Reject(WrongType)
    else Accept(f)
  }

  const ImageTypes: seq<string> := ["image/jpeg", "image/png", "image/webp", "image/jpg"]
  const VideoTypes: seq<string> := ["video/mp4", "video/webm", "video/mov"]

  lemma ImageTypesJoin()
    ensures Text.Join(ImageTypes, ',') == AcceptedTypes(Image)
  {
    var parts := ImageTypes;
    assert parts[1..][1..][1..] == ["image/jpg"];
    assert Text.Join(parts[1..][1..], ',') == "image/webp" + [','] + "image/jpg";
    assert Text.Join(parts[1..], ',') == "image/png" + [','] + "image/webp,image/jpg";
  }

  lemma VideoTypesJoin()
    ensures Text.Join(VideoTypes, ',') == AcceptedTypes(Video)
  {
    var parts := VideoTypes;
    assert parts[1..][1..] == ["video/mov"];
    assert Text.Join(parts[1..], ',') == "video/webm" + [','] + "video/mov";
  }

  /** The image allow-list, entry by entry. */
  lemma ImageTypesListed()
    ensures ValidTypes(Image) == ImageTypes
  {
    ImageTypesJoin();
    assert ',' !in ImageTypes[0] && ',' !in ImageTypes[1] && ',' !in ImageTypes[2] && ',' !in ImageTypes[3];
    Text.SplitJoin(ImageTypes, ',');
  }

  /** The video allow-list, entry by entry. */
  lemma VideoTypesListed()
    ensures ValidTypes(Video) == VideoTypes
  {
    VideoTypesJoin();
    assert ',' !in VideoTypes[0] && ',' !in VideoTypes[1] && ',' !in VideoTypes[2];
    Text.SplitJoin(VideoTypes, ',');
  }

  /** A file is accepted exactly when it is within the limit (the limit itself included)
      and its type is one of the listed types, character for character. */
  lemma AcceptedExactly(f: File)
    ensures Check(Image, f) == Accept(f) <==>
      f.size <= 5 * 1024 * 1024
      && f.mimeType in ["image/jpeg", "image/png", "image/webp", "image/jpg"]
    ensures Check(Video, f) == Accept(f) <==>
      f.size <= 50 * 1024 * 1024 && f.mimeType in ["video/mp4", "video/webm", "video/mov"]
  {
    ImageTypesListed();
    VideoTypesListed();
  }

  /** The size check comes first: an oversized file is refused for its size whatever its type. */
  lemma OversizedFailsOnSize(kind: MediaKind, f: File)
    requires f.size > MaxSize(kind) && f.mimeType !in ValidTypes(kind)
    ensures Check(kind, f) == Reject(TooLarge)
  {
  }

  /** `Array.from(files)[0]`, when there is one. */
  function FirstFile(files: seq<File>): (r: Option<File>)
    ensures r.Some? <==> |files| > 0
    ensures r.Some? ==> r.value == files[0]
  {
    if |files| > 0 then Some(files[0]) else None
  }

  /** The widget's state. `selections` records the calls made to `onFileSelect`, in
      order; `input` is the value of the mounted file input, `None` while the ref is null. */
  class Uploader {
    const kind: MediaKind
    var preview: Option<string>
    var isDragging: bool
    var input: Option<string>
    var selections: seq<Option<File>>

    constructor (kind: MediaKind)
      ensures this.kind == kind && preview == None && !isDragging
      ensures input == None && selections == []
    {
      this.kind := kind;
      preview := None;
      isDragging := false;
      input := None;
      selections := [];
    }

    /** `handleFileSelect`: an accepted file is handed to `onFileSelect` unchanged, once;
        a refused one causes no call. The preview arrives later, see `PreviewLoaded`. */
    method HandleFileSelect(f: File) returns (v: Verdict)
      modifies this`selections
      ensures v == Check(kind, f)
      ensures selections == old(selections) + (if v.Accept? then [Some(f)] else [])
    {
      if f.size > MaxSize(kind) {
        return Reject(TooLarge);
      }
      var validTypes := Text.Split(AcceptedTypes(kind), ',');
      if f.mimeType !in validTypes {
        return Reject(WrongType);
      }
      selections := selections + [Some(f)];
      v := Accept(f);
    }

    /** `handleDrop`: stop dragging, then consider only the first dropped file. */
    method HandleDrop(files: seq<File>) returns (v: Option<Verdict>)
      modifies this`selections, this`isDragging
      ensures !isDragging
      ensures v.Some? <==> |files| > 0
      ensures v.Some? ==> v.value == Check(kind, files[0])
      ensures selections == old(selections) +
        (if |files| > 0 && Check(kind, files[0]).Accept? then [Some(files[0])] else [])
    {
      isDragging := false;
      v := None;
      if |files| > 0 {
        var verdict := HandleFileSelect(files[0]);
        v := Some(verdict);
      }
    }

    /** `handleFileInput`: the input's file list may be null or empty. */
    method HandleFileInput(files: Option<seq<File>>) returns (v: Option<Verdict>)
      modifies this`selections
      ensures v.Some? <==> files.Some? && |files.value| > 0
      ensures v.Some? ==> v.value == Check(kind, files.value[0])
      ensures selections == old(selections) +
        (if v.Some? && v.value.Accept? then [Some(files.value[0])] else [])
    {
      v := None;
      if files.Some? && |files.value| > 0 {
        var verdict := HandleFileSelect(files.value[0]);
        v := Some(verdict);
      }
    }

    /** `removeFile`: report `null`, clear the preview and the mounted input. The widget
        renders the file input only while nothing is chosen and the remove button only
        while something is, so the ref is null whenever the button is pressed and the
        `Some` branch stands only for the guard of the source. No method of the model
        mounts the input. */
    method RemoveFile()
      modifies this`selections, this`preview, this`input
      ensures selections == old(selections) + [None]
      ensures preview == None
      ensures input == if old(input).Some? then Some("") else None
    {
      selections := selections + [None];
      preview := None;
      if input.Some? {
        input := Some("");
      }
    }

    method DragOver()
      modifies this`isDragging
      ensures isDragging
    {
      isDragging := true;
    }

    method DragLeave()
      modifies this`isDragging
      ensures !isDragging
    {
      isDragging := false;
    }

    /** The `FileReader` finished reading an accepted file. */
    method PreviewLoaded(dataUrl: string)
      modifies this`preview
      ensures preview == Some(dataUrl)
    {
      preview := Some(dataUrl);
    }
  }
}
