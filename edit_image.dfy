/** The image-edit page (`Components/Pages/EditImage`): an uploaded file is
    checked for size and type and read into a buffer; an edit sends the
    file's bytes and the prompt to the image model and keeps the image that
    comes back. */
module EditImage {
  import opened Wrappers
  import opened Text
  import opened Cancellation

  /** The largest file accepted, 50 MiB. */
  const MaxFileSize: nat := 50 * 1024 * 1024

  const TooLargeMessage: string := "File size must be less than 50 MB."
  const NotImageMessage: string := "Please select a valid image file (PNG or JPG)."
  const UploadErrorPrefix: string := "Error uploading file: "
  const ImageTypePrefix: string := "image/"
  const EditModel: string := "gpt-image-1"

  /** An `IBrowserFile`: its name, its size in bytes and its content type. */
  datatype BrowserFile = BrowserFile(name: string, size: nat, contentType: string)

  /** What one `ReadAsync(buffer, offset, count)` brings: bytes, of which
      the first `count` at most are taken, or an exception. */
  datatype ReadStep = Chunk(bytes: seq<bv8>) | ReadFailed(fault: Fault)

  /** The bytes a read loop obtained and the exception that ended it, if
      any. */
  datatype Fill = Fill(bytes: seq<bv8>, fault: Option<Fault>)

  function Min(a: nat, b: nat): nat {
    if a <= b then a else b
  }

  /** The read loop from read number `k` on, into a buffer of `size` bytes
      of which `got` are filled: it stops when the buffer is full, when a
      read brings nothing, or when a read throws. */
  function FillFrom(stream: nat -> ReadStep, size: nat, k: nat, got: seq<bv8>): (f: Fill)
    requires |got| <= size
    ensures got <= f.bytes && |f.bytes| <= size
    decreases size - |got|
  {
    if |got| == size then Fill(got, None)
    else
      match stream(k)
      case ReadFailed(fault) => Fill(got, Some(fault))
      case Chunk(bytes) =>
        var n := Min(|bytes|, size - |got|);
        if n == 0 then Fill(got, None) else FillFrom(stream, size, k + 1, got + bytes[..n])
  }

  /** The whole read loop. */
  function ReadAll(stream: nat -> ReadStep, size: nat): Fill {
    FillFrom(stream, size, 0, [])
  }

  /** A loop that meets no exception stops short of a full buffer only
      after a read that brought nothing. */
  lemma {:induction false} FillStopsAtEmptyRead(stream: nat -> ReadStep, size: nat, k: nat, got: seq<bv8>)
    requires |got| <= size
    ensures var f := FillFrom(stream, size, k, got);
      f.fault.None? && |f.bytes| < size ==> exists j :: k <= j && stream(j).Chunk? && |stream(j).bytes| == 0
    decreases size - |got|
  {
    if |got| < size {
      match stream(k)
      case ReadFailed(fault) =>
      case Chunk(bytes) =>
        var n := Min(|bytes|, size - |got|);
        if n == 0 {
          assert stream(k).Chunk? && |stream(k).bytes| == 0;
        } else {
          FillStopsAtEmptyRead(stream, size, k + 1, got + bytes[..n]);
        }
    }
  }

  /** Reads that always bring something fill the whole buffer. */
  lemma {:induction false} FillCompletes(stream: nat -> ReadStep, size: nat, k: nat, got: seq<bv8>)
    requires |got| <= size
    requires forall j :: k <= j ==> stream(j).Chunk? && |stream(j).bytes| > 0
    ensures FillFrom(stream, size, k, got).fault.None?
    ensures |FillFrom(stream, size, k, got).bytes| == size
    decreases size - |got|
  {
    if |got| < size {
      var bytes := stream(k).bytes;
      FillCompletes(stream, size, k + 1, got + bytes[..Min(|bytes|, size - |got|)]);
    }
  }

  /** The buffer after the loop: the bytes read, then the zeros it was
      created with. */
  function Buffer(f: Fill, size: nat): (b: seq<bv8>)
    requires |f.bytes| <= size
    ensures |b| == size && b[..|f.bytes|] == f.bytes
    ensures forall i :: |f.bytes| <= i < size ==> b[i] == 0
  {
    f.bytes + seq(size - |f.bytes|, i => 0)
  }

  /** What the edit request carries: the model, the image's bytes, the
      file's name and the prompt. */
  datatype EditRequest = EditRequest(model: string, image: seq<bv8>, fileName: string, prompt: string)

  /** What the edit call brings: a result, with or without image bytes, or
      an exception. */
  datatype EditOutcome = Edited(image: Option<seq<bv8>>) | EditFailed(fault: Fault)

  /** A snapshot of the page's fields. */
  datatype EditView = EditView(
    warning: string, loading: bool, prompt: string,
    uploaded: Option<BrowserFile>, original: Option<string>,
    editedUrl: Option<string>, editedData: Option<seq<bv8>>,
    token: TokenView)

  /** `"data:{type};base64,{base64}"`. */
  function DataUrl(contentType: string, base64: string): string {
    "data:" + contentType + ";base64," + base64
  }

  /** `OnFileSelected` for the chosen file, the reads its stream serves and
      `Convert.ToBase64String`. */
  function Select(v: EditView, file: Option<BrowserFile>, stream: nat -> ReadStep, base64: seq<bv8> -> string): EditView {
    var w := v.(warning := "", uploaded := file);
    match file
    case None => w
    case Some(f) =>
      if f.size > MaxFileSize then w.(warning := TooLargeMessage, uploaded := None)
      else if !StartsWith(f.contentType, ImageTypePrefix) then w.(warning := NotImageMessage, uploaded := None)
      else
        var fill := ReadAll(stream, f.size);
        if fill.fault.Some? then w.(warning := UploadErrorPrefix + FaultMessage(fill.fault.value), uploaded := None)
        else w.(original := Some(DataUrl(f.contentType, base64(Buffer(fill, f.size)))), editedUrl := None, editedData := None)
  }

  /** A file is kept only when it is at most 50 MiB, of an image type and
      read without an exception; the size is checked first; a kept file
      clears the previous edit result and shows its own bytes. */
  lemma SelectOutcomes(v: EditView, f: BrowserFile, stream: nat -> ReadStep, base64: seq<bv8> -> string)
    ensures var w := Select(v, Some(f), stream, base64);
      && (f.size > MaxFileSize ==> w.warning == TooLargeMessage && w.uploaded.None?)
      && (f.size <= MaxFileSize && !(ImageTypePrefix <= f.contentType) ==>
            w.warning == NotImageMessage && w.uploaded.None?)
      && (w.uploaded.Some? <==>
            f.size <= MaxFileSize && ImageTypePrefix <= f.contentType && ReadAll(stream, f.size).fault.None?)
      && (w.uploaded.Some? ==>
            w.uploaded == Some(f) && w.warning == "" && w.editedUrl.None? && w.editedData.None?
            && w.original == Some(DataUrl(f.contentType, base64(Buffer(ReadAll(stream, f.size), f.size)))))
      && w.prompt == v.prompt && w.loading == v.loading && w.token == v.token
  {
  }

  /** `AbortEdit`: the guarded `Cancel()`; what it throws becomes the
      warning. */
  function Abort(v: EditView): EditView {
    var (token, error) := CancelField(v.token);
    v.(token := token, warning := error.GetOr(v.warning))
  }

  /** The handlers of `RunEdit`: a `TaskCanceledException` with the token
      cancelled ends quietly, any other exception shows its message. */
  function Handle(v: EditView, fault: Fault): EditView {
    if fault.Canceled? && Cancelled(v.token) then v.(loading := false)
    else v.(warning := FaultMessage(fault), loading := false)
  }

  /** `RunEdit`, for the reads the file's new stream serves, whether the
      user presses Abort while it runs, the edit call and
      `Convert.ToBase64String`. */
  function Edit(v: EditView, stream: nat -> ReadStep, abortPressed: bool,
                edit: EditRequest -> EditOutcome, base64: seq<bv8> -> string): EditView
  {
    if v.uploaded.None? || IsBlank(v.prompt) then v
    else
      var file := v.uploaded.value;
      var started := v.(loading := true, warning := "", token := Source(false, false));
      var fill := ReadAll(stream, file.size);
      var q := if abortPressed then Abort(started) else started;
      if fill.fault.Some? then Handle(q, fill.fault.value)
      else
        match edit(EditRequest(EditModel, Buffer(fill, file.size), file.name, v.prompt))
        case Edited(Some(image)) =>
          q.(editedData := Some(image), editedUrl := Some(DataUrl("image/png", base64(image))), loading := false)
        case Edited(None) => q.(loading := false)
        case EditFailed(fault) => Handle(q, fault)
  }

  /** Without a file or with a blank prompt an edit does nothing; otherwise
      it ends with `loading` false; an exception from the read or from the
      edit call shows its message unless it is a cancellation after Abort,
      which is quiet; and only a returned image changes the edit result,
      which then holds that image. */
  lemma EditOutcomes(v: EditView, stream: nat -> ReadStep, abortPressed: bool,
                     edit: EditRequest -> EditOutcome, base64: seq<bv8> -> string)
    ensures var w := Edit(v, stream, abortPressed, edit, base64);
      && (v.uploaded.None? || IsBlank(v.prompt) ==> w == v)
      && (v.uploaded.Some? && !IsBlank(v.prompt) ==>
            var file := v.uploaded.value;
            var fill := ReadAll(stream, file.size);
            var outcome := edit(EditRequest(EditModel, Buffer(fill, file.size), file.name, v.prompt));
            && !w.loading && w.uploaded == v.uploaded && w.original == v.original
            && (fill.fault == Some(Canceled) && abortPressed ==> w.warning == "")
            && (fill.fault == Some(Canceled) && !abortPressed ==> w.warning == CanceledMessage)
            && (fill.fault.Some? && fill.fault.value.Raised? ==>
                  w.warning == fill.fault.value.message && w.editedData == v.editedData)
            && (fill.fault.None? && outcome == EditFailed(Canceled) && abortPressed ==>
                  w.warning == "" && w.editedData == v.editedData)
            && (fill.fault.None? && outcome == EditFailed(Canceled) && !abortPressed ==>
                  w.warning == CanceledMessage)
            && (fill.fault.None? && outcome.EditFailed? && outcome.fault.Raised? ==>
                  w.warning == outcome.fault.message && w.editedData == v.editedData)
            && (fill.fault.None? && outcome.Edited? && outcome.image.Some? ==>
                  w.warning == "" && w.editedData == outcome.image
                  && w.editedUrl == Some(DataUrl("image/png", base64(outcome.image.value))))
            && (!(fill.fault.None? && outcome.Edited? && outcome.image.Some?) ==>
                  w.editedData == v.editedData && w.editedUrl == v.editedUrl)
            && (w.editedData != v.editedData ==> w.editedData.Some? && w.warning == ""))
  {
  }

  class EditImagePage {
    var cts: TokenSource?
    var warning: string
    var loading: bool
    var prompt: string
    var uploaded: Option<BrowserFile>
    var original: Option<string>
    var editedUrl: Option<string>
    var editedData: Option<seq<bv8>>

    function View(): EditView
      reads this, cts
    {
      EditView(warning, loading, prompt, uploaded, original, editedUrl, editedData, ViewOf(cts))
    }

    constructor ()
      ensures View() == EditView("", false, "", None, None, None, None, NoSource)
    {
      cts, warning, loading, prompt := null, "", false, "";
      uploaded, original, editedUrl, editedData := None, None, None, None;
    }

    /** The read loop: each read writes only into the free part of the
        buffer, after what is already there, and the loop stops when the
        buffer is full, a read brings nothing or a read throws. */
    static method ReadInto(buffer: array<bv8>, stream: nat -> ReadStep) returns (total: nat, fault: Option<Fault>)
      modifies buffer
      ensures var f := ReadAll(stream, buffer.Length);
        total == |f.bytes| && fault == f.fault && buffer[..total] == f.bytes
      ensures total <= buffer.Length && buffer[total..] == old(buffer[total..])
    {
      total, fault := 0, None;
      var k := 0;
      while total < buffer.Length
        invariant total <= buffer.Length
        invariant FillFrom(stream, buffer.Length, k, buffer[..total]) == ReadAll(stream, buffer.Length)
        invariant buffer[total..] == old(buffer[total..])
        decreases buffer.Length - total
      {
        match stream(k) {
          case ReadFailed(f) =>
            fault := Some(f);
            return;
          case Chunk(bytes) =>
            var read := Min(|bytes|, buffer.Length - total);
            if read == 0 {
              break;
            }
            CopyChunk(buffer, total, bytes, read);
            total := total + read;
            k := k + 1;
        }
      }
    }

    /** The first `read` bytes of a chunk are copied in at `at`; the rest
        of the buffer is left alone. */
    static method CopyChunk(buffer: array<bv8>, at: nat, bytes: seq<bv8>, read: nat)
      requires read <= |bytes| && at + read <= buffer.Length
      modifies buffer
      ensures buffer[..at + read] == old(buffer[..at]) + bytes[..read]
      ensures buffer[at + read..] == old(buffer[at + read..])
    {
      forall j | at <= j < at + read {
        buffer[j] := bytes[j - at];
      }
    }

    /** Reads the file into a new zero-filled buffer of its size. */
    static method ReadFile(size: nat, stream: nat -> ReadStep) returns (image: seq<bv8>, fault: Option<Fault>)
      ensures fault == ReadAll(stream, size).fault
      ensures fault.None? ==> image == Buffer(ReadAll(stream, size), size)
    {
      var buffer := new bv8[size](_ => 0);
      var total;
      total, fault := ReadInto(buffer, stream);
      image := buffer[..];
      assert image == buffer[..total] + buffer[total..];
    }

    /** `OnFileSelected`. */
    method OnFileSelected(file: Option<BrowserFile>, stream: nat -> ReadStep, base64: seq<bv8> -> string)
      modifies this
      ensures View() == Select(old(View()), file, stream, base64)
    {
      warning := "";
      uploaded := file;
      if file.Some? {
        var f := file.value;
        if f.size > MaxFileSize {
          warning := TooLargeMessage;
          uploaded := None;
          return;
        }
        if !StartsWith(f.contentType, ImageTypePrefix) {
          warning := NotImageMessage;
          uploaded := None;
          return;
        }
        var image, fault := ReadFile(f.size, stream);
        if fault.Some? {
          warning := UploadErrorPrefix + FaultMessage(fault.value);
          uploaded := None;
          return;
        }
        original := Some(DataUrl(f.contentType, base64(image)));
        editedUrl := None;
        editedData := None;
      }
    }

    method AbortEdit()
      modifies this, cts
      ensures cts == old(cts)
      ensures View() == Abort(old(View()))
    {
      if cts != null {
        var error := cts.Cancel();
        if error.Some? {
          warning := error.value;
        }
      }
    }

    /** The start of an edit: the previous source is disposed and a new one
        installed. */
    method StartEdit()
      modifies this, cts
      ensures old(cts) != null ==> old(cts).disposed
      ensures cts != null && fresh(cts)
      ensures View() == old(View()).(loading := true, warning := "", token := Source(false, false))
    {
      loading := true;
      warning := "";
      if cts != null {
        cts.Dispose();
      }
      cts := new TokenSource();
    }

    /** `RunEdit`. */
    method RunEdit(stream: nat -> ReadStep, abortPressed: bool,
                   edit: EditRequest -> EditOutcome, base64: seq<bv8> -> string)
      modifies this, cts
      ensures View() == Edit(old(View()), stream, abortPressed, edit, base64)
      ensures old(cts) != null && old(uploaded).Some? && !IsBlank(old(prompt)) ==> old(cts).disposed
    {
      if uploaded.None? || IsBlank(prompt) {
        return;
      }
      var file := uploaded.value;
      StartEdit();
      var image, fault := ReadFile(file.size, stream);
      if abortPressed {
        AbortEdit();
      }
      if fault.Some? {
        Fail(fault.value);
        return;
      }
      var outcome := edit(EditRequest(EditModel, image, file.name, prompt));
      match outcome {
        case Edited(result) =>
          if result.Some? {
            editedData := result;
            editedUrl := Some(DataUrl("image/png", base64(result.value)));
          }
          loading := false;
        case EditFailed(f) =>
          Fail(f);
      }
    }

    /** The exception handlers of `RunEdit`. */
    method Fail(fault: Fault)
      modifies this
      ensures View() == Handle(old(View()), fault)
    {
      if !(fault.Canceled? && cts != null && cts.cancelled) {
        warning := FaultMessage(fault);
      }
      loading := false;
    }
  }
}
