/** The portal client's message input (client/src/components/messages/MessageInput.js): a
    text, at most one chosen file with its preview, and a submit that sends either a text
    message or a media message. Reading an image into a data URL happens at once here. */
module UploadInput {
  import opened Common

  /** A chosen file: its name, size in bytes and MIME type. */
  datatype File = File(name: string, size: nat, mimetype: string)

  /** What the preview shows: the image read as a data URL, or the file's name. */
  datatype Preview = ImageData(file: File) | FileName(name: string)

  /** `onSendMessage(content)` or `onSendMessage(content, 'media', file)`. */
  datatype SendCall = TextMessage(content: string) | MediaMessage(content: string, file: File)

  /** The largest file accepted, 10 MB. */
  const MaxUploadSize: nat := 10 * 1024 * 1024

  /** What `handleSubmit` sends: nothing for a blank text without a file; with a file, a
      media message carrying the trimmed text as caption; otherwise the trimmed text. */
  function SubmitCall(message: string, file: Option<File>): (r: Option<SendCall>)
    ensures r.None? <==> Trim(message) == [] && file.None?
    ensures file.Some? ==> r == Some(MediaMessage(Trim(message), file.value))
    ensures file.None? && r.Some? ==> r.value == TextMessage(Trim(message))
  {
    if Trim(message) == [] && file.None? then None
    else if file.Some? then Some(MediaMessage(Trim(message), file.value))
    else Some(TextMessage(Trim(message)))
  }

  /** The preview of an accepted file: the image itself for an `image/` type, else the name. */
  function PreviewOf(f: File): (p: Preview)
    ensures StartsWith(f.mimetype, "image/") ==> p == ImageData(f)
    ensures !StartsWith(f.mimetype, "image/") ==> p == FileName(f.name)
  {
    if StartsWith(f.mimetype, "image/") then ImageData(f) else FileName(f.name)
  }

  class Input {
    var message: string
    var preview: Option<Preview>
    var file: Option<File>
    var calls: seq<SendCall>
    /** How many "File is too large" alerts were shown. */
    var alerts: nat

    /** A file is held exactly when a preview is shown, and it is never over the size limit. */
    ghost predicate Valid()
      reads this
    {
      (file.None? <==> preview.None?)
      && (file.Some? ==> file.value.size <= MaxUploadSize && preview == Some(PreviewOf(file.value)))
    }

    constructor ()
      ensures Valid()
      ensures message == "" && preview.None? && file.None? && calls == [] && alerts == 0
    {
      message := "";
      preview := None;
      file := None;
      calls := [];
      alerts := 0;
    }

    /** `handleInputChange` */
    method Change(value: string)
      modifies this`message
      ensures message == value
    {
      message := value;
    }

    /** `handleSubmit`: sends what `SubmitCall` says, then clears the text, the preview and
        the file; with nothing to send, changes nothing. */
    method Submit()
      requires Valid()
      modifies this`message, this`preview, this`file, this`calls
      ensures Valid()
      ensures var c := SubmitCall(old(message), old(file));
        (c.None? ==> message == old(message) && file == old(file) && preview == old(preview) && calls == old(calls))
        && (c.Some? ==> message == "" && file.None? && preview.None? && calls == old(calls) + [c.value])
    {
      var c := SubmitCall(message, file);
      if c.None? {
        return;
      }
      calls := calls + [c.value];
      message := "";
      preview := None;
      file := None;
    }

    /** `handleKeyPress`: Enter without Shift submits. */
    method KeyPress(key: string, shift: bool)
      requires Valid()
      modifies this`message, this`preview, this`file, this`calls
      ensures Valid()
      ensures !(key == "Enter" && !shift) || SubmitCall(old(message), old(file)).None? ==>
        message == old(message) && file == old(file) && preview == old(preview) && calls == old(calls)
      ensures key == "Enter" && !shift && SubmitCall(old(message), old(file)).Some? ==>
        message == "" && file.None? && preview.None?
        && calls == old(calls) + [SubmitCall(old(message), old(file)).value]
    {
      if key == "Enter" && !shift {
        Submit();
      }
    }

    /** `handleFileSelect`: no file changes nothing; a file over 10 MB is refused with an
        alert and changes nothing else; otherwise it replaces the chosen file and preview. */
    method FileSelect(f: Option<File>)
      requires Valid()
      modifies this`preview, this`file, this`alerts
      ensures Valid()
      ensures f.None? ==> file == old(file) && preview == old(preview) && alerts == old(alerts)
      ensures f.Some? && f.value.size > MaxUploadSize ==>
        file == old(file) && preview == old(preview) && alerts == old(alerts) + 1
      ensures f.Some? && f.value.size <= MaxUploadSize ==>
        file == f && preview == Some(PreviewOf(f.value)) && alerts == old(alerts)
    {
      if f.None? {
        return;
      }
      if f.value.size > MaxUploadSize {
        alerts := alerts + 1;
        return;
      }
      file := f;
      preview := Some(PreviewOf(f.value));
    }

    /** `cancelUpload` */
    method CancelUpload()
      requires Valid()
      modifies this`preview, this`file
      ensures Valid()
      ensures preview.None? && file.None?
    {
      preview := None;
      file := None;
    }
  }

  /** Choosing a file and submitting sends it as a media message whatever the text, unless
      it is too large, in which case a blank text sends nothing. */
  method ChooseThenSubmit(text: string, f: File) returns (calls: seq<SendCall>)
    ensures f.size <= MaxUploadSize ==> calls == [MediaMessage(Trim(text), f)]
    ensures f.size > MaxUploadSize && Trim(text) == [] ==> calls == []
    ensures f.size > MaxUploadSize && Trim(text) != [] ==> calls == [TextMessage(Trim(text))]
  {
    var input := new Input();
    input.Change(text);
    input.FileSelect(Some(f));
    input.Submit();
    calls := input.calls;
  }
}
