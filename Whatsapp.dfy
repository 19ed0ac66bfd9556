/** The request-level part of Generate/Whatsapp.js: the header name fallback,
    the output file name and path, and `generateImageWithText`, which draws the
    sections in order and returns the path of the written file. */
module Whatsapp {
  import opened Wrappers
  import opened Decimal
  import opened WhatsappText
  import opened WhatsappLayout
  import opened WhatsappStatusBar

  const DefaultUsername := "LingoUser"
  const GeneratedDir := "Generated/"
  const FilePrefix := "image-"
  const FileSuffix := ".png"

  /** `username || DEFAULT_USERNAME`: a missing (`None`) or empty username falls
      back to the default; any other username is shown unchanged. The header
      never shows an empty name. */
  function HeaderName(username: Option<string>): (shown: string)
    ensures username == None || username == Some("") ==> shown == DefaultUsername
    ensures username.Some? && username.value != "" ==> shown == username.value
    ensures shown != ""
  {
    match username
    case Some(name) => if name != "" then name else DefaultUsername
    case None => DefaultUsername
  }

  /** `image-${timestamp}.png` for a `Date.now()` reading. */
  function ImageFilename(timestamp: nat): string {
    FilePrefix + ToDecimal(timestamp) + FileSuffix
  }

  /** The timestamp a generated file name carries, if it has the generated
      form: `image-`, decimal digits, `.png`. */
  function ParseImageFilename(name: string): Option<nat> {
    if |name| < |FilePrefix| + |FileSuffix| then None
    else if name[..|FilePrefix|] != FilePrefix || name[|name| - |FileSuffix|..] != FileSuffix then None
    else
      var digits := name[|FilePrefix|..|name| - |FileSuffix|];
      if IsDigits(digits) then Some(ParseDigits(digits)) else None
  }

  /** The file name names its timestamp: parsing it gives the timestamp back. */
  lemma {:induction false} FilenameRoundTrip(timestamp: nat)
    ensures ParseImageFilename(ImageFilename(timestamp)) == Some(timestamp)
  {
    var d := ToDecimal(timestamp);
    var name := ImageFilename(timestamp);
    assert name[..|FilePrefix|] == FilePrefix;
    assert name[|name| - |FileSuffix|..] == FileSuffix;
    assert name[|FilePrefix|..|name| - |FileSuffix|] == d;
    ParseDecimal(timestamp);
  }

  /** Files generated at different milliseconds have different names. */
  lemma FilenamesUnique(t1: nat, t2: nat)
    requires t1 != t2
    ensures ImageFilename(t1) != ImageFilename(t2)
  {
    FilenameRoundTrip(t1);
    FilenameRoundTrip(t2);
  }

  /** `Generated/${filename}`: the path lies in the `Generated` directory, the
      rest is exactly `image-<decimal timestamp>.png`, and it reads back as the
      timestamp. */
  function ImagePath(timestamp: nat): (path: string)
    ensures |path| > |GeneratedDir| && path[..|GeneratedDir|] == GeneratedDir
    ensures path[|GeneratedDir|..] == ImageFilename(timestamp)
    ensures ParseImageFilename(path[|GeneratedDir|..]) == Some(timestamp)
  {
    var filename := ImageFilename(timestamp);
    FilenameRoundTrip(timestamp);
    assert (GeneratedDir + filename)[|GeneratedDir|..] == filename;
    GeneratedDir + filename
  }

  /** The TypeError thrown when the message is `undefined` and `wrapText`
      reads its `length`. */
  datatype RenderError = MessageUndefined

  /** What one render computes, in drawing order of its sections: the chat
      area, the status bar's time, the header's name, and the returned path. */
  datatype Mockup = Mockup(chat: ChatArea, statusTime: string, headerName: string, imagePath: string)

  /** `generateImageWithText(username, message)`, with the status-bar clock
      (`hour`, `minute`) and the later `Date.now()` reading (`timestamp`)
      passed in. The message text is what the bubble holds, line by line; the
      name is the header fallback of the username. */
  method GenerateImageWithText(username: Option<string>, message: Option<string>,
                               hour: nat, minute: nat, timestamp: nat)
    returns (r: Result<Mockup, RenderError>)
    ensures message.None? <==> r.Failure?
    ensures r.Success? ==>
      var m := r.value;
      && Texts(m.chat.lines) == Chunks(message.value, MaxChars)
      && Concat(Texts(m.chat.lines)) == message.value
      && m.chat.bubbleHeight == BubbleHeight(LineCount(|message.value|, MaxChars))
      && m.statusTime == ClockText(Face(hour, minute))
      && (hour < 24 && minute < 60 ==> ParseClock(m.statusTime) == Some((hour, minute)))
      && m.headerName == HeaderName(username)
      && m.imagePath == ImagePath(timestamp)
  {
    if message.None? {
      return Failure(MessageUndefined);
    }
    var chat := DrawChatArea(message.value);
    var time := FormatClock(hour, minute);
    var name := HeaderName(username);
    r := Success(Mockup(chat, time, name, ImagePath(timestamp)));
  }
}
