/** The `/api/whatsapp/:name/:message` route of app.js, as written: it calls
    `generateImageWithText(name, profile, message)` against the two-parameter
    export, so the rendered bubble holds the `profile` query value and the
    `message` path parameter only reaches the JSON reply. */
module AppRoute {
  import opened Wrappers
  import opened WhatsappText
  import opened WhatsappLayout
  import opened Whatsapp

  /** `path.split("/").pop()`: the longest suffix of `path` without a `/`. */
  function LastSegment(path: string): (segment: string)
    ensures '/' !in segment
    ensures |segment| <= |path| && path[|path| - |segment|..] == segment
    ensures |segment| < |path| ==> path[|path| - |segment| - 1] == '/'
  {
    if |path| == 0 then ""
    else if path[|path| - 1] == '/' then ""
    else
      var init := path[..|path| - 1];
      var segment := LastSegment(init);
      assert path[|path| - |segment| - 1..] == init[|init| - |segment|..] + [path[|path| - 1]];
      segment + [path[|path| - 1]]
  }

  /** The segment after a directory prefix ending in `/` is the file name. */
  lemma {:induction false} LastSegmentAfterSlash(dir: string, name: string)
    requires |dir| > 0 && dir[|dir| - 1] == '/'
    requires '/' !in name
    ensures LastSegment(dir + name) == name
    decreases |name|
  {
    if |name| == 0 {
      assert dir + name == dir;
    } else {
      var init := name[..|name| - 1];
      assert (dir + name)[..|dir + name| - 1] == dir + init;
      LastSegmentAfterSlash(dir, init);
      assert name == init + [name[|name| - 1]];
    }
  }

  /** `${protocol}://${host}/images/${imageFile}` where `imageFile` is the last
      segment of the returned path. */
  function ImageUrl(protocol: string, host: string, imagePath: string): string {
    protocol + "://" + host + "/images/" + LastSegment(imagePath)
  }

  /** A generated file name holds no `/`. */
  lemma FilenameHasNoSlash(timestamp: nat)
    ensures '/' !in ImageFilename(timestamp)
  {
  }

  /** For a path returned by `generateImageWithText`, `imageFile` is the file
      name `image-<digits>.png`, and the URL under `/images/` names that file,
      which the static route serves from `Generated`. */
  lemma ImageUrlOfGenerated(protocol: string, host: string, timestamp: nat)
    ensures LastSegment(ImagePath(timestamp)) == ImageFilename(timestamp)
    ensures ImageUrl(protocol, host, ImagePath(timestamp))
         == protocol + "://" + host + "/images/" + ImageFilename(timestamp)
    ensures LastSegment(ImageUrl(protocol, host, ImagePath(timestamp))) == ImageFilename(timestamp)
  {
    FilenameHasNoSlash(timestamp);
    LastSegmentAfterSlash(GeneratedDir, ImageFilename(timestamp));
    LastSegmentAfterSlash(protocol + "://" + host + "/images/", ImageFilename(timestamp));
  }

  /** The route's reply: the JSON body, or status 500 with the error. */
  datatype Response =
    | Json(username: string, message: string, image: string)
    | ServerError(status: nat, error: RenderError)

  /** The route handler. `profile` is the optional query value; the request's
      protocol, host and the clock readings are passed in. */
  method HandleWhatsapp(name: string, message: string, profile: Option<string>,
                        protocol: string, host: string,
                        hour: nat, minute: nat, timestamp: nat)
    returns (response: Response, rendered: Option<Mockup>)
    ensures profile.None? ==> response == ServerError(500, MessageUndefined) && rendered.None?
    ensures profile.Some? ==>
      && response == Json(name, message,
           protocol + "://" + host + "/images/" + ImageFilename(timestamp))
      && rendered.Some?
      && Concat(Texts(rendered.value.chat.lines)) == profile.value
      && rendered.value.headerName == HeaderName(Some(name))
  {
    var r := GenerateImageWithText(Some(name), profile, hour, minute, timestamp);
    match r
    case Failure(e) =>
      response, rendered := ServerError(500, e), None;
    case Success(mockup) =>
      var imagePath := mockup.imagePath;
      var imageUrl := ImageUrl(protocol, host, imagePath);
      ImageUrlOfGenerated(protocol, host, timestamp);
      response, rendered := Json(name, message, imageUrl), Some(mockup);
  }
}
