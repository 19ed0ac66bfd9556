# LingoLensAPI WhatsApp mockup: layout, formatting and cleanup model

LingoLensAPI renders a fake WhatsApp-style chat screenshot. It has a status bar
with a clock, a header with the contact name, one white message bubble and an
input bar. An Express route returns the image's URL, and a timer deletes old
images from the `Generated` directory. This project models the arithmetic and
string parts of that pipeline, which are exact, and proves properties of them:

- **Message chunking** (`WhatsappText`). `wrapText` and the first loop of
  `drawWrappedText` cut the message into pieces of `maxChars` characters with
  `substr`, ignoring word boundaries. Both loops are methods proved against a
  recursive reference definition `Chunks`. Lemmas then prove four things: the
  lines join back to the text, every line except the last is full, no line is
  empty, and the line count is ⌈length / maxChars⌉.
- **Bubble layout** (`WhatsappLayout`). `drawChatArea` sizes the bubble from
  `wrapText(message, 30)` and fills it through `drawWrappedText(..., 30, 20)`.
  The model proves three things: the bubble holds exactly the lines it was sized
  for, its height is 25 plus 20 per line, and every line lies vertically inside
  it. It
  also proves that the four section bands tile the 812-unit canvas.
- **Status-bar clock** (`WhatsappStatusBar`). This is the `h:mm AM/PM` string,
  with the hour and minute passed in. A parser reads the string back, and every
  valid time round-trips.
- **Request level** (`Whatsapp`). This covers the header name fallback to
  `LingoUser`, the file name `image-<millis>.png` and the returned path
  `Generated/image-<millis>.png`. The file name parses back to its timestamp,
  so distinct milliseconds give distinct names. `generateImageWithText` is a
  method that yields the chat area's layout, the clock string, the header name
  and the returned path.
- **Cleanup** (`AppCleanup`). The directory is a class holding a
  `map<string, int>` from file name to modification time in milliseconds.
  `cleanupOldImages` is a loop that deletes, in place, every entry older than
  30 000 ms.
- **Route** (`AppRoute`). `split("/").pop()` and the `/images/` URL are modelled
  as written. So is the call `generateImageWithText(name, profile, message)`
  against the two-parameter export: the bubble shows the `profile` query value,
  and `message` only reaches the JSON reply. When `profile` is absent, the
  render throws a TypeError and the route answers 500.

Clock readings (`new Date()`, `Date.now()`) and the request's protocol and host
are parameters. A character of the model is one Unicode scalar value, which for
text inside the Basic Multilingual Plane is the UTF-16 code unit that `length`
and `substr` count. All coordinates are logical units, before the ×3 scale.

Facts about the code that the model keeps:
- The code does not validate its inputs. An empty username shows `LingoUser`,
  and an empty message gives a bubble with no lines.
- The bubble height is `20·n + 25` with no separate minimum. 25, the height of
  an empty bubble, is the smallest value.
- This variant takes no profile image. The header always draws a red circle.
- The returned path is the literal `Generated/` + file name. It is not the
  absolute path that is written to disk.

## Model

| member | source | states |
|---|---|---|
| `Decimal.ToDecimal` | Generate/Whatsapp.js:348 | `${n}` of a non-negative integer below 10^21 (every millisecond timestamp, hour and minute) is one or more decimal digits, with no leading zero unless the number is 0, and is a single digit exactly when n < 10 |
| `Decimal.ParseDecimal` | Generate/Whatsapp.js:348 | reading the decimal digits back gives the number that was rendered |
| `Decimal.DecimalInjective` | Generate/Whatsapp.js:347-348 | different numbers have different decimal renderings |
| `WhatsappText.Substr` | Generate/Whatsapp.js:131 | `substr(i, n)` returns at most n characters |
| `WhatsappText.ConcatChunks` | Generate/Whatsapp.js:128-133 | joining the lines gives back exactly the text |
| `WhatsappText.ChunkLengths` | Generate/Whatsapp.js:130-131 | every line has 1 to maxChars characters, and every line but the last has exactly maxChars, so no line is empty |
| `WhatsappText.ChunkCount` | Generate/Whatsapp.js:130 | the line count is ⌈length / maxChars⌉: 0 for the empty text, 1 for a non-empty text of at most maxChars |
| `WhatsappText.ChunkAt` | Generate/Whatsapp.js:130-131 | line j starts at position `j·maxChars`, which lies inside the text, and is `text.substr(j·maxChars, maxChars)`, the piece the loop pushes at that index |
| `WhatsappText.ChunksStep` | Generate/Whatsapp.js:130-131 | one loop step: the piece at index i is the first line of the text from i, and the remaining lines are those of the text from i + maxChars |
| `WhatsappText.WrapText` | Generate/Whatsapp.js:128-134 | the loop's lines equal the reference chunking, join back to the text, and number ⌈length / maxChars⌉ |
| `WhatsappText.DrawWrappedText` | Generate/Whatsapp.js:114-125 | it draws exactly the reference lines, in order, line j at `(x, y + j·lineHeight)` |
| `WhatsappText.DrawLines` | Generate/Whatsapp.js:122-124 | the `forEach` draws every line once, in order, line j at `(x, y + j·lineHeight)` |
| `WhatsappLayout.SectionBands` | Generate/Whatsapp.js:35-37 | the status bar (0–44), header (44–100), chat area (100–762, lines 215-216) and input bar (762–812, line 274) are non-empty bands that tile the 812-unit canvas |
| `WhatsappLayout.BubbleHeight` | Generate/Whatsapp.js:229-234 | the height is at least the empty bubble's 25, plus exactly 20 per line |
| `WhatsappLayout.BubbleHeightIncreasing` | Generate/Whatsapp.js:234 | more lines give a strictly taller bubble |
| `WhatsappLayout.DrawChatArea` | Generate/Whatsapp.js:214-271 | the bubble at (15, 115) is sized for `wrapText(message, 30)` and holds exactly those lines (the same chunks, joining back to the message); line j starts at x = 25 and y = `bubbleY + 20 + 20·j`, vertically inside the bubble: below its top and ending by its bottom; the tail starts 15 above the bubble's bottom (strictly inside its height, line 240), its tip is 5 below the bubble (line 241), and the timestamp's bottom edge 10 above the bubble's bottom |
| `WhatsappLayout.BubbleFitsChatArea` | Generate/Whatsapp.js:215-234 | the bubble ends above the input bar exactly when the message has at most 930 characters (31 lines) |
| `WhatsappStatusBar.MinuteText` | Generate/Whatsapp.js:174 | the minute part is all digits, and for every minute below 100 it is exactly two digits and reads back as the minute |
| `WhatsappStatusBar.Face` | Generate/Whatsapp.js:169-173 | the shown hour is in 1..12 and congruent to the 24-hour hour modulo 12; PM holds exactly when hour ≥ 12 |
| `WhatsappStatusBar.ClockRoundTrip` | Generate/Whatsapp.js:168-174 | for hour < 24 and minute < 60, parsing the clock string gives back (hour, minute), so distinct times show distinct strings |
| `WhatsappStatusBar.FormatClock` | Generate/Whatsapp.js:168-174 | the step-by-step computation yields the string of the face of (hour, minute), and that string parses back to the time |
| `Whatsapp.HeaderName` | Generate/Whatsapp.js:205 | a missing or empty username shows `LingoUser` (line 31), any other username is shown unchanged, and the shown name is never empty |
| `Whatsapp.FilenameRoundTrip` | Generate/Whatsapp.js:347-348 | `image-<timestamp>.png` parses back to its timestamp |
| `Whatsapp.FilenamesUnique` | Generate/Whatsapp.js:347-348 | files generated at different milliseconds get different names |
| `Whatsapp.ImagePath` | Generate/Whatsapp.js:347-353 | the returned path is `Generated/` followed by exactly `image-<decimal timestamp>.png`, and that rest reads back as the timestamp |
| `Whatsapp.GenerateImageWithText` | Generate/Whatsapp.js:321-354 | an undefined message fails, and only then; otherwise the bubble holds the message's 30-character chunks and is sized for them, the status bar shows the clock string of (hour, minute), the header shows the name fallback, and the result is the `Generated/image-<millis>.png` path |
| `AppCleanup.Pruned` | app.js:15-26 | after cleanup at `now`, a file remains iff `now - mtime <= 30000`, and with its mtime unchanged |
| `AppCleanup.BoundaryAge` | app.js:21 | a file exactly 30 000 ms old is kept and one 30 001 ms old is deleted |
| `AppCleanup.PrunedIsSubTable` | app.js:17-24 | cleanup only deletes: the result is a sub-table of the input |
| `AppCleanup.PruneIdempotent` | app.js:15-26 | a second cleanup at the same `now` deletes nothing |
| `AppCleanup.PruneMonotone` | app.js:21 | a later `now` deletes every file an earlier one deletes |
| `AppCleanup.ImageDirectory.CleanupOldImages` | app.js:15-26 | the loop over the listing leaves the directory table equal to `Pruned(old table, now)` |
| `AppRoute.LastSegment` | app.js:44 | `split("/").pop()` is the longest `/`-free suffix of the path |
| `AppRoute.LastSegmentAfterSlash` | app.js:44 | after a prefix ending in `/`, the last segment is the `/`-free name that follows |
| `AppRoute.FilenameHasNoSlash` | Generate/Whatsapp.js:348 | a generated file name contains no `/` |
| `AppRoute.ImageUrlOfGenerated` | app.js:44-45 | for a generated path, `imageFile` is `image-<digits>.png` and the URL is `protocol://host/images/image-<digits>.png`, whose last segment is the written file's name |
| `AppRoute.HandleWhatsapp` | app.js:39-50 | with no `profile`, the reply is status 500 and nothing is rendered; otherwise the reply is `{username: name, message, image: protocol://host/images/image-<millis>.png}`, the bubble text joins back to `profile` (as called on line 43), and the header shows the name |

## Left out

- All canvas drawing calls and state (`fillRect`, `arc`, `quadraticCurveTo`, `fillText`, `measureText`, `scale`, styles): they belong to a foreign library. The model keeps only the coordinates it computes for the text lines, the bubble and the timestamp.
- `drawChatBackgroundPattern` (Generate/Whatsapp.js:74-111): decorative, and driven by `Math.random`.
- Floating-point geometry: the bubble width `375 * 0.7`, arcs, battery fill, icon fractions, and the x positions in `drawStatusBar` that depend on `measureText`.
- PNG encoding and the `sharp` palette re-compression: external libraries.
- Filesystem effects (`mkdirSync`, `writeFileSync`, `readdirSync`, `statSync`, `unlinkSync`) and `console.log`. The directory is an abstract map, and writing the new file into it is not modelled.
- The `setInterval` timer and its try/catch, Express routing and static serving, and `app.listen`: timer and HTTP plumbing.
- `toLocaleTimeString` and the bubble's timestamp text `DEFAULT_TIMESTAMP`. The text is locale formatting fixed once at module load; only its anchor position is modelled.
- The default parameter values of `drawWrappedText` (18) and `wrapText` (25): the only caller passes 30 to both.
- `drawInputBar` and the rest of `drawHeader`: constant decorations with no computed values other than the band they fill.
- JavaScript `undefined` beyond the absent `profile`. A repeated query key (an array value) is not modelled.
- AppRoute.HandleWhatsapp: the error reply's message text is the JavaScript engine's TypeError message, modelled only as the error's kind.
- Texts with characters outside the Basic Multilingual Plane: JavaScript counts such a character as two UTF-16 units and `substr` can split it at a 30-unit boundary, while a model `char` is a whole Unicode scalar value, so these texts are outside the model.
- The horizontal extent of the text lines: it depends on `measureText` and the 262.5-unit bubble width, so only the vertical placement of lines inside the bubble is proved.
- Decimal.ToDecimal: models `${n}` only as plain digits; JavaScript switches to exponent notation (`1e+21`) from 10^21 on, far above any `Date.now()` value (at most 8.64·10^15).
