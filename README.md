# yolo_service request core, in Dafny

yolo_service is a small HTTP front end to a darknet YOLO object detector. Its
own logic, all in `app.py`, has four parts. The rest is delegated to darknet,
PIL, urllib, flask and connexion.

- `detect` (app.py:20-28) rewrites the engine's `(label, confidence, bounds)`
  tuples in place, so that each confidence is a number instead of text.
- `get_image_type` (app.py:30-35) lower-cases the format name the image
  library reports. It accepts only `jpeg` and `png` and raises otherwise.
- `annotate` (app.py:37-61) draws three things for every detection: the box
  outline, a filled label background on the box's top edge and the white
  label text. The colour comes from the confidence. It then saves the image
  over its file.
- The four request handlers (app.py:63-133) run the same linear pipeline:
  1. create a scratch file with `mkstemp`;
  2. fill it from the URL or the upload;
  3. classify the image;
  4. rename the file to `name + '.' + type`;
  5. detect or annotate;
  6. unlink the file;
  7. answer.

  Any exception maps to `('HTTP error', code)` for an `HTTPError` and to
  `('An error occurred', 500)` for anything else.

The model is split into five modules:

- `Outcomes` (outcomes.dfy): the two kinds of fault, and `Result` and `Option`.
- `Detection` (detection.dfy):
  - The tuple datatype.
  - The specification function `Normalised`.
  - The in-place loop `Detect` over an `array`, proved against `Normalised`.
- `ImageFormat` (image_format.dfy): the gate `ImageType` and its exact
  characterisation.
- `Annotation` (annotation.dfy):
  - The geometry and colour functions, with Python's `int()` written out as
    truncation toward zero (`Trunc`).
  - The three draw commands of one detection (`Commands`) and of a list
    (`Drawing`).
  - A `Canvas` class that records the draw calls issued on it and what `save`
    wrote.
  - The imperative `Annotate` loop, proved against `Drawing`.
- `Handlers` (handlers.dfy):
  - A `World` value fixes how every foreign call of one request ends: each
    call returns or raises a given fault. It also carries the `float()` and
    `textsize` functions.
  - The reference function `Handle` gives, for each operation, the response,
    the file set afterwards, the steps attempted and the scratch file left
    behind, if any.
  - A `Host` class holds the set of existing paths and the log of attempted
    steps. Its methods `MakeTemp`, `Rename` and `Unlink` change the path set
    the way the operating system does.
  - The four handler methods are proved to leave the `Host` exactly as
    `Handle` says.

## Model

| member | source | states |
|---|---|---|
| `Detection.Detect` | app.py:25-28 | The in-place loop leaves the array holding the normalised engine list. An empty list stays as it was. |
| `Detection.NormalisedAt` | app.py:26-27 | The result has the engine list's length. Each tuple keeps its label and its bounds, and its confidence becomes `float()` of the old confidence. |
| `Detection.NormalisedIdempotent` | app.py:24-28 | Every confidence in the result is a number. Normalising the result again changes nothing. |
| `ImageFormat.ImageType` | app.py:32-35 | The gate returns only `jpeg` or `png`. Every refusal is the generic exception, never an `HTTPError`. |
| `ImageFormat.ImageTypeExactly` | app.py:32-34 | Accepted if and only if the format name equals `JPEG` or `PNG` up to letter case. The lower-cased name is returned. |
| `ImageFormat.ImageTypeStable` | app.py:32-35 | The gate accepts its own output unchanged. |
| `ImageFormat.ImageTypeExamples` | app.py:32-34 | `JPEG` and `PNG` pass as `jpeg` and `png`. `JPG`, `jpg`, `GIF` and `MPO` are refused. |
| `Annotation.Trunc` | app.py:47-54 | `int()` truncates toward zero: the result lies within 1 of `x`, on the side of 0. |
| `Annotation.TruncHalf` | app.py:51-54 | Truncating half of an integer equals integer halving toward zero, so the corners are exact. |
| `Annotation.BoxExact` | app.py:47-54 | Centre and size are truncated first. The corners are then `(2c - s)/2` and `(2c + s)/2`, halved toward zero, for each axis. |
| `Annotation.BoxContainsCentre` | app.py:47-54 | For non-negative width and height, the truncated centre lies inside the box on both axes. |
| `Annotation.BoxSpan` | app.py:51-54 | The box spans the truncated size on an axis. It spans one pixel less when the size is odd and the box straddles 0. |
| `Annotation.BoxExamples` | app.py:47-54 | A 200×150 box centred at (320, 240) spans (220, 165)–(420, 315). A 3×3 box centred at 0 spans only −1 to 1. |
| `Annotation.LabelBackground` | app.py:58-59 | The label background stands on the box's top edge and starts at its left edge. It is the text extent plus 4 in each direction. |
| `Annotation.TextMargins` | app.py:58-60 | The text drawn at the anchor keeps 2 pixels from every edge of its background. |
| `Annotation.ColourInRange` | app.py:56 | For a confidence in [0, 1]: red and green lie in [0, 255], blue is 0, and red + green is 254 or 255. |
| `Annotation.ColourMonotone` | app.py:56 | A higher confidence is never redder and never less green. |
| `Annotation.ColourExamples` | app.py:56 | 0 gives (255, 0, 0). 1 gives (0, 255, 0). 0.5 gives (191, 63, 0), because the channels truncate. |
| `Annotation.Commands` | app.py:56-60 | One detection issues exactly three calls. First the box outline: unfilled, width 3, in the confidence colour. Then the label background: filled and outlined in that same colour, standing on the box's top edge at its left corner, and the text extent plus 4 in size. Last the label text in white, 2 pixels inside every edge of the background. |
| `Annotation.DrawingLayout` | app.py:42-60 | A list of detections issues 3 calls per detection, in detection order. Calls `3k` to `3k+2` are those of detection `k`. |
| `Annotation.DrawingNormalised` | app.py:38-44 | Drawing the normalised list is the same as drawing the engine's list. |
| `Annotation.Canvas.Open` | app.py:39-40 | An opened image has nothing drawn and nothing saved. |
| `Annotation.Canvas.DrawRectangle` | app.py:57 | A rectangle call is appended to the drawing. The saved file is untouched. |
| `Annotation.Canvas.DrawText` | app.py:60 | A text call is appended to the drawing. The saved file is untouched. |
| `Annotation.Canvas.Save` | app.py:61 | The file now holds the drawing so far. |
| `Annotation.DrawDetection` | app.py:43-60 | One pass of the loop appends that detection's three calls. |
| `Annotation.Annotate` | app.py:37-61 | The engine list is normalised in place, then drawn in order. The image is saved holding exactly that drawing, even when there is nothing to draw. |
| `Handlers.RenamedFollowsPipeline` | app.py:72-74 | After the rename, the steps attempted are a prefix of engine, [draw, send,] unlink. A success attempted all of them. |
| `Handlers.AcquiredFollowsPipeline` | app.py:68-74 | After `mkstemp`, the steps attempted are a prefix of populate, classify, rename and the rest. A success attempted all of them. |
| `Handlers.HandleFollowsPipeline` | app.py:63-133 | Every handler attempts a prefix of its pipeline, so no step is repeated or retried. A success ran every step and left no scratch file behind. |
| `Handlers.EngineOnlyAfterGate` | app.py:69-72 | The rename and the engine are reached only when the image-type gate accepted the image. |
| `Handlers.RenamedExplained` | app.py:72-78 | After the rename, every step before the last returned. The request fails exactly when its last step raised, and answers with that fault's `except` clause. |
| `Handlers.AcquiredExplained` | app.py:68-78 | The same, from the point where the scratch file exists. |
| `Handlers.HandleErrors` | app.py:63-78 | Every step attempted before the last one returned. A request fails if and only if its last step raised. An `HTTPError` answers `('HTTP error', code)` with its own code, and any other exception answers `('An error occurred', 500)`. |
| `Handlers.RenamedFiles` | app.py:72-78 | After the rename, a success deletes the renamed file. A failure leaves it in place, and nothing else changes. |
| `Handlers.AcquiredFiles` | app.py:68-78 | After `mkstemp`, a failure before the rename leaves the scratch file under its first name. A failure after the rename leaves it under its final name. |
| `Handlers.HandleFiles` | app.py:66-78 | A success removes exactly the renamed file. A failure before `mkstemp` created its file changes nothing. A later failure leaves the request's file, under the scratch name before the rename and the final name after it, and changes no other path. |
| `Handlers.SuccessLeavesFilesAsFound` | app.py:66-74 | With fresh names, a success leaves the file set as it was found. |
| `Handlers.FinalNameExtension` | app.py:70-71 | The renamed file ends in `.jpeg` or `.png`. |
| `Handlers.SuccessResponse` | app.py:72-74 | A successful detection answers with the normalised engine list. A successful annotation answers with the renamed file, which holds the drawing of that list. |
| `Handlers.FailureLeavesScratch` | app.py:66-78 | With fresh names, any failure after `mkstemp` leaves exactly one new file. That file is the request's own: its scratch name before the rename, its final name after. |
| `Handlers.GifUploadLeaks` | app.py:99-116 | An uploaded GIF is refused with the generic error. The engine never runs, and `/tmp/tmpq1x.image` remains. |
| `Handlers.NotFoundUrlLeaks` | app.py:63-78 | A URL answering 404 gives `('HTTP error', 404)`, and the empty scratch file remains. |
| `Handlers.HandleReleasing` | app.py:63-78 | The pipeline with the deletion moved into a `finally`. It gives the same answers, and with fresh names and a working unlink it leaves no file behind. |
| `Handlers.Host.MakeTemp` | app.py:66-67 | The scratch name is created exclusively. It fails if the name already exists. |
| `Handlers.Host.Rename` | app.py:70 | The source path is replaced by the target, or the call raises and nothing changes. |
| `Handlers.Host.Unlink` | app.py:73 | The path is removed, or the call raises and nothing changes. |
| `Handlers.GetImageType` | app.py:30-35 | Opening the image may raise. Otherwise the result is the gate's verdict. |
| `Handlers.RunDetect` | app.py:20-28 | The engine's list normalised in place, or the engine's fault. |
| `Handlers.RunAnnotate` | app.py:37-61 | The drawing saved into the file, or the fault of the engine or of the image library. |
| `Handlers.DetectAndRespond` | app.py:72-74 | Detect, unlink, answer: the new files, steps and response are those of `Renamed`. |
| `Handlers.AnnotateAndRespond` | app.py:126-129 | Annotate, send, unlink, answer: the new files, steps and response are those of `Renamed`. |
| `Handlers.Proceed` | app.py:68-71 | Populate, classify, rename, then the operation's tail: the new files, steps and response are those of `Acquired`. |
| `Handlers.DetectFromUrl` | app.py:63-78 | `detect_from_url` leaves files, steps and response exactly as `Handle` says. |
| `Handlers.DetectFromFile` | app.py:80-97 | `detect_from_file` leaves files, steps and response exactly as `Handle` says. |
| `Handlers.AnnotateFromFile` | app.py:99-116 | `annotate_from_file` (scratch suffix `.image`) leaves files, steps and response exactly as `Handle` says. |
| `Handlers.AnnotateFromUrl` | app.py:118-133 | `annotate_from_url` leaves files, steps and response exactly as `Handle` says. |

## Left out

- The darknet model, `load_image`, `detect_image` and `free_image` (app.py:21-23, app.py:140-145): foreign native code. The engine's answer for a request is an input (`World.engine`). Its failure is one fault.
- The detection threshold: it only reaches the engine, which is not modelled.
- Image decoding, the font, `textsize` and the pixel effects of `rectangle`, `text` and `save`: image-library internals. The canvas records the calls. The text extent of a label is an input (`World.textSize`). Every failure of `Image.open`, the font or `save` inside `annotate` is one fault (`World.render`).
- `urlretrieve`, `file_to_upload.save`, `flask.send_file` and connexion's request and form parsing: network and HTTP plumbing. Each is a step that returns or raises a given fault. The mimetype and streaming of `send_file` are not modelled.
- `os.close(fd)` after `mkstemp`: no observable effect on the file set.
- `tempfile.mkstemp`'s own retry on a name clash: the name it picks is an input. A clash with an existing path is the generic error.
- The SIGTERM handler, environment configuration, API registration and the server (app.py:16-18, app.py:136-155): process lifecycle.
- Concurrency between requests: each request is modelled alone.
- IEEE floats: `float()`, `**`, `/` and `int()` on floats are over `real`. `float()` on the engine's confidence text is a total function parameter, so a `ValueError` there is not modelled separately. Rounding error in the colour channels is not captured.
- `ImageFormat.ImageType`: `str.lower()` is modelled on ASCII letters only. Format names are ASCII, and non-letters are left as they are.
- Behaviour one might expect, but that the code does not have (the model follows the code):
  - Colour channels truncate, so 0.5 gives (191, 63, 0), not a rounded (191, 64, 0).
  - The renamed file ends in `.jpeg`, never the common `.jpg`.
  - The scratch file is not released on failure, as a `finally` would release it (see Findings).
  - Errors from deleting the file are not ignored: a failing `os.unlink` turns a result already computed into an error.

## Findings

| source | as written | input that shows it | evidently intended | confidence | as-written member | corrected member |
|---|---|---|---|---|---|---|
| app.py:66-78 | `os.unlink` is inside the `try` and only on the success path, so any failure after `mkstemp` leaves the scratch file on disk (likewise app.py:85-97, app.py:103-116, app.py:120-133) | an uploaded GIF, or a URL answering 404: the file `/tmp/tmpq1x.image` or `/tmp/tmpq1x` remains after the error answer | the scratch file is removed on every exit path, for example from a `finally` | medium, not executed | `Handlers.GifUploadLeaks` | `Handlers.HandleReleasing` |
