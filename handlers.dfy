/** The four request handlers (app.py:63-133). Each one runs the same linear
    pipeline around a scratch file: create it, fill it, classify the image,
    rename the file to carry the type as its extension, detect or annotate,
    delete the file, answer. Any exception inside the `try` becomes
    `('HTTP error', code)` for an `HTTPError` and `('An error occurred', 500)`
    otherwise. The file is deleted only on the success path. */
module Handlers {
  import opened Outcomes
  import opened ImageFormat
  import Detection
  import Annotation

  type Path = string

  /** The four operations: detection or annotation, of an image fetched from a
      URL or of an uploaded file. */
  datatype Operation = DetectUrl | DetectUpload | AnnotateUpload | AnnotateUrl
  {
    /** The upload handlers read the multipart form inside their `try`. */
    predicate FromUpload() { this == DetectUpload || this == AnnotateUpload }

    predicate Annotates() { this == AnnotateUpload || this == AnnotateUrl }

    /** The suffix given to `mkstemp`: only `annotate_from_file` passes one. */
    function Suffix(): string { if this == AnnotateUpload then ".image" else "" }
  }

  /** How every foreign call of one request behaves. */
  datatype World = World(
    request: Result<()>,               // files['image_file'] and float(form['threshold'])
    scratch: Result<Path>,             // the fresh name mkstemp picks, before its suffix
    populate: Result<()>,              // urlretrieve(url, filename) or file_to_upload.save(filename)
    format: Result<string>,            // Image.open(filename).format
    rename: Result<()>,                // os.rename
    engine: Result<seq<Detection.Record>>,  // darknet load_image and detect_image
    render: Result<()>,                // Image.open, the font and img.save inside annotate
    send: Result<()>,                  // flask.send_file
    unlink: Result<()>,                // os.unlink
    toFloat: string -> real,           // float() on the engine's confidence text
    textSize: string -> Annotation.Extent)  // textsize of a label in the fixed font

  /** The steps of the pipeline, as the handlers attempt them. */
  datatype Stage = ReadRequest | MakeTemp | Populate | Classify | Rename | RunEngine | Draw | Send | Unlink

  /** The steps a handler attempts when nothing fails. */
  function Stages(op: Operation): seq<Stage>
  {
    (if op.FromUpload() then [ReadRequest] else [])
    + [MakeTemp, Populate, Classify, Rename, RunEngine]
    + (if op.Annotates() then [Draw, Send] else [])
    + [Unlink]
  }

  /** What a handler returns: the detection list, the annotated file (the
      drawing it holds), or an error tuple `(message, status)`. */
  datatype Response =
    | Detections(records: seq<Detection.Record>)
    | SentFile(path: Path, image: seq<Annotation.DrawCommand>)
    | Error(message: string, status: int)

  /** The `except` clauses. */
  function Reply(f: Fault): Response
  {
    match f
    case HttpError(code) => Error("HTTP error", code)
    case OtherError => Error("An error occurred", 500)
  }

  /** The outcome of one request: the response, the file set afterwards, the
      steps attempted, and the request's own scratch file if it still exists. */
  datatype Run = Run(response: Response, files: set<Path>, steps: seq<Stage>, leftover: Option<Path>)

  /** Every fault the foreign calls of `w` can raise. */
  function Faults(w: World): set<Fault>
  {
    (if w.request.Err? then {w.request.fault} else {})
    + (if w.scratch.Err? then {w.scratch.fault} else {})
    + (if w.populate.Err? then {w.populate.fault} else {})
    + (if w.format.Err? then {w.format.fault} else {})
    + (if w.rename.Err? then {w.rename.fault} else {})
    + (if w.engine.Err? then {w.engine.fault} else {})
    + (if w.render.Err? then {w.render.fault} else {})
    + (if w.send.Err? then {w.send.fault} else {})
    + (if w.unlink.Err? then {w.unlink.fault} else {})
  }

  /** The name the scratch file is renamed to, when the pipeline gets that far:
      the scratch name, a dot, and the image type. */
  function FinalName(op: Operation, w: World): Option<Path>
  {
    if w.scratch.Ok? && w.format.Ok? && ImageType(w.format.value).Ok? then
      Some(w.scratch.value + op.Suffix() + "." + ImageType(w.format.value).value)
    else None
  }

  /** The handler `op` run on file set `files` in world `w`: the reference
      definition the four handler methods are proved against. */
  function Handle(op: Operation, w: World, files: set<Path>): Run
  {
    var asked := if op.FromUpload() then [ReadRequest] else [];
    if op.FromUpload() && w.request.Err? then
      Run(Reply(w.request.fault), files, asked, None)
    else if w.scratch.Err? then
      Run(Reply(w.scratch.fault), files, asked + [MakeTemp], None)
    else
      var scratch := w.scratch.value + op.Suffix();
      if scratch in files then
        // the exclusive create refuses a name that exists
        Run(Reply(OtherError), files, asked + [MakeTemp], None)
      else
        After(asked + [MakeTemp], Acquired(op, w, files + {scratch}, scratch))
  }

  /** `r` preceded by the steps `done`. */
  function After(done: seq<Stage>, r: Run): Run
  {
    r.(steps := done + r.steps)
  }

  /** The pipeline from the point where the scratch file `scratch` exists:
      fill it, classify the image, rename the file. */
  function Acquired(op: Operation, w: World, files: set<Path>, scratch: Path): Run
  {
    if w.populate.Err? then
      Run(Reply(w.populate.fault), files, [Populate], Some(scratch))
    else if w.format.Err? then
      Run(Reply(w.format.fault), files, [Populate, Classify], Some(scratch))
    else if ImageType(w.format.value).Err? then
      Run(Reply(ImageType(w.format.value).fault), files, [Populate, Classify], Some(scratch))
    else if w.rename.Err? then
      Run(Reply(w.rename.fault), files, [Populate, Classify, Rename], Some(scratch))
    else
      var final := scratch + "." + ImageType(w.format.value).value;
      After([Populate, Classify, Rename], Renamed(op, w, files - {scratch} + {final}, final))
  }

  /** The steps after the rename when nothing fails. */
  function Processing(op: Operation): seq<Stage>
  {
    [RunEngine] + (if op.Annotates() then [Draw, Send] else []) + [Unlink]
  }

  /** The pipeline from the point where the file carries its final name:
      detect or annotate, send, delete the file, answer. */
  function Renamed(op: Operation, w: World, files: set<Path>, final: Path): Run
  {
    if w.engine.Err? then
      Run(Reply(w.engine.fault), files, [RunEngine], Some(final))
    else
      var records := Detection.Normalised(w.engine.value, w.toFloat);
      if !op.Annotates() then
        if w.unlink.Err? then Run(Reply(w.unlink.fault), files, [RunEngine, Unlink], Some(final))
        else Run(Detections(records), files - {final}, [RunEngine, Unlink], None)
      else if w.render.Err? then
        Run(Reply(w.render.fault), files, [RunEngine, Draw], Some(final))
      else if w.send.Err? then
        Run(Reply(w.send.fault), files, [RunEngine, Draw, Send], Some(final))
      else if w.unlink.Err? then
        Run(Reply(w.unlink.fault), files, [RunEngine, Draw, Send, Unlink], Some(final))
      else
        var image := Annotation.Drawing(records, w.toFloat, w.textSize);
        Run(SentFile(final, image), files - {final}, [RunEngine, Draw, Send, Unlink], None)
  }

  // ---------------------------------------------------------------------------
  // What every request does

  lemma PrefixExtend(done: seq<Stage>, a: seq<Stage>, b: seq<Stage>)
    requires a <= b
    ensures done + a <= done + b
  {
    assert (done + b)[..|done + a|] == done + b[..|a|];
  }

  lemma {:induction false} RenamedFollowsPipeline(op: Operation, w: World, files: set<Path>, final: Path)
    ensures Renamed(op, w, files, final).steps <= Processing(op)
    ensures !Renamed(op, w, files, final).response.Error? ==>
      Renamed(op, w, files, final).steps == Processing(op) && Renamed(op, w, files, final).leftover == None
  {
  }

  lemma {:induction false} AcquiredFollowsPipeline(op: Operation, w: World, files: set<Path>, scratch: Path)
    ensures Acquired(op, w, files, scratch).steps <= [Populate, Classify, Rename] + Processing(op)
    ensures !Acquired(op, w, files, scratch).response.Error? ==>
      Acquired(op, w, files, scratch).steps == [Populate, Classify, Rename] + Processing(op) && Acquired(op, w, files, scratch).leftover == None
  {
    if w.populate.Ok? && w.format.Ok? && ImageType(w.format.value).Ok? && w.rename.Ok? {
      var final := scratch + "." + ImageType(w.format.value).value;
      RenamedFollowsPipeline(op, w, files - {scratch} + {final}, final);
      PrefixExtend([Populate, Classify, Rename], Renamed(op, w, files - {scratch} + {final}, final).steps, Processing(op));
    }
  }

  /** The handlers are linear: the steps attempted are a prefix of the
      pipeline, so no step is repeated or retried, and a success has run every
      step and left no scratch file. */
  lemma {:induction false} HandleFollowsPipeline(op: Operation, w: World, files: set<Path>)
    ensures Handle(op, w, files).steps <= Stages(op)
    ensures !Handle(op, w, files).response.Error? ==> Handle(op, w, files).steps == Stages(op) && Handle(op, w, files).leftover == None
  {
    var asked := if op.FromUpload() then [ReadRequest] else [];
    assert Stages(op) == (asked + [MakeTemp]) + ([Populate, Classify, Rename] + Processing(op));
    if !(op.FromUpload() && w.request.Err?) && w.scratch.Ok? && w.scratch.value + op.Suffix() !in files {
      var scratch := w.scratch.value + op.Suffix();
      AcquiredFollowsPipeline(op, w, files + {scratch}, scratch);
      PrefixExtend(asked + [MakeTemp], Acquired(op, w, files + {scratch}, scratch).steps, [Populate, Classify, Rename] + Processing(op));
    }
  }

  /** The engine runs, and the file is renamed, only after the image-type
      gate has accepted the image. */
  lemma EngineOnlyAfterGate(op: Operation, w: World, files: set<Path>)
    ensures Rename in Handle(op, w, files).steps || RunEngine in Handle(op, w, files).steps ==>
      w.format.Ok? && ImageType(w.format.value).Ok?
  {
  }

  /** The fault step `s` raises in world `w` for a request that found the
      paths `found`, or `None` when the step returns. The exclusive create of
      `mkstemp` raises when its name is taken; the classification raises when
      the image cannot be opened or the gate refuses it. */
  function StepFault(op: Operation, w: World, found: set<Path>, s: Stage): Option<Fault>
  {
    match s
    case ReadRequest => if w.request.Err? then Some(w.request.fault) else None
    case MakeTemp =>
      if w.scratch.Err? then Some(w.scratch.fault)
      else if w.scratch.value + op.Suffix() in found then Some(OtherError)
      else None
    case Populate => if w.populate.Err? then Some(w.populate.fault) else None
    case Classify =>
      if w.format.Err? then Some(w.format.fault)
      else if ImageType(w.format.value).Err? then Some(ImageType(w.format.value).fault)
      else None
    case Rename => if w.rename.Err? then Some(w.rename.fault) else None
    case RunEngine => if w.engine.Err? then Some(w.engine.fault) else None
    case Draw => if w.render.Err? then Some(w.render.fault) else None
    case Send => if w.send.Err? then Some(w.send.fault) else None
    case Unlink => if w.unlink.Err? then Some(w.unlink.fault) else None
  }

  /** Every step of `r` but the last returned, and `r` is an error exactly
      when the last step raised, answered by the `except` clause for its
      fault. */
  predicate Explained(op: Operation, w: World, found: set<Path>, r: Run)
  {
    && |r.steps| > 0
    && (forall i :: 0 <= i < |r.steps| - 1 ==> StepFault(op, w, found, r.steps[i]).None?)
    && (r.response.Error? <==> StepFault(op, w, found, r.steps[|r.steps| - 1]).Some?)
    && (r.response.Error? ==> r.response == Reply(StepFault(op, w, found, r.steps[|r.steps| - 1]).value))
  }

  lemma ExplainedAfter(op: Operation, w: World, found: set<Path>, done: seq<Stage>, r: Run)
    requires Explained(op, w, found, r)
    requires forall i :: 0 <= i < |done| ==> StepFault(op, w, found, done[i]).None?
    ensures Explained(op, w, found, After(done, r))
  {
    var steps := After(done, r).steps;
    assert steps[|steps| - 1] == r.steps[|r.steps| - 1];
    forall i | 0 <= i < |steps| - 1
      ensures StepFault(op, w, found, steps[i]).None?
    {
      if i >= |done| {
        assert steps[i] == r.steps[i - |done|];
      }
    }
  }

  lemma RenamedExplained(op: Operation, w: World, found: set<Path>, files: set<Path>, final: Path)
    ensures Explained(op, w, found, Renamed(op, w, files, final))
  {
    var r := Renamed(op, w, files, final);
    if w.engine.Err? {
      assert r.steps == [RunEngine];
    } else if !op.Annotates() {
      assert r.steps == [RunEngine, Unlink];
    } else if w.render.Err? {
      assert r.steps == [RunEngine, Draw];
    } else if w.send.Err? {
      assert r.steps == [RunEngine, Draw, Send];
    } else {
      assert r.steps == [RunEngine, Draw, Send, Unlink];
    }
  }

  lemma AcquiredExplained(op: Operation, w: World, found: set<Path>, files: set<Path>, scratch: Path)
    ensures Explained(op, w, found, Acquired(op, w, files, scratch))
  {
    if w.populate.Ok? && w.format.Ok? && ImageType(w.format.value).Ok? && w.rename.Ok? {
      var final := scratch + "." + ImageType(w.format.value).value;
      RenamedExplained(op, w, found, files - {scratch} + {final}, final);
      ExplainedAfter(op, w, found, [Populate, Classify, Rename], Renamed(op, w, files - {scratch} + {final}, final));
    }
  }

  /** The error mapping: every step attempted before the last one returned;
      the request fails exactly when its last step raised; an `HTTPError`
      answers `('HTTP error', code)` with its own code and any other exception
      `('An error occurred', 500)`. */
  lemma {:induction false} HandleErrors(op: Operation, w: World, files: set<Path>)
    ensures var r := Handle(op, w, files);
      && |r.steps| > 0
      && (forall i :: 0 <= i < |r.steps| - 1 ==> StepFault(op, w, files, r.steps[i]).None?)
      && (r.response.Error? <==> StepFault(op, w, files, r.steps[|r.steps| - 1]).Some?)
      && (r.response.Error? ==>
            var f := StepFault(op, w, files, r.steps[|r.steps| - 1]).value;
            && (f.HttpError? ==> r.response == Error("HTTP error", f.code))
            && (f.OtherError? ==> r.response == Error("An error occurred", 500)))
  {
    var asked := if op.FromUpload() then [ReadRequest] else [];
    if !(op.FromUpload() && w.request.Err?) && w.scratch.Ok? && w.scratch.value + op.Suffix() !in files {
      var scratch := w.scratch.value + op.Suffix();
      AcquiredExplained(op, w, files, files + {scratch}, scratch);
      ExplainedAfter(op, w, files, asked + [MakeTemp], Acquired(op, w, files + {scratch}, scratch));
    }
    assert Explained(op, w, files, Handle(op, w, files));
  }

  lemma RenamedFiles(op: Operation, w: World, files: set<Path>, final: Path)
    ensures var r := Renamed(op, w, files, final);
      && RunEngine in r.steps
      && (r.response.Error? <==> r.leftover.Some?)
      && (!r.response.Error? ==> r.files == files - {final})
      && (r.leftover.Some? ==> r.leftover.value == final && r.files == files)
  {
  }

  lemma AcquiredFiles(op: Operation, w: World, files: set<Path>, scratch: Path)
    ensures var r := Acquired(op, w, files, scratch);
      && (r.response.Error? <==> r.leftover.Some?)
      && (RunEngine in r.steps <==> w.populate.Ok? && w.format.Ok? && ImageType(w.format.value).Ok? && w.rename.Ok?)
      && (RunEngine !in r.steps ==> r.leftover == Some(scratch) && r.files == files)
      && (RunEngine in r.steps ==>
            var final := scratch + "." + ImageType(w.format.value).value;
            && (!r.response.Error? ==> r.files == files - {scratch} + {final} - {final})
            && (r.leftover.Some? ==> r.leftover.value == final && r.files == files - {scratch} + {final}))
  {
    if w.populate.Ok? && w.format.Ok? && ImageType(w.format.value).Ok? && w.rename.Ok? {
      var final := scratch + "." + ImageType(w.format.value).value;
      RenamedFiles(op, w, files - {scratch} + {final}, final);
    }
  }

  /** The file set afterwards: a success removes exactly the renamed file; a
      failure before `mkstemp` created its file changes nothing; any later
      failure leaves the request's own file, under the scratch name before
      the rename and under the final name after it, and changes no other
      path. */
  lemma {:induction false} HandleFiles(op: Operation, w: World, files: set<Path>)
    ensures var r := Handle(op, w, files);
      && (!r.response.Error? ==> FinalName(op, w).Some? && r.files == files - {FinalName(op, w).value})
      && (r.response.Error? && r.leftover.None? ==> r.files == files)
      && (r.leftover.Some? ==> r.leftover.value in r.files && r.files - {r.leftover.value} == files - {r.leftover.value})
      && (r.leftover.Some? ==>
            && w.scratch.Ok?
            && r.leftover.value == if RunEngine in r.steps then FinalName(op, w).value else w.scratch.value + op.Suffix())
  {
    if !(op.FromUpload() && w.request.Err?) && w.scratch.Ok? && w.scratch.value + op.Suffix() !in files {
      var scratch := w.scratch.value + op.Suffix();
      AcquiredFiles(op, w, files + {scratch}, scratch);
    }
  }

  /** No name of the request is already taken: the scratch name is free, and
      so is the name it is renamed to. */
  predicate FreshNames(op: Operation, w: World, files: set<Path>)
  {
    && (w.scratch.Ok? ==> w.scratch.value + op.Suffix() !in files)
    && (FinalName(op, w).Some? ==> FinalName(op, w).value !in files)
  }

  /** On the success path the scratch file is deleted before the answer:
      with fresh names the file set is the one found. */
  lemma SuccessLeavesFilesAsFound(op: Operation, w: World, files: set<Path>)
    requires FreshNames(op, w, files)
    requires !Handle(op, w, files).response.Error?
    ensures Handle(op, w, files).files == files
  {
    HandleFiles(op, w, files);
  }

  /** The renamed file ends in `.jpeg` or `.png`, never `.jpg`. */
  lemma FinalNameExtension(op: Operation, w: World)
    requires FinalName(op, w).Some?
    ensures var name := FinalName(op, w).value;
      || (|name| >= 5 && name[|name| - 5..] == ".jpeg")
      || (|name| >= 4 && name[|name| - 4..] == ".png")
  {
    var t := ImageType(w.format.value).value;
    ExtensionOf(w.scratch.value + op.Suffix(), t);
  }

  lemma ExtensionOf(stem: string, t: string)
    requires t == "jpeg" || t == "png"
    ensures var name := stem + "." + t;
      || (|name| >= 5 && name[|name| - 5..] == ".jpeg")
      || (|name| >= 4 && name[|name| - 4..] == ".png")
  {
    var name := stem + "." + t;
    if t == "jpeg" {
      assert name[|name| - 5..] == ".jpeg";
    } else {
      assert name[|name| - 4..] == ".png";
    }
  }

  /** A successful detection answers with the engine's list, normalised; a
      successful annotation answers with the renamed file, holding the
      drawing of that list. */
  lemma SuccessResponse(op: Operation, w: World, files: set<Path>)
    requires !Handle(op, w, files).response.Error?
    ensures w.engine.Ok?
    ensures var records := Detection.Normalised(w.engine.value, w.toFloat);
      Handle(op, w, files).response ==
        if op.Annotates() then SentFile(FinalName(op, w).value, Annotation.Drawing(records, w.toFloat, w.textSize))
        else Detections(records)
  {
  }

  // ---------------------------------------------------------------------------
  // The scratch file leaks on failure

  /** As written, every failure after `mkstemp` skips `os.unlink`: the
      request's file stays behind, under the name it had when the step
      failed. */
  lemma FailureLeavesScratch(op: Operation, w: World, files: set<Path>)
    requires FreshNames(op, w, files)
    requires w.scratch.Ok? && (op.FromUpload() ==> w.request.Ok?)
    requires Handle(op, w, files).response.Error?
    ensures var r := Handle(op, w, files);
      && r.leftover.Some? && r.leftover.value !in files && r.files == files + {r.leftover.value}
      && r.leftover.value == if RunEngine in r.steps then FinalName(op, w).value else w.scratch.value + op.Suffix()
  {
    HandleFiles(op, w, files);
  }

  /** An uploaded GIF: the gate refuses it, the engine never runs, the answer
      is the generic error, and the scratch file `/tmp/tmpq1x.image` remains. */
  lemma GifUploadLeaks()
    ensures var w := World(Ok(()), Ok("/tmp/tmpq1x"), Ok(()), Ok("GIF"), Ok(()), Ok([]), Ok(()), Ok(()), Ok(()),
                           s => 0.0, s => Annotation.Extent(0, 0));
      var r := Handle(AnnotateUpload, w, {});
      && r.response == Error("An error occurred", 500)
      && r.steps == [ReadRequest, MakeTemp, Populate, Classify]
      && r.files == {"/tmp/tmpq1x.image"}
  {
    ImageTypeExamples();
    assert "/tmp/tmpq1x" + ".image" == "/tmp/tmpq1x.image";
    assert [ReadRequest] + [MakeTemp] + [Populate, Classify] == [ReadRequest, MakeTemp, Populate, Classify];
  }

  /** A URL answering 404: the handler answers `('HTTP error', 404)` and the
      empty scratch file remains. */
  lemma NotFoundUrlLeaks()
    ensures var w := World(Ok(()), Ok("/tmp/tmpq1x"), Err(HttpError(404)), Ok("JPEG"), Ok(()), Ok([]), Ok(()), Ok(()), Ok(()),
                           s => 0.0, s => Annotation.Extent(0, 0));
      var r := Handle(DetectUrl, w, {});
      && r.response == Error("HTTP error", 404)
      && r.steps == [MakeTemp, Populate]
      && r.files == {"/tmp/tmpq1x"}
  {
    assert "/tmp/tmpq1x" + "" == "/tmp/tmpq1x";
    assert [] + [MakeTemp] + [Populate] == [MakeTemp, Populate];
  }

  /** The handlers with the deletion in a `finally`: whatever fails, the
      request's file is deleted before the answer, which is unchanged. */
  function HandleReleasing(op: Operation, w: World, files: set<Path>): (r: Run)
    ensures r.response == Handle(op, w, files).response
    ensures w.unlink.Ok? && FreshNames(op, w, files) ==> r.files == files && r.leftover == None
  {
    var run := Handle(op, w, files);
    HandleFiles(op, w, files);
    match run.leftover
    case Some(name) =>
      if w.unlink.Ok? then run.(files := run.files - {name}, leftover := None, steps := run.steps + [Unlink]) else run
    case None => run
  }

  // ---------------------------------------------------------------------------
  // The process's view of its environment

  /** The files that exist, and the steps the handlers have attempted. */
  class Host {
    var files: set<Path>
    var calls: seq<Stage>

    constructor (existing: set<Path>)
      ensures files == existing && calls == []
    {
      files, calls := existing, [];
    }

    /** A step that leaves the file set as it is: it either returns or raises. */
    method Call<T>(s: Stage, outcome: Result<T>) returns (r: Result<T>)
      modifies this
      ensures r == outcome
      ensures files == old(files) && calls == old(calls) + [s]
    {
      r := outcome;
      calls := calls + [s];
    }

    /** `tempfile.mkstemp(suffix)` followed by `os.close`: `name` is the fresh
        name it picks; the file is created exclusively. */
    method MakeTemp(name: Result<Path>, suffix: string) returns (r: Result<Path>)
      modifies this
      ensures calls == old(calls) + [Stage.MakeTemp]
      ensures name.Err? ==> r == name && files == old(files)
      ensures name.Ok? && name.value + suffix in old(files) ==> r == Err(OtherError) && files == old(files)
      ensures name.Ok? && name.value + suffix !in old(files) ==> r == Ok(name.value + suffix) && files == old(files) + {r.value}
    {
      calls := calls + [Stage.MakeTemp];
      if name.Err? {
        r := Err(name.fault);
      } else if name.value + suffix in files {
        r := Err(OtherError);
      } else {
        r := Ok(name.value + suffix);
        files := files + {r.value};
      }
    }

    /** `os.rename(source, target)`: a file already called `target` is replaced. */
    method Rename(source: Path, target: Path, outcome: Result<()>) returns (r: Result<()>)
      modifies this
      ensures calls == old(calls) + [Stage.Rename]
      ensures r == (if outcome.Err? then outcome else if source !in old(files) then Err(OtherError) else Ok(()))
      ensures files == if r.Ok? then old(files) - {source} + {target} else old(files)
    {
      calls := calls + [Stage.Rename];
      if outcome.Err? {
        r := outcome;
      } else if source !in files {
        r := Err(OtherError);
      } else {
        r := Ok(());
        files := files - {source} + {target};
      }
    }

    /** `os.unlink(path)`. */
    method Unlink(path: Path, outcome: Result<()>) returns (r: Result<()>)
      modifies this
      ensures calls == old(calls) + [Stage.Unlink]
      ensures r == (if outcome.Err? then outcome else if path !in old(files) then Err(OtherError) else Ok(()))
      ensures files == if r.Ok? then old(files) - {path} else old(files)
    {
      calls := calls + [Stage.Unlink];
      if outcome.Err? {
        r := outcome;
      } else if path !in files {
        r := Err(OtherError);
      } else {
        r := Ok(());
        files := files - {path};
      }
    }
  }

  // ---------------------------------------------------------------------------
  // The steps the handlers share

  /** `get_image_type(filename)`: open the image, then the gate. */
  method GetImageType(host: Host, w: World) returns (r: Result<string>)
    modifies host
    ensures r == (if w.format.Err? then Err(w.format.fault) else ImageType(w.format.value))
    ensures host.files == old(host.files) && host.calls == old(host.calls) + [Classify]
  {
    var format := host.Call(Classify, w.format);
    if format.Err? {
      return Err(format.fault);
    }
    r := ImageType(format.value);
  }

  /** `detect(filename, threshold)`: the engine's list, normalised in place. */
  method RunDetect(host: Host, w: World) returns (r: Result<seq<Detection.Record>>)
    modifies host
    ensures r == (if w.engine.Err? then Err(w.engine.fault) else Ok(Detection.Normalised(w.engine.value, w.toFloat)))
    ensures host.files == old(host.files) && host.calls == old(host.calls) + [RunEngine]
  {
    var found := host.Call(RunEngine, w.engine);
    if found.Err? {
      return Err(found.fault);
    }
    var list := found.value;
    var a := new Detection.Record[|list|](i requires 0 <= i < |list| => list[i]);
    assert a[..] == list;
    Detection.Detect(a, w.toFloat);
    r := Ok(a[..]);
  }

  /** `annotate(filename, threshold)`: the drawing saved into the file. */
  method RunAnnotate(host: Host, w: World) returns (r: Result<seq<Annotation.DrawCommand>>)
    modifies host
    ensures r == (if w.engine.Err? then Err(w.engine.fault)
                  else if w.render.Err? then Err(w.render.fault)
                  else Ok(Annotation.Drawing(Detection.Normalised(w.engine.value, w.toFloat), w.toFloat, w.textSize)))
    ensures host.files == old(host.files)
    ensures host.calls == old(host.calls) + (if w.engine.Err? then [RunEngine] else [RunEngine, Draw])
  {
    var found := host.Call(RunEngine, w.engine);
    if found.Err? {
      return Err(found.fault);
    }
    var rendered := host.Call(Draw, w.render);
    if rendered.Err? {
      return Err(rendered.fault);
    }
    var list := found.value;
    var a := new Detection.Record[|list|](i requires 0 <= i < |list| => list[i]);
    assert a[..] == list;
    var img := Annotation.Annotate(a, w.toFloat, w.textSize);
    r := Ok(img.saved.value);
  }

  /** The lines after the rename in the detection handlers: detect, delete
      the file, answer with the list. */
  method DetectAndRespond(host: Host, op: Operation, w: World, filename: Path) returns (resp: Response)
    requires !op.Annotates() && filename in host.files
    modifies host
    ensures var run := Renamed(op, w, old(host.files), filename);
      resp == run.response && host.files == run.files && host.calls == old(host.calls) + run.steps
  {
    var res := RunDetect(host, w);
    if res.Err? {
      return Reply(res.fault);
    }
    var done := host.Unlink(filename, w.unlink);
    if done.Err? {
      return Reply(done.fault);
    }
    resp := Detections(res.value);
  }

  /** The lines after the rename in the annotation handlers: annotate, send
      the file, delete it, answer with what was sent. */
  method AnnotateAndRespond(host: Host, op: Operation, w: World, filename: Path) returns (resp: Response)
    requires op.Annotates() && filename in host.files
    modifies host
    ensures var run := Renamed(op, w, old(host.files), filename);
      resp == run.response && host.files == run.files && host.calls == old(host.calls) + run.steps
  {
    var image := RunAnnotate(host, w);
    if image.Err? {
      return Reply(image.fault);
    }
    var done := host.Call(Send, w.send);
    if done.Err? {
      return Reply(done.fault);
    }
    var res := SentFile(filename, image.value);
    done := host.Unlink(filename, w.unlink);
    if done.Err? {
      return Reply(done.fault);
    }
    resp := res;
  }

  /** The lines after `mkstemp`, the same in all four handlers but for
      detecting or annotating: fill the scratch file, classify the image,
      rename the file to carry its type, then go on with the renamed file. */
  method Proceed(host: Host, op: Operation, w: World, scratch: Path) returns (resp: Response)
    requires scratch in host.files
    modifies host
    ensures var run := Acquired(op, w, old(host.files), scratch);
      resp == run.response && host.files == run.files && host.calls == old(host.calls) + run.steps
  {
    var filename := scratch;
    var done := host.Call(Populate, w.populate);
    if done.Err? {
      return Reply(done.fault);
    }
    var imageType := GetImageType(host, w);
    if imageType.Err? {
      return Reply(imageType.fault);
    }
    done := host.Rename(filename, filename + "." + imageType.value, w.rename);
    if done.Err? {
      return Reply(done.fault);
    }
    filename := filename + "." + imageType.value;
    if op.Annotates() {
      resp := AnnotateAndRespond(host, op, w, filename);
    } else {
      resp := DetectAndRespond(host, op, w, filename);
    }
  }

  // ---------------------------------------------------------------------------
  // The four handlers

  /** `detect_from_url(url, threshold)`. */
  method DetectFromUrl(host: Host, w: World) returns (resp: Response)
    modifies host
    ensures var run := Handle(DetectUrl, w, old(host.files));
      resp == run.response && host.files == run.files && host.calls == old(host.calls) + run.steps
  {
    var made := host.MakeTemp(w.scratch, "");
    if made.Err? {
      return Reply(made.fault);
    }
    resp := Proceed(host, DetectUrl, w, made.value);
  }

  /** `detect_from_file()`. */
  method DetectFromFile(host: Host, w: World) returns (resp: Response)
    modifies host
    ensures var run := Handle(DetectUpload, w, old(host.files));
      resp == run.response && host.files == run.files && host.calls == old(host.calls) + run.steps
  {
    var form := host.Call(ReadRequest, w.request);
    if form.Err? {
      return Reply(form.fault);
    }
    var made := host.MakeTemp(w.scratch, "");
    if made.Err? {
      return Reply(made.fault);
    }
    resp := Proceed(host, DetectUpload, w, made.value);
  }

  /** `annotate_from_file()`: its scratch name ends in `.image`. */
  method AnnotateFromFile(host: Host, w: World) returns (resp: Response)
    modifies host
    ensures var run := Handle(AnnotateUpload, w, old(host.files));
      resp == run.response && host.files == run.files && host.calls == old(host.calls) + run.steps
  {
    var form := host.Call(ReadRequest, w.request);
    if form.Err? {
      return Reply(form.fault);
    }
    var made := host.MakeTemp(w.scratch, ".image");
    if made.Err? {
      return Reply(made.fault);
    }
    resp := Proceed(host, AnnotateUpload, w, made.value);
  }

  /** `annotate_from_url(url, threshold)`. */
  method AnnotateFromUrl(host: Host, w: World) returns (resp: Response)
    modifies host
    ensures var run := Handle(AnnotateUrl, w, old(host.files));
      resp == run.response && host.files == run.files && host.calls == old(host.calls) + run.steps
  {
    var made := host.MakeTemp(w.scratch, "");
    if made.Err? {
      return Reply(made.fault);
    }
    resp := Proceed(host, AnnotateUrl, w, made.value);
  }
}
