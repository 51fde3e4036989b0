/**
  The VideoTranscriber object and its two workflows. Everything the workflows
  do to the outside world is abstracted: the file system is the set of paths
  that exist, the effects that can be observed (runs of yt-dlp and Whisper, the
  JSON written or printed) are a log, and what yt-dlp, Whisper and file writes
  answer is given as Externals. Each method is proved against a step function
  on Host, the pair of those two.
 */
module Transcriber {
  import opened Wrappers
  import opened PyStr
  import opened PosixPath
  import opened Format
  import opened Placement

  /** One run of yt-dlp: a non-zero exit (or one that could not start), or a
      successful exit with the paths it wrote, in the order a listing of their
      directory returns them. */
  datatype ToolRun = ExitFailure | ExitSuccess(created: seq<string>)

  /** What the outside world answers during one workflow. */
  datatype Externals = Externals(
    ytdlp: ToolRun,                        // the yt-dlp run
    transcription: Option<Transcription>,  // model.transcribe's result; None when Whisper is missing or raises
    emitOk: bool,                          // whether the JSON output succeeds: the print, or opening and writing the file
    round2: real -> real)                  // round(x, 2) on the host's floats

  /** An effect seen from outside. */
  datatype Event =
    | YtDlp(url: string, audioFormat: string, output: string)  // yt-dlp --extract-audio with this format and output
    | Whisper(model: string, audioPath: string)                // a transcription of this file with this model
    | Json(dest: Destination, records: seq<Record>)            // the JSON array written to a file or printed

  /** The host as the workflows see it: the paths that exist, and the effects so far. */
  datatype Host = Host(files: set<string>, events: seq<Event>)

  /** The paths a listing names. */
  function ToSet(s: seq<string>): set<string>
  {
    set p | p in s
  }

  /** f is d or lies below d. */
  predicate InTree(f: string, d: string)
  {
    f == d || StartsWith(f, d + "/")
  }

  /** The paths left after shutil.rmtree(d): those neither d nor below it. */
  function RemoveTree(files: set<string>, d: string): set<string>
  {
    set f | f in files && !InTree(f, d)
  }

  /** Path(dir).glob("audio.*") matches p: p names an entry directly in dir
      whose name starts with "audio.". */
  predicate AudioGlobMatch(dir: string, p: string)
  {
    StartsWith(p, dir + "/") && '/' !in p[|dir| + 1..] && StartsWith(p[|dir| + 1..], "audio.")
  }

  /** The matches of Path(dir).glob("audio.*") among the listed paths, in listing order. */
  function AudioGlob(dir: string, listing: seq<string>): (ms: seq<string>)
    ensures forall p :: p in ms <==> p in listing && AudioGlobMatch(dir, p)
  {
    if listing == [] then []
    else (if AudioGlobMatch(dir, listing[0]) then [listing[0]] else []) + AudioGlob(dir, listing[1..])
  }

  /** download_audio: runs yt-dlp for a wav file at outputPath; succeeds when yt-dlp does. */
  function DownloadStep(h: Host, url: string, outputPath: string, run: ToolRun): (bool, Host)
  {
    var h1 := h.(events := h.events + [YtDlp(url, "wav", outputPath)]);
    match run
    case ExitFailure => (false, h1)
    case ExitSuccess(created) => (true, h1.(files := h1.files + ToSet(created)))
  }

  /** extract_audio_to_file: creates the directory of path, runs yt-dlp with the
      template OutputTemplate(path), and succeeds when ExpectedFile(path, fmt)
      then exists, renaming it to path when the two differ. */
  function ExtractStep(h: Host, url: string, path: string, fmt: string, run: ToolRun): (bool, Host)
  {
    var outDir := Dirname(path);
    var h1 := if outDir != "" && outDir !in h.files then h.(files := h.files + {outDir}) else h;
    var h2 := h1.(events := h1.events + [YtDlp(url, fmt, OutputTemplate(path))]);
    match run
    case ExitFailure => (false, h2)
    case ExitSuccess(created) =>
      var h3 := h2.(files := h2.files + ToSet(created));
      var expected := ExpectedFile(path, fmt);
      if expected !in h3.files then (false, h3)
      else if NeedsRename(path, fmt) then (true, h3.(files := h3.files - {expected} + {path}))
      else (true, h3)
  }

  /** transcribe_audio: one transcription attempt, whose result is Whisper's. */
  function TranscribeStep(h: Host, model: string, path: string, outcome: Option<Transcription>)
    : (Option<Transcription>, Host)
  {
    (outcome, h.(events := h.events + [Whisper(model, path)]))
  }

  /** transcribe_local_audio: no attempt at all when the file does not exist. */
  function TranscribeLocalStep(h: Host, model: string, path: string, outcome: Option<Transcription>)
    : (Option<Transcription>, Host)
  {
    if path !in h.files then (None, h) else TranscribeStep(h, model, path, outcome)
  }

  /** The JSON output of both workflows: printed, or written to a file. When
      the print, or opening and writing the file, raises, the exception ends
      the workflow with nothing emitted. */
  function EmitStep(h: Host, dest: Destination, records: seq<Record>, emitOk: bool): (bool, Host)
  {
    if !emitOk then (false, h)
    else
      match dest
      case Stdout => (true, h.(events := h.events + [Json(dest, records)]))
      case File(p) => (true, Host(h.files + {p}, h.events + [Json(dest, records)]))
  }

  /** cleanup: removes the temporary directory when the field is set and it exists. */
  function CleanupStep(h: Host, tempDir: Option<string>): Host
  {
    if tempDir.Some? && tempDir.value != "" && tempDir.value in h.files
    then h.(files := RemoveTree(h.files, tempDir.value))
    else h
  }

  /** The output template of temporary-audio mode: "audio." and the extension
      field, in the temporary directory. */
  function TempTemplate(dir: string): string
  {
    Join(dir, "audio." + ExtField)
  }

  /** process_video's body inside its try block, once the temporary directory
      dir exists: download, glob, transcribe, format, emit. */
  function TempModeBody(h: Host, model: string, url: string, out: Option<string>, ext: Externals, dir: string)
    : (bool, Host)
  {
    var (downloaded, h1) := DownloadStep(h, url, TempTemplate(dir), ext.ytdlp);
    if !downloaded then (false, h1)
    else
      var audioFiles := AudioGlob(dir, ext.ytdlp.created);
      if audioFiles == [] then (false, h1)
      else
        var (result, h2) := TranscribeStep(h1, model, audioFiles[0], ext.transcription);
        if !Truthy(result) then (false, h2)
        else EmitStep(h2, TempDestination(out), Formatted(result, ext.round2), ext.emitOk)
  }

  /** process_video: creates the temporary directory dir (mkdtemp's choice),
      runs the body, and cleans up whatever the body's outcome. */
  function TempModeRun(h: Host, model: string, url: string, out: Option<string>, ext: Externals, dir: string)
    : (bool, Host)
  {
    var (ok, h1) := TempModeBody(h.(files := h.files + {dir}), model, url, out, ext, dir);
    (ok, CleanupStep(h1, Some(dir)))
  }

  /** The directories process_video_with_audio_save creates before extracting:
      cwd/audio always, cwd/result when a JSON name is given. */
  function PersistPrepare(h: Host, cwd: string, out: Option<string>): Host
  {
    var h1 := if AudioDir(cwd) !in h.files then h.(files := h.files + {AudioDir(cwd)}) else h;
    if Given(out) && ResultDir(cwd) !in h1.files then h1.(files := h1.files + {ResultDir(cwd)}) else h1
  }

  /** process_video_with_audio_save: extract to the kept audio file, transcribe
      it, format, emit; no temporary directory. */
  function PersistModeRun(h: Host, model: string, url: string, audioOut: string, out: Option<string>,
                          fmt: string, ext: Externals, cwd: string): (bool, Host)
  {
    var audioPath := PersistAudioPath(cwd, audioOut);
    PersistFinish(ExtractStep(PersistPrepare(h, cwd, out), url, audioPath, fmt, ext.ytdlp),
                  model, audioPath, PersistDestination(cwd, out), ext)
  }

  /** The rest of persist mode, given the extraction's outcome: transcribe the
      kept file, then format and emit. */
  function PersistFinish(extraction: (bool, Host), model: string, audioPath: string, dest: Destination,
                         ext: Externals): (bool, Host)
  {
    var (extracted, h1) := extraction;
    if !extracted then (false, h1)
    else
      var (result, h2) := TranscribeLocalStep(h1, model, audioPath, ext.transcription);
      if !Truthy(result) then (false, h2)
      else EmitStep(h2, dest, Formatted(result, ext.round2), ext.emitOk)
  }

  class VideoTranscriber {
    const modelSize: string
    var tempDir: Option<string>
    var files: set<string>
    var events: seq<Event>

    function State(): Host
      reads this
    {
      Host(files, events)
    }

    /** __init__: no temporary directory yet; `files` is the host's file system. */
    constructor (modelSize: string, files: set<string>)
      ensures this.modelSize == modelSize && tempDir == None
      ensures this.files == files && events == []
    {
      this.modelSize := modelSize;
      this.tempDir := None;
      this.files := files;
      this.events := [];
    }

    method DownloadAudio(url: string, outputPath: string, run: ToolRun) returns (ok: bool)
      modifies this`files, this`events
      ensures (ok, State()) == DownloadStep(old(State()), url, outputPath, run)
    {
      events := events + [YtDlp(url, "wav", outputPath)];
      match run
      case ExitFailure =>
        ok := false;
      case ExitSuccess(created) =>
        files := files + ToSet(created);
        ok := true;
    }

    method ExtractAudioToFile(url: string, outputAudioPath: string, audioFormat: string, run: ToolRun)
      returns (ok: bool)
      modifies this`files, this`events
      ensures (ok, State()) == ExtractStep(old(State()), url, outputAudioPath, audioFormat, run)
    {
      var outputDir := Dirname(outputAudioPath);
      if outputDir != "" && outputDir !in files {
        files := files + {outputDir};
      }
      var basePath := SplitExt(outputAudioPath).0;
      events := events + [YtDlp(url, audioFormat, basePath + "." + ExtField)];
      if run.ExitFailure? {
        return false;
      }
      files := files + ToSet(run.created);
      var expectedFile := basePath + "." + audioFormat;
      if expectedFile in files {
        if expectedFile != outputAudioPath {
          files := files - {expectedFile} + {outputAudioPath};
        }
        ok := true;
      } else {
        ok := false;
      }
    }

    method TranscribeAudio(audioPath: string, outcome: Option<Transcription>) returns (r: Option<Transcription>)
      modifies this`events
      ensures (r, State()) == TranscribeStep(old(State()), modelSize, audioPath, outcome)
    {
      events := events + [Whisper(modelSize, audioPath)];
      r := outcome;
    }

    method TranscribeLocalAudio(audioPath: string, outcome: Option<Transcription>) returns (r: Option<Transcription>)
      modifies this`events
      ensures (r, State()) == TranscribeLocalStep(old(State()), modelSize, audioPath, outcome)
    {
      if audioPath !in files {
        return None;
      }
      r := TranscribeAudio(audioPath, outcome);
    }

    /** The JSON output shared by both workflows. */
    method WriteJson(dest: Destination, records: seq<Record>, emitOk: bool) returns (ok: bool)
      modifies this`files, this`events
      ensures (ok, State()) == EmitStep(old(State()), dest, records, emitOk)
    {
      if !emitOk {
        return false;
      }
      match dest {
        case Stdout =>
          events := events + [Json(dest, records)];
        case File(p) =>
          files := files + {p};
          events := events + [Json(dest, records)];
      }
      ok := true;
    }

    method ProcessVideo(url: string, outputFile: Option<string>, ext: Externals, freshDir: string)
      returns (ok: bool)
      modifies this
      ensures tempDir == Some(freshDir)
      ensures (ok, State()) == TempModeRun(old(State()), modelSize, url, outputFile, ext, freshDir)
    {
      tempDir := Some(freshDir);
      files := files + {freshDir};
      var audioPath := TempTemplate(freshDir);
      ok := false;
      var downloaded := DownloadAudio(url, audioPath, ext.ytdlp);
      if downloaded {
        var audioFiles := AudioGlob(freshDir, ext.ytdlp.created);
        if audioFiles != [] {
          var result := TranscribeAudio(audioFiles[0], ext.transcription);
          if Truthy(result) {
            var formatted := FormatOutput(result, ext.round2);
            ok := WriteJson(TempDestination(outputFile), formatted, ext.emitOk);
          }
        }
      }
      Cleanup();
    }

    method ProcessVideoWithAudioSave(url: string, audioOutputPath: string, transcriptionOutputFile: Option<string>,
                                     audioFormat: string, ext: Externals, cwd: string)
      returns (ok: bool)
      modifies this`files, this`events
      ensures (ok, State()) ==
        PersistModeRun(old(State()), modelSize, url, audioOutputPath, transcriptionOutputFile, audioFormat, ext, cwd)
    {
      var audioDir := Join(cwd, "audio");
      if audioDir !in files {
        files := files + {audioDir};
      }
      var audioPath := Join(audioDir, Basename(audioOutputPath));
      var resultDir := Join(cwd, "result");
      var dest := Stdout;
      if Given(transcriptionOutputFile) {
        if resultDir !in files {
          files := files + {resultDir};
        }
        dest := File(Join(resultDir, Basename(transcriptionOutputFile.value)));
      }
      assert State() == PersistPrepare(old(State()), cwd, transcriptionOutputFile);
      assert audioPath == PersistAudioPath(cwd, audioOutputPath);
      assert dest == PersistDestination(cwd, transcriptionOutputFile);
      var extracted := ExtractAudioToFile(url, audioPath, audioFormat, ext.ytdlp);
      if !extracted {
        return false;
      }
      ghost var extractedState := State();
      var result := TranscribeLocalAudio(audioPath, ext.transcription);
      assert (result, State()) == TranscribeLocalStep(extractedState, modelSize, audioPath, ext.transcription);
      if !Truthy(result) {
        return false;
      }
      var formatted := FormatOutput(result, ext.round2);
      ok := WriteJson(dest, formatted, ext.emitOk);
    }

    method Cleanup()
      modifies this`files
      ensures State() == CleanupStep(old(State()), tempDir)
    {
      if tempDir.Some? && tempDir.value != "" && tempDir.value in files {
        files := RemoveTree(files, tempDir.value);
      }
    }
  }
}
