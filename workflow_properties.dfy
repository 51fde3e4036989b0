/**
  What the two workflows of VideoTranscriber guarantee, stated on the step
  functions their methods are proved against. For each workflow, a trace
  function lists the effects it should add to the log, case by case; one lemma
  proves the workflow adds exactly that trace, and the others read the
  failure, success and emission properties off it.
 */
module WorkflowProperties {
  import opened Wrappers
  import opened PyStr
  import opened PosixPath
  import opened Format
  import opened Placement
  import opened Transcriber

  predicate EmitsJson(evs: seq<Event>)
  {
    exists e :: e in evs && e.Json?
  }

  predicate RunsWhisper(evs: seq<Event>)
  {
    exists e :: e in evs && e.Whisper?
  }

  /** The yt-dlp call of temporary-audio mode. */
  function TempDownload(url: string, dir: string): Event
  {
    YtDlp(url, "wav", TempTemplate(dir))
  }

  /** When temporary-audio mode should succeed: yt-dlp succeeds, the glob finds
      an audio file, Whisper's result is truthy and the JSON can be emitted. */
  predicate TempModeSucceeds(ext: Externals, dir: string)
  {
    && ext.ytdlp.ExitSuccess?
    && AudioGlob(dir, ext.ytdlp.created) != []
    && Truthy(ext.transcription)
    && ext.emitOk
  }

  /** The effects temporary-audio mode should add: the yt-dlp run; then, when
      an audio file was found, the transcription of the first match; then,
      when it succeeds, the JSON of the formatted result. */
  function TempModeTrace(model: string, url: string, out: Option<string>, ext: Externals, dir: string): seq<Event>
  {
    if ext.ytdlp.ExitFailure? || AudioGlob(dir, ext.ytdlp.created) == [] then
      [TempDownload(url, dir)]
    else if !TempModeSucceeds(ext, dir) then
      [TempDownload(url, dir), Whisper(model, AudioGlob(dir, ext.ytdlp.created)[0])]
    else
      [TempDownload(url, dir), Whisper(model, AudioGlob(dir, ext.ytdlp.created)[0]),
       Json(TempDestination(out), Formatted(ext.transcription, ext.round2))]
  }

  /** The body of temporary-audio mode succeeds exactly as TempModeSucceeds
      says and adds exactly TempModeTrace to the log. */
  lemma TempModeBodyLog(h1: Host, model: string, url: string, out: Option<string>, ext: Externals, dir: string)
    ensures TempModeBody(h1, model, url, out, ext, dir).0 == TempModeSucceeds(ext, dir)
    ensures TempModeBody(h1, model, url, out, ext, dir).1.events == h1.events + TempModeTrace(model, url, out, ext, dir)
  {
    var (downloaded, h2) := DownloadStep(h1, url, TempTemplate(dir), ext.ytdlp);
    assert h2.events == h1.events + [TempDownload(url, dir)];
    if downloaded {
      var audioFiles := AudioGlob(dir, ext.ytdlp.created);
      if audioFiles != [] {
        var (result, h3) := TranscribeStep(h2, model, audioFiles[0], ext.transcription);
        assert h3.events == h1.events + [TempDownload(url, dir), Whisper(model, audioFiles[0])];
        if Truthy(result) {
          var records := Formatted(result, ext.round2);
          var (emitted, h4) := EmitStep(h3, TempDestination(out), records, ext.emitOk);
          assert emitted ==> h4.events == h3.events + [Json(TempDestination(out), records)];
        }
      }
    }
  }

  /** Temporary-audio mode succeeds exactly as TempModeSucceeds says and adds
      exactly TempModeTrace to the log; the cleanup adds nothing. */
  lemma TempModeLog(h0: Host, model: string, url: string, out: Option<string>, ext: Externals, dir: string)
    ensures TempModeRun(h0, model, url, out, ext, dir).0 == TempModeSucceeds(ext, dir)
    ensures TempModeRun(h0, model, url, out, ext, dir).1.events == h0.events + TempModeTrace(model, url, out, ext, dir)
  {
    TempModeBodyLog(h0.(files := h0.files + {dir}), model, url, out, ext, dir);
  }

  /** When yt-dlp fails, or no audio.* file is found, the run fails and Whisper
      is never started; when Whisper's result is falsy, the run fails; in none
      of these cases is any JSON emitted. */
  lemma TempModeFailures(model: string, url: string, out: Option<string>, ext: Externals, dir: string)
    ensures ext.ytdlp.ExitFailure? ==> TempModeTrace(model, url, out, ext, dir) == [TempDownload(url, dir)]
    ensures ext.ytdlp.ExitSuccess? && AudioGlob(dir, ext.ytdlp.created) == [] ==>
      TempModeTrace(model, url, out, ext, dir) == [TempDownload(url, dir)]
    ensures !Truthy(ext.transcription) ==> !TempModeSucceeds(ext, dir)
    ensures !TempModeSucceeds(ext, dir) ==> !EmitsJson(TempModeTrace(model, url, out, ext, dir))
  {
    var t := TempModeTrace(model, url, out, ext, dir);
    if !TempModeSucceeds(ext, dir) {
      forall e | e in t ensures !e.Json? {
      }
    }
  }

  /** The run reports success if and only if it emits JSON, and then the JSON
      is the formatted result, emitted once, as the last effect. */
  lemma TempModeJsonIffSuccess(model: string, url: string, out: Option<string>, ext: Externals, dir: string)
    ensures TempModeSucceeds(ext, dir) <==> EmitsJson(TempModeTrace(model, url, out, ext, dir))
    ensures var t := TempModeTrace(model, url, out, ext, dir);
      TempModeSucceeds(ext, dir) ==>
        t[|t| - 1] == Json(TempDestination(out), Formatted(ext.transcription, ext.round2))
        && forall i :: 0 <= i < |t| - 1 ==> !t[i].Json?
  {
    var t := TempModeTrace(model, url, out, ext, dir);
    if TempModeSucceeds(ext, dir) {
      assert t[2] in t;
    } else {
      TempModeFailures(model, url, out, ext, dir);
    }
  }

  /** A truthy result without "segments" still succeeds, and emits an empty array. */
  lemma TempModeNoSegments(model: string, url: string, out: Option<string>, ext: Externals, dir: string,
                           keys: set<string>)
    requires ext.ytdlp.ExitSuccess? && AudioGlob(dir, ext.ytdlp.created) != []
    requires ext.transcription == Some(Transcription(None, keys)) && WellFormed(ext.transcription.value)
    requires keys != {}
    requires ext.emitOk
    ensures TempModeSucceeds(ext, dir)
    ensures TempModeTrace(model, url, out, ext, dir)[2] == Json(TempDestination(out), [])
  {
  }

  /** The steps between mkdtemp and cleanup only add files. */
  lemma TempModeBodyKeepsFiles(h: Host, model: string, url: string, out: Option<string>, ext: Externals,
                               dir: string)
    ensures h.files <= TempModeBody(h, model, url, out, ext, dir).1.files
  {
    var (downloaded, h1) := DownloadStep(h, url, TempTemplate(dir), ext.ytdlp);
    assert h.files <= h1.files;
  }

  /** Cleanup of an existing directory removes it with everything under it,
      and nothing else. */
  lemma CleanupRemovesTree(h: Host, dir: string)
    requires dir != "" && dir in h.files
    ensures var c := CleanupStep(h, Some(dir));
      && dir !in c.files
      && (forall f :: f in c.files ==> !InTree(f, dir))
      && (forall f :: f in h.files && !InTree(f, dir) ==> f in c.files)
  {
    assert InTree(dir, dir);
  }

  /** Whatever its outcome, temporary-audio mode leaves nothing of its
      temporary directory behind, and keeps every other path that existed. */
  lemma TempModeRemovesTempDir(h0: Host, model: string, url: string, out: Option<string>, ext: Externals, dir: string)
    requires dir != ""
    ensures var h := TempModeRun(h0, model, url, out, ext, dir).1;
      dir !in h.files && forall f :: f in h.files ==> !InTree(f, dir)
    ensures var h := TempModeRun(h0, model, url, out, ext, dir).1;
      forall f :: f in h0.files && !InTree(f, dir) ==> f in h.files
  {
    var start := h0.(files := h0.files + {dir});
    TempModeBodyKeepsFiles(start, model, url, out, ext, dir);
    var body := TempModeBody(start, model, url, out, ext, dir).1;
    CleanupRemovesTree(body, dir);
  }

  /** Cleaning up twice is the same as once: the later call finds no directory. */
  lemma CleanupIdempotent(h: Host, tempDir: Option<string>)
    ensures CleanupStep(CleanupStep(h, tempDir), tempDir) == CleanupStep(h, tempDir)
  {
  }

  /** The files once extraction has made the output directory, if any. */
  function WithDir(files: set<string>, d: string): set<string>
  {
    if d != "" then files + {d} else files
  }

  /** Extraction succeeds exactly when yt-dlp succeeds and the expected file is
      then present; afterwards the requested path exists, and the expected file
      is gone when it was renamed. */
  lemma ExtractOutcome(h: Host, url: string, path: string, fmt: string, run: ToolRun)
    ensures var r := ExtractStep(h, url, path, fmt, run);
      r.0 <==> run.ExitSuccess? && ExpectedFile(path, fmt) in WithDir(h.files, Dirname(path)) + ToSet(run.created)
    ensures var r := ExtractStep(h, url, path, fmt, run);
      r.0 ==> path in r.1.files && (NeedsRename(path, fmt) ==> ExpectedFile(path, fmt) !in r.1.files)
    ensures ExtractStep(h, url, path, fmt, run).1.events == h.events + [YtDlp(url, fmt, OutputTemplate(path))]
  {
    var outDir := Dirname(path);
    var h1 := if outDir != "" && outDir !in h.files then h.(files := h.files + {outDir}) else h;
    assert h1.files == WithDir(h.files, outDir);
  }

  /** The part of ExtractOutcome that the rest of persist mode relies on. */
  lemma ExtractKeepsPath(h: Host, url: string, path: string, fmt: string, run: ToolRun)
    ensures var r := ExtractStep(h, url, path, fmt, run);
      && (r.0 ==> path in r.1.files)
      && r.1.events == h.events + [YtDlp(url, fmt, OutputTemplate(path))]
  {
    ExtractOutcome(h, url, path, fmt, run);
  }

  /** The extraction run of persist mode. */
  function PersistExtraction(h0: Host, url: string, audioOut: string, out: Option<string>, fmt: string,
                             ext: Externals, cwd: string): (bool, Host)
  {
    ExtractStep(PersistPrepare(h0, cwd, out), url, PersistAudioPath(cwd, audioOut), fmt, ext.ytdlp)
  }

  /** When persist mode should succeed, given whether the extraction did. */
  predicate PersistModeSucceeds(extracted: bool, ext: Externals)
  {
    extracted && Truthy(ext.transcription) && ext.emitOk
  }

  /** The effects persist mode should add after the extraction run: when the
      extraction succeeded, the transcription of the kept file; when the run
      succeeds, the JSON. */
  function PersistFinishTrace(extracted: bool, model: string, audioPath: string, dest: Destination,
                              ext: Externals): seq<Event>
  {
    (if !extracted then [] else [Whisper(model, audioPath)])
      + (if PersistModeSucceeds(extracted, ext) then [Json(dest, Formatted(ext.transcription, ext.round2))]
         else [])
  }

  /** The effects persist mode should add, for the audio path and JSON
      destination it derives: the extraction run, then PersistFinishTrace. */
  function PersistModeTrace(extracted: bool, model: string, url: string, fmt: string, audioPath: string,
                            dest: Destination, ext: Externals): seq<Event>
  {
    [YtDlp(url, fmt, OutputTemplate(audioPath))] + PersistFinishTrace(extracted, model, audioPath, dest, ext)
  }

  lemma AppendChain<T>(e0: seq<T>, e1: seq<T>, e2: seq<T>, y: T, f: seq<T>)
    requires e1 == e0 + [y] && e2 == e1 + f
    ensures e2 == e0 + ([y] + f)
  {
  }

  /** What persist mode does after the extraction, for a file that exists
      when extraction succeeded. */
  lemma PersistFinishLog(extraction: (bool, Host), model: string, audioPath: string, dest: Destination,
                         ext: Externals)
    requires extraction.0 ==> audioPath in extraction.1.files
    ensures var r := PersistFinish(extraction, model, audioPath, dest, ext);
      && r.0 == PersistModeSucceeds(extraction.0, ext)
      && r.1.events == extraction.1.events + PersistFinishTrace(extraction.0, model, audioPath, dest, ext)
      && extraction.1.files <= r.1.files
  {
  }

  /** Persist mode succeeds exactly as PersistModeSucceeds says and keeps the
      extracted audio file in cwd/audio. */
  lemma PersistModeOutcome(h0: Host, model: string, url: string, audioOut: string, out: Option<string>,
                           fmt: string, ext: Externals, cwd: string)
    ensures var x := PersistExtraction(h0, url, audioOut, out, fmt, ext, cwd).0;
            var r := PersistModeRun(h0, model, url, audioOut, out, fmt, ext, cwd);
      && r.0 == PersistModeSucceeds(x, ext)
      && (x ==> PersistAudioPath(cwd, audioOut) in r.1.files)
  {
    var audioPath := PersistAudioPath(cwd, audioOut);
    var dest := PersistDestination(cwd, out);
    var h1 := PersistPrepare(h0, cwd, out);
    var extraction := ExtractStep(h1, url, audioPath, fmt, ext.ytdlp);
    ExtractOutcome(h1, url, audioPath, fmt, ext.ytdlp);
    PersistFinishLog(extraction, model, audioPath, dest, ext);
  }

  /** Creating cwd/audio and cwd/result adds nothing to the log. */
  lemma PrepareKeepsEvents(h: Host, cwd: string, out: Option<string>)
    ensures PersistPrepare(h, cwd, out).events == h.events
  {
  }

  /** After preparing the directories, persist mode adds exactly
      PersistModeTrace to the log, whatever the audio path and destination. */
  lemma PersistLogAt(h1: Host, model: string, url: string, audioPath: string, fmt: string, dest: Destination,
                     ext: Externals)
    ensures var extraction := ExtractStep(h1, url, audioPath, fmt, ext.ytdlp);
      PersistFinish(extraction, model, audioPath, dest, ext).1.events
        == h1.events + PersistModeTrace(extraction.0, model, url, fmt, audioPath, dest, ext)
  {
    var extraction := ExtractStep(h1, url, audioPath, fmt, ext.ytdlp);
    ExtractKeepsPath(h1, url, audioPath, fmt, ext.ytdlp);
    PersistFinishLog(extraction, model, audioPath, dest, ext);
    var r := PersistFinish(extraction, model, audioPath, dest, ext);
    AppendChain(h1.events, extraction.1.events, r.1.events, YtDlp(url, fmt, OutputTemplate(audioPath)),
                PersistFinishTrace(extraction.0, model, audioPath, dest, ext));
  }

  /** Persist mode adds exactly PersistModeTrace to the log. */
  lemma PersistModeLog(h0: Host, model: string, url: string, audioOut: string, out: Option<string>,
                       fmt: string, ext: Externals, cwd: string)
    ensures var x := PersistExtraction(h0, url, audioOut, out, fmt, ext, cwd).0;
            var r := PersistModeRun(h0, model, url, audioOut, out, fmt, ext, cwd);
      r.1.events == h0.events
        + PersistModeTrace(x, model, url, fmt, PersistAudioPath(cwd, audioOut), PersistDestination(cwd, out), ext)
  {
    PrepareKeepsEvents(h0, cwd, out);
    PersistLogAt(PersistPrepare(h0, cwd, out), model, url, PersistAudioPath(cwd, audioOut), fmt,
                 PersistDestination(cwd, out), ext);
  }

  /** Persist mode transcribes if and only if the extraction succeeded, and
      never reports success without it; it emits JSON if and only if it succeeds. */
  lemma PersistTranscribesIffExtracted(extracted: bool, model: string, url: string, fmt: string,
                                       audioPath: string, dest: Destination, ext: Externals)
    ensures RunsWhisper(PersistModeTrace(extracted, model, url, fmt, audioPath, dest, ext)) <==> extracted
    ensures PersistModeSucceeds(extracted, ext) ==> extracted
    ensures EmitsJson(PersistModeTrace(extracted, model, url, fmt, audioPath, dest, ext))
      <==> PersistModeSucceeds(extracted, ext)
  {
    var t := PersistModeTrace(extracted, model, url, fmt, audioPath, dest, ext);
    if extracted {
      assert t[1] in t;
    }
    if PersistModeSucceeds(extracted, ext) {
      assert t[2] in t;
    }
  }
}
