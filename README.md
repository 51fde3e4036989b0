# Video transcriber: a Dafny model

This project models the core of a command-line video transcriber. The tool
hands a video URL to yt-dlp to get an audio file, and hands that file to a
Whisper speech model. It reshapes Whisper's segments into a JSON array of
`{timestamp: {start, end}, sentence}` records and writes that array to a file
or prints it. The model covers three parts of `VideoTranscriber` in
`transcriber.py`:

- **The formatter** (`format_output`). It turns a transcription result into
  records: one per segment, in order, with rounded times and stripped text.
  It gives an empty list for a falsy result or one without "segments".
  `Format.FormatOutput` keeps the source's append loop and is proved against
  the comprehension `Format.FormatAll`.
- **The file names.**
  - What `extract_audio_to_file` hands yt-dlp (the output template
    `root.%(ext)s`) and what it looks for afterwards (`root.fmt`).
  - When it renames the result.
  - Where the persist workflow puts the kept audio (`cwd/audio/<base name>`)
    and the JSON (`cwd/result/<base name>`, or standard output).

  `os.path.basename`, `dirname`, `join` and `splitext` are modelled as string
  functions in `PosixPath` (POSIX rules). `str.strip` and `str.rfind` are
  modelled in `PyStr`.
- **The two workflows and `cleanup`.**
  - `process_video` runs in a temporary directory: download, glob `audio.*`,
    transcribe the first match, format, emit, and always clean up.
  - `process_video_with_audio_save` runs against the kept audio file: extract,
    transcribe if the file exists, format, emit.

  `Transcriber.VideoTranscriber` is a class that holds the two fields the
  source reads (`modelSize`, `tempDir`). It also holds the part of the host it
  acts on:
  - `files`: the set of paths that exist;
  - `events`: the observable effects so far, namely yt-dlp runs, Whisper runs
    and JSON emissions.

  Each method is proved equal to a step function on `Host(files, events)`.
  `WorkflowProperties` then proves the workflows' properties on those
  functions. Each workflow also has a separately written trace function
  (`TempModeTrace`, `PersistModeTrace`). That function lists, case by case,
  the effects the workflow should add to the log. A lemma shows the workflow
  adds exactly that trace and succeeds exactly when it should.

Whatever the outside world answers is a parameter: the `Externals` datatype.
It holds yt-dlp's exit and the files it wrote, Whisper's result, whether
printing or writing the JSON succeeds, and `round(x, 2)`. The name `tempfile.mkdtemp`
returns (`freshDir`) and `os.getcwd()` (`cwd`) are parameters too.

## Model

| member | source | states |
|---|---|---|
| Format.FormatOutput | transcriber.py:176-201 | A falsy result, or one without "segments", gives `[]`. Otherwise there is one record per segment, in segment order. Record i holds segment i's rounded start and end and its stripped text. The result equals `Formatted`. |
| Format.FormatAll | transcriber.py:191-199 | One record per segment: the output has exactly as many records as there are segments. |
| Format.FormatAllAppend | transcriber.py:191-199 | Formatting a concatenation of segment lists concatenates their records, so record order follows segment order. |
| Format.RecordOfSegment | transcriber.py:192-198 | Record i has timestamp `(round(start_i), round(end_i))`. Its sentence is the strip of text i: no whitespace at either end, and stripping it again changes nothing. |
| Format.RecordIsLocal | transcriber.py:191-199 | Record i depends only on segment i. |
| Format.FormattedEmpty | transcriber.py:186-189 | The output is empty if and only if one holds: the result is falsy, it has no "segments", or its segment list is empty. |
| PyStr.StripCharacterized | transcriber.py:197 | `r` is `text.strip()` if and only if two conditions hold. `r` is a slice of `text` with only whitespace outside it. `r` neither starts nor ends with whitespace. |
| PyStr.StripIdempotent | transcriber.py:197 | A stripped sentence has no whitespace at either end, and stripping it again is the identity. |
| PosixPath.Basename | transcriber.py:279 | `os.path.basename`: the longest suffix without '/', preceded by '/' unless it is the whole path. |
| PosixPath.DirnameShape | transcriber.py:51 | `os.path.dirname`: it is a prefix of the path, and only slashes lie between it and the base name. It ends in '/' only when it is all slashes. It is empty exactly when the path has no '/'. When everything before the base name is slashes, it is all of those slashes. |
| PosixPath.Join | transcriber.py:216 | `os.path.join(a, b)` ends with `b`. |
| PosixPath.JoinExtends | transcriber.py:276-280 | For a relative `b`, `os.path.join(a, b)` is `a + b` when `a` is empty or ends in '/', and `a + "/" + b` otherwise. |
| PosixPath.JoinBasename | transcriber.py:280 | Joining a nonempty name without '/' onto any directory gives that name back as the base name. |
| PosixPath.JoinDirname | transcriber.py:288 | Joining a name without '/' onto a directory that does not end in '/' gives `a + "/" + b`, whose dirname is that directory. |
| PosixPath.SplitExt | transcriber.py:56 | `os.path.splitext(p)`: root + ext == p. |
| PosixPath.SplitExtShape | transcriber.py:56 | A split-off extension is '.' followed by text without '.' or '/'. |
| PosixPath.SplitExtStem | transcriber.py:56 | An extension is split off only when the root's base name is not made of dots alone (a leading dot does not start an extension). |
| PosixPath.SplitExtNone | transcriber.py:56 | When nothing is split off, every character before a '.' of the base name is itself a '.'. |
| PosixPath.SplitExtAddExtension | transcriber.py:56-71 | Appending "." + ext (no '.' or '/' in ext) to a root whose base name is not all dots is undone by splitext. |
| PosixPath.AppendWithoutSlash | transcriber.py:71 | Appending text without '/' extends the base name by that text and keeps the dirname. |
| PosixPath.SwapEnding | transcriber.py:71-75 | Replacing one slash-free ending with another keeps the dirname. |
| Placement.TemplateNamesExpectedFile | transcriber.py:56-71 | Filling the trailing `%(ext)s` of the yt-dlp template with the requested format gives exactly the file the code then looks for. The rest of yt-dlp's template language is not modelled (see Left out). |
| Placement.RenameIffOtherExtension | transcriber.py:71-75 | The rename happens if and only if the requested path's extension is not "." + format. |
| Placement.ExpectedFileSameDirectory | transcriber.py:71-75 | The expected file lies in the requested path's directory, so the rename never moves the file across directories. |
| Placement.ExpectedFileBasename | transcriber.py:71 | The expected file's base name is the requested root's base name followed by "." + format. |
| Placement.ExpectedFileExtension | transcriber.py:56-71 | For a format without '.' or '/' and a base name that is not all dots, the expected file splits back into the same root and "." + format. |
| Placement.SubdirOfCwd | transcriber.py:276 | `join(cwd, name)` is `cwd + name` when cwd is empty or ends in '/', and `cwd + "/" + name` otherwise. It has base name `name` and does not end in '/'. |
| Placement.PersistAudioPlacement | transcriber.py:276-280 | The kept audio is `cwd/audio + "/" + basename(requested)`. It lies directly in cwd/audio and keeps the requested base name. |
| Placement.PersistAudioIgnoresCallerDirectory | transcriber.py:279-280 | Requests naming the same file in different directories keep the audio at the same path. |
| Placement.PersistJsonPlacement | transcriber.py:283-288 | With a JSON name given, the JSON goes to `cwd/result + "/" + basename(name)`. Otherwise it goes to standard output. |
| Transcriber.AudioGlob | transcriber.py:224 | A path is matched if and only if it was listed and names an `audio.*` entry directly in the directory. |
| Transcriber.VideoTranscriber.constructor | transcriber.py:24-32 | The model size is stored and there is no temporary directory yet. |
| Transcriber.VideoTranscriber.DownloadAudio | transcriber.py:107-141 | One yt-dlp run for wav output at the given path. Success is yt-dlp's success, and its files exist afterwards. |
| Transcriber.VideoTranscriber.ExtractAudioToFile | transcriber.py:34-89 | Creates a missing output directory and runs yt-dlp on the `root.%(ext)s` template. Succeeds exactly when `root.fmt` then exists, in which case it is renamed to the requested path when the two differ. |
| Transcriber.VideoTranscriber.TranscribeAudio | transcriber.py:143-174 | One Whisper run on the path with the object's model size. The result is Whisper's answer, None on failure. |
| Transcriber.VideoTranscriber.TranscribeLocalAudio | transcriber.py:91-105 | A missing file gives None and no Whisper run. Otherwise it acts as TranscribeAudio. |
| Transcriber.VideoTranscriber.WriteJson | transcriber.py:240-249 | Prints the records, or writes them to the file. When the print, or opening and writing the file, raises, nothing is emitted and failure is reported, for either destination. |
| Transcriber.VideoTranscriber.ProcessVideo | transcriber.py:203-257 | Sets `temp_dir` and creates it, then download, glob, transcribe the first match, format, emit, cleanup. The outcome and the new state are those of `TempModeRun`. |
| Transcriber.VideoTranscriber.ProcessVideoWithAudioSave | transcriber.py:259-316 | Creates cwd/audio (and cwd/result when a JSON name is given), then extract, transcribe the kept file, format, emit. The outcome and the new state are those of `PersistModeRun`. |
| Transcriber.VideoTranscriber.Cleanup | transcriber.py:318-323 | Removes the temporary directory tree when the field is set and the directory exists. Otherwise nothing changes. |
| WorkflowProperties.TempModeBodyLog | transcriber.py:214-253 | The steps from the download to the JSON succeed exactly when `TempModeSucceeds` holds, and add exactly `TempModeTrace` to the log. |
| WorkflowProperties.TempModeLog | transcriber.py:214-257 | `process_video` succeeds exactly when four things hold: yt-dlp succeeds, an `audio.*` file is found, Whisper's result is truthy, and the JSON can be emitted. It adds exactly `TempModeTrace` to the log. |
| WorkflowProperties.TempModeFailures | transcriber.py:218-234 | A yt-dlp failure, or no `audio.*` file, ends the run before Whisper. A falsy result fails the run. No failed run emits JSON. |
| WorkflowProperties.TempModeJsonIffSuccess | transcriber.py:236-253 | The run reports success if and only if it emits JSON. On success the JSON is the formatted result, emitted once, as the last effect. |
| WorkflowProperties.TempModeNoSegments | transcriber.py:186-189 | A truthy, well-formed result without "segments" still succeeds and emits `[]`. |
| WorkflowProperties.CleanupRemovesTree | transcriber.py:318-323 | Cleanup of an existing directory removes it and everything below it, and nothing else. |
| WorkflowProperties.TempModeRemovesTempDir | transcriber.py:255-257 | Whatever the outcome, nothing of the temporary directory is left. Every other path that existed before still exists. |
| WorkflowProperties.CleanupIdempotent | transcriber.py:318-323 | A second cleanup changes nothing. |
| WorkflowProperties.ExtractOutcome | transcriber.py:50-81 | Extraction succeeds if and only if yt-dlp succeeds and the expected file then exists. On success the requested path exists, and a renamed expected file is gone. It adds exactly one yt-dlp run to the log. |
| WorkflowProperties.PersistFinishLog | transcriber.py:294-312 | This assumes the kept file exists whenever extraction succeeded. Then a successful extraction is followed by exactly one Whisper run, and JSON is added exactly when the run succeeds. No path disappears. |
| WorkflowProperties.PersistModeOutcome | transcriber.py:290-312 | `process_video_with_audio_save` succeeds exactly when all three hold: the extraction succeeds, the result is truthy, and the JSON can be emitted. After a successful extraction the kept audio exists at the end. |
| WorkflowProperties.PersistLogAt | transcriber.py:290-312 | From any state and for any audio path and destination, extraction followed by the rest of persist mode adds exactly `PersistModeTrace` to the log. |
| WorkflowProperties.PersistModeLog | transcriber.py:274-312 | Persist mode adds exactly `PersistModeTrace` to the log. |
| WorkflowProperties.PersistTranscribesIffExtracted | transcriber.py:290-297 | Whisper runs if and only if the extraction succeeded. Success implies extraction. JSON is emitted if and only if the run succeeds. |

## Left out

- yt-dlp and Whisper are not modelled. Each run is an outcome: an exit status with the paths written, and a result mapping or None. The command-line flags other than format and output, captured stderr, `whisper.load_model`, `word_timestamps` and model loading are not represented.
- Format.FormatOutput: `round(x, 2)` is an uninterpreted function `round2` on reals. Floating-point rounding itself is not modelled.
- Format.FormatOutput: a segment missing "start", "end" or "text", or with a non-string text, would raise in the source and fail the workflow. Segments in the model are always well formed.
- JSON serialisation (`json.dumps` with `indent=2`, `ensure_ascii=False`, UTF-8) is not modelled. The emitted value is the list of records itself.
- Logging and `print` of messages are not modelled; they change no state the core reads.
- The file system is the set of existing paths. `os.makedirs` adds only the directory itself, not its missing ancestors. Failures of `makedirs` and `rename`, which the source turns into `False`, are not modelled. A failing `shutil.rmtree` is not modelled either. It would not become `False`: `cleanup` runs in the `finally` of `process_video`, so its exception leaves `process_video` even after `return True` and reaches the handler in `main`. WorkflowProperties.TempModeRemovesTempDir therefore assumes that `rmtree` succeeds. `os.rename` onto an existing path is a set update. A written JSON file is only a path that now exists; its contents are the `Json` event.
- Emitting the JSON is a single yes/no answer, `emitOk`: for standard output whether `print` returns, for a file whether opening and writing it succeed. A write that raises after the file was opened leaves no file in the model, while the source would leave it created or truncated.
- Transcriber.RemoveTree: is the abstraction of `shutil.rmtree` and carries no contract of its own. What removal promises is stated by Transcriber.VideoTranscriber.Cleanup, WorkflowProperties.CleanupRemovesTree and WorkflowProperties.TempModeRemovesTempDir.
- A Python mapping cannot hold "segments" twice, but the Transcription datatype does not rule that out. Lemmas that need this require `Format.WellFormed`.
- `Path.glob` order is not modelled separately: the glob sees the files yt-dlp wrote, in the order they are listed. The temporary directory is assumed to hold no other `audio.*` files.
- Placement.TemplateNamesExpectedFile: fills only the trailing `%(ext)s` and copies the root as it is. yt-dlp expands every `%(field)s` and `%%` in the `--output` template. So a requested name whose root holds `%`, such as `clip%(id)s.wav`, makes yt-dlp write a different file than `ExpectedFile`. The source then fails at transcriber.py:79-81. The model does not predict which file yt-dlp writes: the yt-dlp outcome supplies the paths written, so ExtractStep likewise fails when `ExpectedFile` is not among the existing paths.
- The source's default arguments are not modelled as defaults: `model_size="base"`, `audio_format="wav"`, `output_file=None` and `transcription_output_file=None` (transcriber.py:24, 34, 203, 260-261). In the model every argument is passed explicitly. A caller that relies on a default, such as `VideoTranscriber()` at audio_extractor.py:64, corresponds to passing the default value.
- `tempfile.mkdtemp` is a parameter `freshDir`. WorkflowProperties.TempModeRemovesTempDir requires `freshDir != ""`, which mkdtemp always meets.
- Cleanup leaves `temp_dir` set after removing the directory, as the source does.
- `main`, argparse, the command-line checks for installed tools, `KeyboardInterrupt` handling, `audio_extractor.py`, `test_url.py` and `example_usage.py` are not part of this model.
- Unicode whitespace for `str.strip` is the fixed set of code points Python's `str.isspace` accepts. Case folding and normalisation play no part.
