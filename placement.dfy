/**
  How the transcriber names files: the names handed to yt-dlp and checked
  afterwards by extract_audio_to_file, and the fixed "audio" and "result"
  sub-directories of the working directory used when the audio is kept.
 */
module Placement {
  import opened Wrappers
  import opened PyStr
  import opened PosixPath

  /** Where the JSON goes: standard output, or a file at a path. */
  datatype Destination = Stdout | File(path: string)

  /** Python truthiness of an optional path: None and "" are false. */
  predicate Given(o: Option<string>)
  {
    o.Some? && o.value != ""
  }

  /** yt-dlp's output template field for the extension it chooses. */
  const ExtField: string := "%(ext)s"

  /** The output template handed to yt-dlp: the requested path without its
      extension, then "." and the extension field. */
  function OutputTemplate(path: string): string
  {
    SplitExt(path).0 + "." + ExtField
  }

  /** The file extract_audio_to_file looks for afterwards: the same root with
      the requested format as extension. */
  function ExpectedFile(path: string, fmt: string): string
  {
    SplitExt(path).0 + "." + fmt
  }

  /** The found file is renamed to the requested path exactly when the two differ. */
  predicate NeedsRename(path: string, fmt: string)
  {
    ExpectedFile(path, fmt) != path
  }

  /** Filling a trailing extension field of a template with ext. */
  function FillExtField(template: string, ext: string): string
  {
    if |ExtField| <= |template| && template[|template| - |ExtField|..] == ExtField
    then template[..|template| - |ExtField|] + ext
    else template
  }

  /** The template and the expected file name denote the same file once the
      extension field is filled with the requested format. */
  lemma TemplateNamesExpectedFile(path: string, fmt: string)
    ensures FillExtField(OutputTemplate(path), fmt) == ExpectedFile(path, fmt)
  {
    var t := OutputTemplate(path);
    assert t[|t| - |ExtField|..] == ExtField;
    assert t[..|t| - |ExtField|] == SplitExt(path).0 + ".";
  }

  /** A rename happens if and only if the requested path does not already
      carry the requested format as its extension. */
  lemma RenameIffOtherExtension(path: string, fmt: string)
    ensures NeedsRename(path, fmt) <==> SplitExt(path).1 != "." + fmt
  {
    var root, ext := SplitExt(path).0, SplitExt(path).1;
    if ExpectedFile(path, fmt) == path {
      assert root + ext == root + ("." + fmt);
      assert ext == (root + ext)[|root|..];
    }
  }

  /** The expected file lies in the requested path's directory: the rename
      only changes the file name. */
  lemma ExpectedFileSameDirectory(path: string, fmt: string)
    requires '/' !in fmt
    ensures Dirname(ExpectedFile(path, fmt)) == Dirname(path)
  {
    var r := SplitExt(path);
    SplitExtNoSlash(path);
    var suffix := "." + fmt;
    assert ExpectedFile(path, fmt) == r.0 + suffix;
    assert '/' !in suffix by { assert suffix[0] == '.'; }
    SwapEnding(r.0, r.1, suffix);
  }

  /** The expected file's base name is the requested root's base name with
      "." and the format appended. */
  lemma ExpectedFileBasename(path: string, fmt: string)
    requires '/' !in fmt
    ensures Basename(ExpectedFile(path, fmt)) == Basename(SplitExt(path).0) + ("." + fmt)
  {
    var root := SplitExt(path).0;
    var suffix := "." + fmt;
    assert ExpectedFile(path, fmt) == root + suffix;
    assert '/' !in suffix by { assert suffix[0] == '.'; }
    AppendWithoutSlash(root, suffix);
  }

  /** For a requested name that is not empty and not made of dots, the expected
      file splits back into the requested root and "." + fmt. */
  lemma ExpectedFileExtension(path: string, fmt: string)
    requires '.' !in fmt && '/' !in fmt
    requires !Only(Basename(path), '.')
    ensures SplitExt(ExpectedFile(path, fmt)) == (SplitExt(path).0, "." + fmt)
  {
    var root, ext := SplitExt(path).0, SplitExt(path).1;
    if ext == [] {
      assert root == path;
    } else {
      SplitExtStem(path);
    }
    SplitExtAddExtension(root, fmt);
  }

  /** The directory that receives kept audio: "audio" under the working directory. */
  function AudioDir(cwd: string): string
  {
    Join(cwd, "audio")
  }

  /** The directory that receives the JSON when the audio is kept. */
  function ResultDir(cwd: string): string
  {
    Join(cwd, "result")
  }

  /** Where the audio is kept: the requested file name, in AudioDir. */
  function PersistAudioPath(cwd: string, requested: string): string
  {
    Join(AudioDir(cwd), Basename(requested))
  }

  /** Where the JSON goes when the audio is kept: the requested file name in
      ResultDir when one is given, standard output otherwise. */
  function PersistDestination(cwd: string, out: Option<string>): Destination
  {
    if Given(out) then File(Join(ResultDir(cwd), Basename(out.value))) else Stdout
  }

  /** Where the JSON goes in temporary-audio mode: the given path itself. */
  function TempDestination(out: Option<string>): Destination
  {
    if Given(out) then File(out.value) else Stdout
  }

  /** A plain name joined onto the working directory: a path below it whose
      base name is that name. */
  lemma SubdirOfCwd(cwd: string, name: string)
    requires name != [] && '/' !in name
    ensures StartsWith(Join(cwd, name), cwd)
    ensures Join(cwd, name) == cwd + name || Join(cwd, name) == cwd + "/" + name
    ensures Join(cwd, name) == cwd + name <==> cwd == [] || cwd[|cwd| - 1] == '/'
    ensures Basename(Join(cwd, name)) == name
    ensures Join(cwd, name) != [] && Join(cwd, name)[|Join(cwd, name)| - 1] != '/'
  {
    assert !StartsWith(name, "/") by { assert name[0] in name; }
    JoinExtends(cwd, name);
    JoinBasename(cwd, name);
    var r := Join(cwd, name);
    assert r[|r| - 1] == name[|name| - 1];
    assert name[|name| - 1] in name;
  }

  /** The kept audio always lands directly in cwd/audio under the requested
      base name, whatever directory the caller gave. */
  lemma PersistAudioPlacement(cwd: string, requested: string)
    ensures StartsWith(AudioDir(cwd), cwd) && Basename(AudioDir(cwd)) == "audio"
    ensures PersistAudioPath(cwd, requested) == AudioDir(cwd) + "/" + Basename(requested)
    ensures Basename(requested) != [] ==>
      Basename(PersistAudioPath(cwd, requested)) == Basename(requested)
      && Dirname(PersistAudioPath(cwd, requested)) == AudioDir(cwd)
  {
    SubdirOfCwd(cwd, "audio");
    JoinDirname(AudioDir(cwd), Basename(requested));
    if Basename(requested) != [] {
      JoinBasename(AudioDir(cwd), Basename(requested));
    }
  }

  /** Two requests that name the same file in different directories keep the
      audio at the same place. */
  lemma PersistAudioIgnoresCallerDirectory(cwd: string, dir: string, name: string)
    requires name != [] && '/' !in name
    ensures PersistAudioPath(cwd, Join(dir, name)) == PersistAudioPath(cwd, name)
  {
    JoinBasename(dir, name);
    RFindUnique(name, '/', -1);
  }

  /** The JSON of persist mode goes to cwd/result under the requested base name
      when a name is given, and to standard output otherwise. */
  lemma PersistJsonPlacement(cwd: string, out: Option<string>)
    ensures StartsWith(ResultDir(cwd), cwd) && Basename(ResultDir(cwd)) == "result"
    ensures Given(out) ==>
      PersistDestination(cwd, out) == File(ResultDir(cwd) + "/" + Basename(out.value))
    ensures !Given(out) ==> PersistDestination(cwd, out) == Stdout
  {
    SubdirOfCwd(cwd, "result");
    if Given(out) {
      JoinDirname(ResultDir(cwd), Basename(out.value));
    }
  }
}
