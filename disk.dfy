/** The part of the filesystem the orchestration core reads and writes: directory listings,
    job descriptor files (`mission*.json`), preset files and the scheduler's `config.json`. */
module Disk {
  import opened Wrappers
  import opened Strings
  import opened Paths

  /** One result of `os.listdir`, with `os.path.isfile` of the joined path. Entries that are not
      files are taken to be directories. */
  datatype Entry = Entry(name: string, isFile: bool)

  /** Suffixes recognised as input audio by the scheduler and the progress store. */
  const AudioExts: seq<string> := [".wav", ".flac", ".mp3", ".m4a", ".aac", ".ogg"]
  /** Suffixes recognised as input audio by the worker pipeline (no `.ogg`). */
  const WorkerAudioExts: seq<string> := [".wav", ".flac", ".mp3", ".m4a", ".aac"]
  /** Suffixes counted as produced output files. */
  const OutputExts: seq<string> := [".wav", ".flac", ".mp3"]

  predicate HasExt(name: string, exts: seq<string>) {
    EndsWithAny(Lower(name), exts)
  }

  predicate IsAudioFile(e: Entry) {
    e.isFile && HasExt(e.name, AudioExts)
  }

  /** Number of entries that are audio files. */
  function AudioCount(es: seq<Entry>): nat
    decreases |es|
  {
    if es == [] then 0 else AudioCount(es[..|es| - 1]) + (if IsAudioFile(es[|es| - 1]) then 1 else 0)
  }

  /** Number of entries that are directories. */
  function SubdirCount(es: seq<Entry>): nat
    decreases |es|
  {
    if es == [] then 0 else SubdirCount(es[..|es| - 1]) + (if es[|es| - 1].isFile then 0 else 1)
  }

  /** The directory entries, in listing order. */
  function Subdirs(es: seq<Entry>): (ds: seq<Entry>)
    ensures |ds| == SubdirCount(es)
    ensures forall d :: d in ds ==> d in es && !d.isFile
    decreases |es|
  {
    if es == [] then []
    else Subdirs(es[..|es| - 1]) + (if es[|es| - 1].isFile then [] else [es[|es| - 1]])
  }

  /** Listing one more entry adds it to the directories when it is one. */
  lemma SubdirsSnoc(es: seq<Entry>, i: nat)
    requires i < |es|
    ensures Subdirs(es[..i + 1]) == Subdirs(es[..i]) + (if es[i].isFile then [] else [es[i]])
  {
    assert es[..i + 1][..i] == es[..i];
  }

  /** Number of entries whose name carries an output suffix (files or not, as the source's
      list comprehensions over `os.listdir` do). */
  function OutputCount(es: seq<Entry>): nat
    decreases |es|
  {
    if es == [] then 0 else OutputCount(es[..|es| - 1]) + (if HasExt(es[|es| - 1].name, OutputExts) then 1 else 0)
  }

  /** Stated on its own so that counting loops need not unfold `AudioCount` to bound it. */
  lemma AudioCountBound(es: seq<Entry>)
    ensures AudioCount(es) <= |es|
  {
  }

  /** The progress summary a descriptor file carries (`progress` key; `{}` is None). */
  datatype Summary = Summary(processedFiles: int, totalFiles: int)

  /** A job descriptor file (`mission.json` / `mission_<name>.json`). A missing `state` key is "". */
  datatype Descriptor = Descriptor(
    inputDir: string,
    outputDir: string,
    presetName: string,
    outputFormat: string,
    skipExistingFiles: bool,
    state: string,
    progress: Option<Summary>)

  /** One step of a preset's flow. A missing `model_name` is None; a missing `input_to_next` is
      ""; a missing `output_to_storage` is []. */
  datatype Step = Step(modelType: string, modelName: Option<string>, inputToNext: string, outputToStorage: seq<string>)

  /** A preset file; `flow` and `steps` are the two keys under which steps may be listed. */
  datatype PresetDoc = PresetDoc(flow: Option<seq<Step>>, steps: Option<seq<Step>>)

  /** `os.listdir(p)` for an existing directory, and nothing otherwise. */
  function ListingIn(dirs: map<string, seq<Entry>>, p: string): seq<Entry> {
    if p in dirs then dirs[p] else []
  }

  /** A read-only view of the filesystem at one instant. */
  datatype FsView = FsView(
    dirs: map<string, seq<Entry>>,
    docs: map<string, Doc<Descriptor>>,
    presets: map<string, Doc<PresetDoc>>)
  {
    /** `os.listdir(p)` if `p` is an existing directory. */
    function Listing(p: string): Option<seq<Entry>> {
      if p in dirs then Some(dirs[p]) else None
    }

    function ListingOrEmpty(p: string): seq<Entry> {
      ListingIn(dirs, p)
    }
  }

  /** The mutable filesystem. Presets are keyed by preset name (`presets/<name>`); the scheduler's
      `config.json` is `threadConfig` (None when the file does not exist). */
  class Disk {
    var dirs: map<string, seq<Entry>>
    var docs: map<string, Doc<Descriptor>>
    var presets: map<string, Doc<PresetDoc>>
    var threadConfig: Option<int>

    constructor(dirs: map<string, seq<Entry>>, docs: map<string, Doc<Descriptor>>,
                presets: map<string, Doc<PresetDoc>>, threadConfig: Option<int>)
      ensures this.dirs == dirs && this.docs == docs && this.presets == presets
      ensures this.threadConfig == threadConfig
    {
      this.dirs, this.docs, this.presets, this.threadConfig := dirs, docs, presets, threadConfig;
    }

    function View(): FsView
      reads this
    {
      FsView(dirs, docs, presets)
    }
  }
}
