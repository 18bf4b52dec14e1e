/**
 * The batch walk of upload/upload.ts (`readDirAndUpload`, `optimizeAndUpload`,
 * `blurAndUploadAlbumPhoto`, `uploadFile`) as a sequential program over a
 * recorded list of actions.
 *
 * The directory listings are given up front; the cloud store is an existence
 * oracle and an upload is a recorded action; the image codec is an oracle from
 * (source file, quality) to the byte size written, plus each source's dimensions.
 * Each method is specified by a function on the state before it, and the
 * properties of the script are lemmas about those functions.
 */
module UploadPipeline {
  import opened Strings
  import opened Types
  import opened Globals
  import opened QualitySearch
  import opened UploadRules

  /** An entry of a directory listing. */
  datatype Entry = Entry(name: string, isDir: bool)

  /** An entry of the upload directory and, when it is a directory, its own listing. */
  datatype FolderListing = FolderListing(name: string, isDir: bool, files: seq<Entry>)

  datatype Dims = Dims(width: nat, height: nat)

  /** What one image write produces. */
  datatype Render =
    | Optimized(centre: string, quality: Quality)
    | Blurred(resize: Resize, quality: Quality)
    | FullResolution(watermark: Watermark, quality: Quality)
    | AlbumBlurred(height: nat, width: nat, quality: Quality)

  datatype Action =
    | Mkdir(dir: string)
    | Write(source: string, target: string, render: Render)
    | Upload(localPath: string, remotePath: string)
    | NotADirectory(path: string)
    | NotAFile(path: string)

  /** The fast-upload flag and the oracles standing for the store and the codec. */
  datatype Config = Config(
    fast: bool,
    remoteExists: string -> bool,
    sizeBytes: (string, Quality) -> nat,
    dims: string -> Dims)

  /** The local paths of existing files and directories, and the actions so far. */
  datatype State = State(localPaths: set<string>, actions: seq<Action>)

  /** The local and remote paths of one regular photo's three outputs. */
  datatype Job = Job(
    source: string,
    fullLocal: string, fullRemote: string,
    optimizedLocal: string, optimizedRemote: string,
    blurLocal: string, blurRemote: string)

  function Encoder(cfg: Config, source: string): Quality -> nat {
    q => cfg.sizeBytes(source, q)
  }

  // ---------------------------------------------------------------------------
  // Specification functions

  /** `uploadFile`: nothing in fast mode when the remote file exists, an upload otherwise. */
  function UploadFileActions(cfg: Config, localPath: string, remotePath: string): seq<Action> {
    if SkipsUpload(cfg.fast, [cfg.remoteExists(remotePath)]) then [] else [Upload(localPath, remotePath)]
  }

  /** The writes of the optimized file, one per encode attempt. */
  function AttemptWrites(job: Job, attempts: seq<Attempt>): (r: seq<Action>)
    ensures |r| == |attempts|
    ensures forall i :: 0 <= i < |r| ==>
      r[i] == Write(job.source, job.optimizedLocal, Optimized(WatermarkFor(job.source).centre, attempts[i].encoded))
  {
    seq(|attempts|, i requires 0 <= i < |attempts| =>
      Write(job.source, job.optimizedLocal, Optimized(WatermarkFor(job.source).centre, attempts[i].encoded)))
  }

  /** After acceptance: the blur and full-resolution writes, then the three uploads. */
  function FinishActions(cfg: Config, job: Job): seq<Action> {
    var d := cfg.dims(job.source);
    [ Write(job.source, job.blurLocal, Blurred(BlurResize(d.width, d.height), 10)),
      Write(job.source, job.fullLocal, FullResolution(WatermarkFor(job.source), 100)) ]
    + UploadFileActions(cfg, job.fullLocal, job.fullRemote)
    + UploadFileActions(cfg, job.optimizedLocal, job.optimizedRemote)
    + UploadFileActions(cfg, job.blurLocal, job.blurRemote)
  }

  /** `optimizeAndUpload` from a quality and an iteration. */
  function OptimizeActions(cfg: Config, job: Job, quality: int, iteration: nat): seq<Action> {
    AttemptWrites(job, Attempts(Encoder(cfg, job.source), quality, iteration)) + FinishActions(cfg, job)
  }

  /** `blurAndUploadAlbumPhoto`. */
  function AlbumActions(cfg: Config, albumLocal: string, albumRemote: string): seq<Action> {
    var blurredLocal := BlurredAlbumPath(albumLocal);
    [Write(albumLocal, blurredLocal, AlbumBlurred(200, 200, 10))]
    + UploadFileActions(cfg, albumLocal, albumRemote)
    + UploadFileActions(cfg, blurredLocal, BlurredAlbumPath(albumRemote))
  }

  function LocalDirs(folderPath: string): (dirs: seq<string>)
    ensures |dirs| == |DirNames|
    ensures forall i :: 0 <= i < |dirs| ==> dirs[i] == folderPath + "/" + DirNames[i]
  {
    seq(|DirNames|, i requires 0 <= i < |DirNames| => folderPath + "/" + DirNames[i])
  }

  function RegularJob(folderPath: string, folderName: string, file: string): Job {
    var remote := RegularRemotePaths(folderName, file);
    var dirs := LocalDirs(folderPath);
    Job(folderPath + "/" + file,
        dirs[0] + "/" + file, remote[0],
        dirs[1] + "/" + file, remote[1],
        dirs[2] + "/" + file, remote[2])
  }

  /** The per-photo gate over the three remote paths. */
  predicate JobRuns(cfg: Config, job: Job) {
    DoUpload(cfg.fast, cfg.remoteExists(job.fullRemote), cfg.remoteExists(job.optimizedRemote), cfg.remoteExists(job.blurRemote))
  }

  function RegularPhotoStep(cfg: Config, folderPath: string, folderName: string, file: string, st: State): State {
    var job := RegularJob(folderPath, folderName, file);
    if JobRuns(cfg, job) then
      State(st.localPaths + {job.optimizedLocal, job.blurLocal, job.fullLocal},
            st.actions + OptimizeActions(cfg, job, StartingQuality, 0))
    else st
  }

  function AlbumPhotoStep(cfg: Config, folderPath: string, folderName: string, file: string, st: State): State {
    var albumLocal := folderPath + "/" + file;
    State(st.localPaths + {BlurredAlbumPath(albumLocal)},
          st.actions + AlbumActions(cfg, albumLocal, AlbumRemotePath(folderName, file)))
  }

  /** `gcpDirNames.some(each => path.endsWith(each))`: an output directory of its own. */
  predicate IsOutputDir(path: string) {
    exists i :: 0 <= i < |DirNames| && EndsWith(path, DirNames[i])
  }

  /** One entry of a collection folder. */
  function FileStep(cfg: Config, folderPath: string, folderName: string, e: Entry, st: State): State {
    var filePath := folderPath + "/" + e.name;
    if !e.isDir then
      if IsAlbumPhoto(e.name) then AlbumPhotoStep(cfg, folderPath, folderName, e.name, st)
      else RegularPhotoStep(cfg, folderPath, folderName, e.name, st)
    else if IsOutputDir(filePath) then st
    else State(st.localPaths, st.actions + [NotAFile(filePath)])
  }

  function FilesStep(cfg: Config, folderPath: string, folderName: string, files: seq<Entry>, st: State): State
    decreases |files|
  {
    if files == [] then st
    else FileStep(cfg, folderPath, folderName, Last(files), FilesStep(cfg, folderPath, folderName, files[..|files| - 1], st))
  }

  /** `if (!fs.existsSync(dir)) fs.mkdir(dir)`. */
  function EnsureDir(dir: string, st: State): State {
    if dir in st.localPaths then st else State(st.localPaths + {dir}, st.actions + [Mkdir(dir)])
  }

  function EnsureDirs(dirs: seq<string>, st: State): State
    decreases |dirs|
  {
    if dirs == [] then st else EnsureDir(Last(dirs), EnsureDirs(dirs[..|dirs| - 1], st))
  }

  /** One entry of the upload directory. */
  function FolderStep(cfg: Config, f: FolderListing, st: State): State {
    var folderPath := UploadPhotoDir + "/" + f.name;
    if f.isDir then FilesStep(cfg, folderPath, f.name, f.files, EnsureDirs(LocalDirs(folderPath), st))
    else State(st.localPaths, st.actions + [NotADirectory(folderPath)])
  }

  function RunStep(cfg: Config, folders: seq<FolderListing>, st: State): State
    decreases |folders|
  {
    if folders == [] then st else FolderStep(cfg, Last(folders), RunStep(cfg, folders[..|folders| - 1], st))
  }

  // ---------------------------------------------------------------------------
  // The script

  class Uploader {
    const cfg: Config
    var localPaths: set<string>
    var actions: seq<Action>

    function Snapshot(): State
      reads this
    {
      State(localPaths, actions)
    }

    constructor(cfg: Config, localPaths: set<string>)
      ensures this.cfg == cfg && Snapshot() == State(localPaths, [])
    {
      this.cfg := cfg;
      this.localPaths := localPaths;
      this.actions := [];
    }

    method UploadFile(localPath: string, remotePath: string)
      modifies this
      ensures Snapshot() == State(old(localPaths), old(actions) + UploadFileActions(cfg, localPath, remotePath))
    {
      if cfg.fast {
        var existsReply := [cfg.remoteExists(remotePath)];
        if false !in existsReply {
          return;
        }
      }
      actions := actions + [Upload(localPath, remotePath)];
    }

    method OptimizeAndUpload(job: Job, quality: int, iteration: nat)
      modifies this
      decreases 15 - iteration
      ensures localPaths == old(localPaths) + OutputPaths(job)
      ensures actions == old(actions) + OptimizeActions(cfg, job, quality, iteration)
    {
      var watermark := WatermarkFor(job.source);
      var q := ClampQuality(quality);
      var bytes := cfg.sizeBytes(job.source, q);
      var w := Write(job.source, job.optimizedLocal, Optimized(watermark.centre, q));
      localPaths := localPaths + {job.optimizedLocal};
      actions := actions + [w];
      var fileSizeKB := SizeKB(bytes);
      AttemptsUnfold(cfg, job, quality, iteration, w, fileSizeKB);
      if Accepts(iteration, fileSizeKB) {
        FinishUpload(job, watermark);
        ConcatAssoc(old(actions), [w], FinishActions(cfg, job));
        OutputPathsAdded(old(localPaths), job);
      } else {
        NumIterationsValue();
        var newQuality := NextQuality(quality, fileSizeKB);
        OptimizeAndUpload(job, newQuality, iteration + 1);
        ConcatAssoc(old(actions), [w], OptimizeActions(cfg, job, newQuality, iteration + 1));
        OutputPathsAdded(old(localPaths), job);
      }
    }

    /** The accepted branch of `optimizeAndUpload`: blur and full-resolution writes, then uploads. */
    method FinishUpload(job: Job, watermark: Watermark)
      requires watermark == WatermarkFor(job.source)
      modifies this
      ensures localPaths == old(localPaths) + {job.blurLocal, job.fullLocal}
      ensures actions == old(actions) + FinishActions(cfg, job)
    {
      var d := cfg.dims(job.source);
      var writes := [ Write(job.source, job.blurLocal, Blurred(BlurResize(d.width, d.height), 10)),
                      Write(job.source, job.fullLocal, FullResolution(watermark, 100)) ];
      localPaths := localPaths + {job.blurLocal, job.fullLocal};
      actions := actions + writes;
      ghost var a1 := actions;
      UploadFile(job.fullLocal, job.fullRemote);
      ghost var a2 := actions;
      UploadFile(job.optimizedLocal, job.optimizedRemote);
      ghost var a3 := actions;
      UploadFile(job.blurLocal, job.blurRemote);
      assert actions == old(actions) + writes
        + UploadFileActions(cfg, job.fullLocal, job.fullRemote)
        + UploadFileActions(cfg, job.optimizedLocal, job.optimizedRemote)
        + UploadFileActions(cfg, job.blurLocal, job.blurRemote);
    }

    method BlurAndUploadAlbumPhoto(albumLocal: string, albumRemote: string)
      modifies this
      ensures Snapshot() == State(old(localPaths) + {BlurredAlbumPath(albumLocal)},
                                  old(actions) + AlbumActions(cfg, albumLocal, albumRemote))
    {
      var blurredLocal := ReplaceFirst(albumLocal, AlbumPhotoEnding, AlbumPhotoBlurredEnding);
      var blurredRemote := ReplaceFirst(albumRemote, AlbumPhotoEnding, AlbumPhotoBlurredEnding);
      localPaths := localPaths + {blurredLocal};
      actions := actions + [Write(albumLocal, blurredLocal, AlbumBlurred(200, 200, 10))];
      UploadFile(albumLocal, albumRemote);
      UploadFile(blurredLocal, blurredRemote);
    }

    /** The body of the `newFiles.forEach` callback. */
    method UploadNewFile(folderPath: string, folderName: string, localDirs: seq<string>, e: Entry)
      requires localDirs == LocalDirs(folderPath)
      modifies this
      ensures Snapshot() == FileStep(cfg, folderPath, folderName, e, old(Snapshot()))
    {
      var filePath := folderPath + "/" + e.name;
      if !e.isDir {
        if Includes(e.name, AlbumPhotoEnding) {
          BlurAndUploadAlbumPhoto(filePath, folderName + "/" + e.name);
        } else {
          var remote := RegularRemotePaths(folderName, e.name);
          var fullRemote, optimizedRemote, blurRemote := remote[0], remote[1], remote[2];
          var doUpload := true;
          if cfg.fast {
            var allExist := [[cfg.remoteExists(fullRemote)], [cfg.remoteExists(optimizedRemote)], [cfg.remoteExists(blurRemote)]];
            if false !in Flat(allExist) {
              doUpload := false;
            }
          }
          if doUpload {
            var job := Job(filePath,
              localDirs[0] + "/" + e.name, fullRemote,
              localDirs[1] + "/" + e.name, optimizedRemote,
              localDirs[2] + "/" + e.name, blurRemote);
            OptimizeAndUpload(job, StartingQuality, 0);
          }
        }
      } else {
        if !IsOutputDir(filePath) {
          actions := actions + [NotAFile(filePath)];
        }
      }
    }

    /** The `readdir` callback for one entry of the upload directory. */
    method UploadFolder(f: FolderListing)
      modifies this
      ensures Snapshot() == FolderStep(cfg, f, old(Snapshot()))
    {
      var folderPath := UploadPhotoDir + "/" + f.name;
      if f.isDir {
        var localDirs := LocalDirs(folderPath);
        var i := 0;
        while i < |localDirs|
          invariant 0 <= i <= |localDirs|
          invariant Snapshot() == EnsureDirs(localDirs[..i], old(Snapshot()))
        {
          assert localDirs[..i + 1][..i] == localDirs[..i];
          if localDirs[i] !in localPaths {
            localPaths := localPaths + {localDirs[i]};
            actions := actions + [Mkdir(localDirs[i])];
          }
          i := i + 1;
        }
        assert localDirs[..i] == localDirs;
        ghost var prepared := Snapshot();
        var k := 0;
        while k < |f.files|
          invariant 0 <= k <= |f.files|
          invariant Snapshot() == FilesStep(cfg, folderPath, f.name, f.files[..k], prepared)
        {
          assert f.files[..k + 1][..k] == f.files[..k];
          UploadNewFile(folderPath, f.name, localDirs, f.files[k]);
          k := k + 1;
        }
        assert f.files[..k] == f.files;
      } else {
        actions := actions + [NotADirectory(folderPath)];
      }
    }

    /** `readDirAndUpload`: every entry of the upload directory, in listing order. */
    method ReadDirAndUpload(folders: seq<FolderListing>)
      modifies this
      ensures Snapshot() == RunStep(cfg, folders, old(Snapshot()))
    {
      var i := 0;
      while i < |folders|
        invariant 0 <= i <= |folders|
        invariant Snapshot() == RunStep(cfg, folders[..i], old(Snapshot()))
      {
        assert folders[..i + 1][..i] == folders[..i];
        UploadFolder(folders[i]);
        i := i + 1;
      }
      assert folders[..i] == folders;
    }
  }

  /** The three local files a regular photo's processing writes. */
  function OutputPaths(job: Job): set<string> {
    {job.optimizedLocal, job.blurLocal, job.fullLocal}
  }

  lemma OutputPathsAdded(paths: set<string>, job: Job)
    ensures paths + {job.optimizedLocal} + OutputPaths(job) == paths + OutputPaths(job)
    ensures paths + {job.optimizedLocal} + {job.blurLocal, job.fullLocal} == paths + OutputPaths(job)
  {
  }

  /** One step of the search, as the recursive call takes it. */
  lemma AttemptsUnfold(cfg: Config, job: Job, quality: int, iteration: nat, w: Action, kb: nat)
    requires kb == SizeKB(cfg.sizeBytes(job.source, ClampQuality(quality)))
    requires w == Write(job.source, job.optimizedLocal, Optimized(WatermarkFor(job.source).centre, ClampQuality(quality)))
    ensures Accepts(iteration, kb) ==> OptimizeActions(cfg, job, quality, iteration) == [w] + FinishActions(cfg, job)
    ensures !Accepts(iteration, kb) ==>
      OptimizeActions(cfg, job, quality, iteration) == [w] + OptimizeActions(cfg, job, NextQuality(quality, kb), iteration + 1)
  {
    var size := Encoder(cfg, job.source);
    var a := EncodeAt(size, quality, iteration);
    assert a.kb == kb;
    var rest := if Accepts(iteration, kb) then [] else Attempts(size, NextQuality(quality, kb), iteration + 1);
    assert Attempts(size, quality, iteration) == [a] + rest;
    AttemptWritesCons(job, a, rest);
    ConcatAssoc([w], AttemptWrites(job, rest), FinishActions(cfg, job));
  }

  /** The writes of a list of attempts, one attempt at a time. */
  lemma AttemptWritesCons(job: Job, a: Attempt, rest: seq<Attempt>)
    ensures AttemptWrites(job, [a] + rest)
      == [Write(job.source, job.optimizedLocal, Optimized(WatermarkFor(job.source).centre, a.encoded))] + AttemptWrites(job, rest)
  {
    assert forall i :: 0 < i < |[a] + rest| ==> ([a] + rest)[i] == rest[i - 1];
  }
}

/** Properties of the upload walk, stated on its specification functions. */
module UploadPipelineProperties {
  import opened Strings
  import opened Globals
  import opened QualitySearch
  import opened UploadRules
  import opened UploadPipeline

  /** The remote paths a list of actions uploads to, in order. */
  function UploadedPaths(acts: seq<Action>): (ps: seq<string>)
    ensures |ps| <= |acts|
    ensures forall p :: p in ps <==> exists i :: 0 <= i < |acts| && acts[i].Upload? && acts[i].remotePath == p
  {
    if acts == [] then []
    else
      var rest := UploadedPaths(acts[1..]);
      assert forall i :: 1 <= i < |acts| ==> acts[i] == acts[1..][i - 1];
      (if acts[0].Upload? then [acts[0].remotePath] else []) + rest
  }

  lemma {:induction false} UploadedPathsAppend(a: seq<Action>, b: seq<Action>)
    decreases |a|
    ensures UploadedPaths(a + b) == UploadedPaths(a) + UploadedPaths(b)
  {
    if a != [] {
      assert (a + b)[0] == a[0];
      assert (a + b)[1..] == a[1..] + b;
      UploadedPathsAppend(a[1..], b);
      var h := if a[0].Upload? then [a[0].remotePath] else [];
      assert UploadedPaths(a + b) == h + (UploadedPaths(a[1..]) + UploadedPaths(b));
      ConcatAssoc(h, UploadedPaths(a[1..]), UploadedPaths(b));
    } else {
      assert a + b == b;
    }
  }

  /** Actions none of which is an upload upload nothing. */
  lemma NoUploads(acts: seq<Action>)
    requires forall a :: a in acts ==> !a.Upload?
    ensures UploadedPaths(acts) == []
  {
  }

  /** The remote path, unless fast mode finds it already stored. */
  function Pending(cfg: Config, remotePath: string): seq<string> {
    if cfg.fast && cfg.remoteExists(remotePath) then [] else [remotePath]
  }

  /** `uploadFile` uploads exactly the pending path, from the given local file. */
  lemma UploadFileUploads(cfg: Config, localPath: string, remotePath: string)
    ensures UploadedPaths(UploadFileActions(cfg, localPath, remotePath)) == Pending(cfg, remotePath)
    ensures forall a :: a in UploadFileActions(cfg, localPath, remotePath) ==> a == Upload(localPath, remotePath)
  {
    assert [cfg.remoteExists(remotePath)][0] == cfg.remoteExists(remotePath);
  }

  /** Whatever the search does, a regular photo's uploads are its three pending remote paths, in order. */
  lemma OptimizeUploads(cfg: Config, job: Job, quality: int, iteration: nat)
    ensures UploadedPaths(OptimizeActions(cfg, job, quality, iteration))
      == Pending(cfg, job.fullRemote) + Pending(cfg, job.optimizedRemote) + Pending(cfg, job.blurRemote)
  {
    var writes := AttemptWrites(job, Attempts(Encoder(cfg, job.source), quality, iteration));
    NoUploads(writes);
    UploadedPathsAppend(writes, FinishActions(cfg, job));
    FinishUploads(cfg, job);
  }

  /** The finishing actions upload the three pending remote paths, in order. */
  lemma FinishUploads(cfg: Config, job: Job)
    ensures UploadedPaths(FinishActions(cfg, job))
      == Pending(cfg, job.fullRemote) + Pending(cfg, job.optimizedRemote) + Pending(cfg, job.blurRemote)
  {
    var d := cfg.dims(job.source);
    var local := [ Write(job.source, job.blurLocal, Blurred(BlurResize(d.width, d.height), 10)),
      Write(job.source, job.fullLocal, FullResolution(WatermarkFor(job.source), 100)) ];
    var u1 := UploadFileActions(cfg, job.fullLocal, job.fullRemote);
    var u2 := UploadFileActions(cfg, job.optimizedLocal, job.optimizedRemote);
    var u3 := UploadFileActions(cfg, job.blurLocal, job.blurRemote);
    UploadFileUploads(cfg, job.fullLocal, job.fullRemote);
    UploadFileUploads(cfg, job.optimizedLocal, job.optimizedRemote);
    UploadFileUploads(cfg, job.blurLocal, job.blurRemote);
    UploadedPathsAppend(local + u1 + u2, u3);
    UploadedPathsAppend(local + u1, u2);
    UploadedPathsAppend(local, u1);
    NoUploads(local);
  }

  /** The actions appended between two states of the walk. */
  function Appended(before: State, after: State): seq<Action>
    requires |before.actions| <= |after.actions|
  {
    after.actions[|before.actions|..]
  }

  /** `after` extends the action list of `before`. */
  predicate Extends(before: State, after: State) {
    |before.actions| <= |after.actions| && after.actions[..|before.actions|] == before.actions
  }

  /**
   * A regular photo is left alone exactly when fast mode finds all three remote
   * paths stored; otherwise its three outputs are written locally and its pending
   * remote paths are uploaded in the order full resolution, optimized, blur, which
   * without fast mode is all three of them.
   */
  lemma RegularPhotoOutcome(cfg: Config, folderPath: string, folderName: string, file: string, st: State)
    requires !IsAlbumPhoto(file)
    ensures var st' := FileStep(cfg, folderPath, folderName, Entry(file, false), st);
      var ps := RegularRemotePaths(folderName, file);
      var job := RegularJob(folderPath, folderName, file);
      && Extends(st, st')
      && (st' == st <==> cfg.fast && cfg.remoteExists(ps[0]) && cfg.remoteExists(ps[1]) && cfg.remoteExists(ps[2]))
      && st'.localPaths == st.localPaths + (if st' == st then {} else {job.fullLocal, job.optimizedLocal, job.blurLocal})
      && UploadedPaths(Appended(st, st')) == (if st' == st then [] else Pending(cfg, ps[0]) + Pending(cfg, ps[1]) + Pending(cfg, ps[2]))
      && (!cfg.fast ==> UploadedPaths(Appended(st, st')) == ps)
  {
    var st' := FileStep(cfg, folderPath, folderName, Entry(file, false), st);
    var job := RegularJob(folderPath, folderName, file);
    var ps := RegularRemotePaths(folderName, file);
    if JobRuns(cfg, job) {
      var acts := OptimizeActions(cfg, job, StartingQuality, 0);
      assert |acts| > 0;
      assert st'.actions == st.actions + acts;
      assert Appended(st, st') == acts;
      OptimizeUploads(cfg, job, StartingQuality, 0);
      assert st' != st;
      if !cfg.fast {
        assert ps == [ps[0], ps[1], ps[2]];
      }
    } else {
      assert Appended(st, st') == [];
    }
  }

  /**
   * An album photo is always blurred again, in fast mode too; it is uploaded under
   * the collection folder itself, followed by its blurred companion, each unless
   * fast mode finds it stored. No optimized or full-resolution file is made.
   */
  lemma AlbumPhotoOutcome(cfg: Config, folderPath: string, folderName: string, file: string, st: State)
    requires IsAlbumPhoto(file)
    ensures var st' := FileStep(cfg, folderPath, folderName, Entry(file, false), st);
      var local := folderPath + "/" + file;
      var remote := AlbumRemotePath(folderName, file);
      && Extends(st, st') && |st.actions| < |st'.actions|
      && st'.localPaths == st.localPaths + {BlurredAlbumPath(local)}
      && st'.actions[|st.actions|] == Write(local, BlurredAlbumPath(local), AlbumBlurred(200, 200, 10))
      && (forall i :: |st.actions| <= i < |st'.actions| && st'.actions[i].Write? ==> st'.actions[i].render.AlbumBlurred?)
      && UploadedPaths(Appended(st, st')) == Pending(cfg, remote) + Pending(cfg, BlurredAlbumPath(remote))
      && (!cfg.fast ==> UploadedPaths(Appended(st, st')) == [remote, BlurredAlbumPath(remote)])
  {
    var st' := FileStep(cfg, folderPath, folderName, Entry(file, false), st);
    var local := folderPath + "/" + file;
    var remote := AlbumRemotePath(folderName, file);
    var acts := AlbumActions(cfg, local, remote);
    assert st' == State(st.localPaths + {BlurredAlbumPath(local)}, st.actions + acts);
    AlbumActionsShape(cfg, local, remote);
    assert Appended(st, st') == acts;
    forall i | |st.actions| <= i < |st'.actions| && st'.actions[i].Write?
      ensures st'.actions[i].render.AlbumBlurred?
    {
      assert st'.actions[i] == acts[i - |st.actions|];
    }
  }

  /** `blurAndUploadAlbumPhoto`'s actions: the companion write first, no other image, and the two gated uploads. */
  lemma AlbumActionsShape(cfg: Config, local: string, remote: string)
    ensures var acts := AlbumActions(cfg, local, remote);
      && |acts| >= 1 && acts[0] == Write(local, BlurredAlbumPath(local), AlbumBlurred(200, 200, 10))
      && (forall i :: 0 <= i < |acts| && acts[i].Write? ==> acts[i].render.AlbumBlurred?)
      && UploadedPaths(acts) == Pending(cfg, remote) + Pending(cfg, BlurredAlbumPath(remote))
  {
    var w := [Write(local, BlurredAlbumPath(local), AlbumBlurred(200, 200, 10))];
    var u1 := UploadFileActions(cfg, local, remote);
    var u2 := UploadFileActions(cfg, BlurredAlbumPath(local), BlurredAlbumPath(remote));
    UploadFileUploads(cfg, local, remote);
    UploadFileUploads(cfg, BlurredAlbumPath(local), BlurredAlbumPath(remote));
    UploadedPathsAppend(w + u1, u2);
    UploadedPathsAppend(w, u1);
  }

  /**
   * A sub-directory of a collection folder uploads nothing; it is logged as "not a
   * file" unless its path ends with one of the three output directory names.
   */
  lemma DirectoryEntryOutcome(cfg: Config, folderPath: string, folderName: string, name: string, st: State)
    ensures var st' := FileStep(cfg, folderPath, folderName, Entry(name, true), st);
      && Extends(st, st')
      && st'.localPaths == st.localPaths
      && UploadedPaths(Appended(st, st')) == []
      && (st' == st <==> IsOutputDir(folderPath + "/" + name))
      && (st' != st ==> Appended(st, st') == [NotAFile(folderPath + "/" + name)])
  {
    var st' := FileStep(cfg, folderPath, folderName, Entry(name, true), st);
    if !IsOutputDir(folderPath + "/" + name) {
      assert st'.actions == st.actions + [NotAFile(folderPath + "/" + name)];
      assert Appended(st, st') == [NotAFile(folderPath + "/" + name)];
    } else {
      assert Appended(st, st') == [];
    }
  }

  /**
   * A blurred album companion `x_albumblurred.jpg` found in a collection folder
   * (as after a run that wrote it there) is handled as a regular photo.
   */
  lemma BlurredCompanionIsRegular(cfg: Config, folderPath: string, folderName: string, x: string, st: State)
    requires !Includes(x, AlbumPhotoEnding)
    ensures FileStep(cfg, folderPath, folderName, Entry(x + AlbumPhotoBlurredEnding, false), st)
      == RegularPhotoStep(cfg, folderPath, folderName, x + AlbumPhotoBlurredEnding, st)
  {
    BlurredNameIsNotAlbum(x);
  }

  /**
   * Preparing the output directories makes each one exist, creating exactly those
   * that were missing, and nothing else.
   */
  lemma {:induction false} EnsureDirsOutcome(dirs: seq<string>, st: State)
    decreases |dirs|
    ensures var st' := EnsureDirs(dirs, st);
      && Extends(st, st')
      && st'.localPaths == st.localPaths + (set d | d in dirs)
      && (forall a :: a in Appended(st, st') ==> a.Mkdir? && a.dir in dirs && a.dir !in st.localPaths)
      && (forall d :: d in dirs && d !in st.localPaths ==> Mkdir(d) in Appended(st, st'))
  {
    if dirs != [] {
      var init := dirs[..|dirs| - 1];
      var mid := EnsureDirs(init, st);
      EnsureDirsOutcome(init, st);
      var d := Last(dirs);
      assert dirs == init + [d];
      var st' := EnsureDirs(dirs, st);
      assert st' == EnsureDir(d, mid);
      if d !in mid.localPaths {
        assert st'.actions == mid.actions + [Mkdir(d)];
        assert Appended(st, st') == Appended(st, mid) + [Mkdir(d)];
      } else {
        assert Appended(st, st') == Appended(st, mid);
      }
    } else {
      assert Appended(st, EnsureDirs(dirs, st)) == [];
    }
  }

  /** Directories that all exist already are left alone. */
  lemma {:induction false} EnsureDirsPresent(dirs: seq<string>, st: State)
    requires forall d :: d in dirs ==> d in st.localPaths
    decreases |dirs|
    ensures EnsureDirs(dirs, st) == st
  {
    if dirs != [] {
      var init := dirs[..|dirs| - 1];
      assert forall d :: d in init ==> d in dirs;
      EnsureDirsPresent(init, st);
      assert Last(dirs) in dirs;
    }
  }

  /** Preparing the directories a second time does nothing. */
  lemma EnsureDirsIdempotent(dirs: seq<string>, st: State)
    ensures EnsureDirs(dirs, EnsureDirs(dirs, st)) == EnsureDirs(dirs, st)
  {
    EnsureDirsOutcome(dirs, st);
    EnsureDirsPresent(dirs, EnsureDirs(dirs, st));
  }

  /**
   * An entry of a folder that a fast re-run finds stored: one of the folder's output
   * directories, a cover whose remote copy and blurred companion are stored, or a
   * regular photo stored in all three variants.
   */
  predicate EntryStored(cfg: Config, folderPath: string, folderName: string, e: Entry) {
    if e.isDir then IsOutputDir(folderPath + "/" + e.name)
    else if IsAlbumPhoto(e.name) then
      var remote := AlbumRemotePath(folderName, e.name);
      cfg.remoteExists(remote) && cfg.remoteExists(BlurredAlbumPath(remote))
    else forall p :: p in RegularRemotePaths(folderName, e.name) ==> cfg.remoteExists(p)
  }

  predicate FolderStored(cfg: Config, folderPath: string, folderName: string, files: seq<Entry>) {
    forall i :: 0 <= i < |files| ==> EntryStored(cfg, folderPath, folderName, files[i])
  }

  /** The blur write `blurAndUploadAlbumPhoto` makes for an entry that is a cover, and none otherwise. */
  function CoverWrite(folderPath: string, e: Entry): seq<Action> {
    var local := folderPath + "/" + e.name;
    if !e.isDir && IsAlbumPhoto(e.name) then [Write(local, BlurredAlbumPath(local), AlbumBlurred(200, 200, 10))] else []
  }

  /** The blurred companion that write creates. */
  function CoverPath(folderPath: string, e: Entry): set<string> {
    if !e.isDir && IsAlbumPhoto(e.name) then {BlurredAlbumPath(folderPath + "/" + e.name)} else {}
  }

  /** The covers' blur writes over a listing, in order. */
  function CoverBlurWrites(folderPath: string, files: seq<Entry>): seq<Action>
    decreases |files|
  {
    if files == [] then []
    else CoverBlurWrites(folderPath, files[..|files| - 1]) + CoverWrite(folderPath, Last(files))
  }

  function CoverBlurPaths(folderPath: string, files: seq<Entry>): set<string>
    decreases |files|
  {
    if files == [] then {}
    else CoverBlurPaths(folderPath, files[..|files| - 1]) + CoverPath(folderPath, Last(files))
  }

  /** In fast mode, a stored entry only re-blurs a cover, and leaves anything else alone. */
  lemma RerunEntry(cfg: Config, folderPath: string, folderName: string, e: Entry, st: State)
    requires cfg.fast && EntryStored(cfg, folderPath, folderName, e)
    ensures var st' := FileStep(cfg, folderPath, folderName, e, st);
      && st'.actions == st.actions + CoverWrite(folderPath, e)
      && st'.localPaths == st.localPaths + CoverPath(folderPath, e)
  {
    if e.isDir {
      DirectoryEntryOutcome(cfg, folderPath, folderName, e.name, st);
    } else if !IsAlbumPhoto(e.name) {
      var ps := RegularRemotePaths(folderName, e.name);
      assert ps[0] in ps && ps[1] in ps && ps[2] in ps;
      RegularPhotoOutcome(cfg, folderPath, folderName, e.name, st);
    }
  }

  lemma {:induction false} FilesStepRerun(cfg: Config, folderPath: string, folderName: string, files: seq<Entry>, st: State)
    requires cfg.fast && FolderStored(cfg, folderPath, folderName, files)
    decreases |files|
    ensures var st' := FilesStep(cfg, folderPath, folderName, files, st);
      && st'.actions == st.actions + CoverBlurWrites(folderPath, files)
      && st'.localPaths == st.localPaths + CoverBlurPaths(folderPath, files)
  {
    if files != [] {
      var init := files[..|files| - 1];
      assert FolderStored(cfg, folderPath, folderName, init) by {
        forall i | 0 <= i < |init| ensures init[i] == files[i] { }
      }
      FilesStepRerun(cfg, folderPath, folderName, init, st);
      var st1 := FilesStep(cfg, folderPath, folderName, init, st);
      RerunEntry(cfg, folderPath, folderName, Last(files), st1);
      ConcatAssoc(st.actions, CoverBlurWrites(folderPath, init), CoverWrite(folderPath, Last(files)));
    }
  }

  /**
   * A fast re-run over a prepared collection folder whose covers and photos are all
   * stored: the only actions are the covers' blur writes, in listing order, and
   * nothing is uploaded.
   */
  lemma FastRerunOnlyReblursCovers(cfg: Config, f: FolderListing, st: State)
    requires cfg.fast && f.isDir
    requires forall d :: d in LocalDirs(UploadPhotoDir + "/" + f.name) ==> d in st.localPaths
    requires FolderStored(cfg, UploadPhotoDir + "/" + f.name, f.name, f.files)
    ensures var st' := FolderStep(cfg, f, st);
      && Extends(st, st')
      && Appended(st, st') == CoverBlurWrites(UploadPhotoDir + "/" + f.name, f.files)
      && UploadedPaths(Appended(st, st')) == []
      && st'.localPaths == st.localPaths + CoverBlurPaths(UploadPhotoDir + "/" + f.name, f.files)
  {
    var folderPath := UploadPhotoDir + "/" + f.name;
    EnsureDirsPresent(LocalDirs(folderPath), st);
    FilesStepRerun(cfg, folderPath, f.name, f.files, st);
    var st' := FolderStep(cfg, f, st);
    assert Appended(st, st') == CoverBlurWrites(folderPath, f.files);
    CoverBlurWritesOnlyWrites(folderPath, f.files);
    NoUploads(CoverBlurWrites(folderPath, f.files));
  }

  lemma {:induction false} CoverBlurWritesOnlyWrites(folderPath: string, files: seq<Entry>)
    decreases |files|
    ensures forall a :: a in CoverBlurWrites(folderPath, files) ==> a.Write? && a.render.AlbumBlurred?
  {
    if files != [] {
      CoverBlurWritesOnlyWrites(folderPath, files[..|files| - 1]);
    }
  }

  /** Uploads of a state reached by extension: those before, then those appended. */
  lemma UploadedPathsExtend(st: State, st': State)
    requires Extends(st, st')
    ensures UploadedPaths(st'.actions) == UploadedPaths(st.actions) + UploadedPaths(Appended(st, st'))
  {
    assert st'.actions == st.actions + Appended(st, st');
    UploadedPathsAppend(st.actions, Appended(st, st'));
  }

  lemma ExtendsTransitive(a: State, b: State, c: State)
    requires Extends(a, b) && Extends(b, c)
    ensures Extends(a, c)
  {
    assert c.actions[..|a.actions|] == c.actions[..|b.actions|][..|a.actions|];
  }

  /** A photo followed by a cover photo, without fast mode. */
  lemma PhotoThenCover(cfg: Config, folderPath: string, name: string, photo: string, cover: string, st1: State)
    requires !cfg.fast
    requires !IsAlbumPhoto(photo) && IsAlbumPhoto(cover)
    ensures var st3 := FilesStep(cfg, folderPath, name, [Entry(photo, false), Entry(cover, false)], st1);
      && Extends(st1, st3)
      && UploadedPaths(st3.actions) == UploadedPaths(st1.actions) + (RegularRemotePaths(name, photo)
           + [AlbumRemotePath(name, cover), BlurredAlbumPath(AlbumRemotePath(name, cover))])
  {
    var files := [Entry(photo, false), Entry(cover, false)];
    assert files[..1] == [Entry(photo, false)] && files[..1][..0] == [];
    assert FilesStep(cfg, folderPath, name, [], st1) == st1;
    var st2 := FileStep(cfg, folderPath, name, Entry(photo, false), st1);
    assert FilesStep(cfg, folderPath, name, files[..1], st1) == st2;
    var st3 := FileStep(cfg, folderPath, name, Entry(cover, false), st2);
    assert FilesStep(cfg, folderPath, name, files, st1) == st3;
    var regular := RegularRemotePaths(name, photo);
    var album := [AlbumRemotePath(name, cover), BlurredAlbumPath(AlbumRemotePath(name, cover))];
    assert Extends(st1, st2) && UploadedPaths(Appended(st1, st2)) == regular by {
      RegularPhotoOutcome(cfg, folderPath, name, photo, st1);
    }
    assert Extends(st2, st3) && UploadedPaths(Appended(st2, st3)) == album by {
      AlbumPhotoOutcome(cfg, folderPath, name, cover, st2);
    }
    UploadedPathsExtend(st1, st2);
    UploadedPathsExtend(st2, st3);
    ExtendsTransitive(st1, st2, st3);
    ConcatAssoc(UploadedPaths(st1.actions), regular, album);
  }

  /**
   * A first, non-fast run over one new collection folder holding a regular photo
   * and a cover photo creates the three output directories, then uploads the photo's
   * three variants, the cover, and the cover's blurred companion, in that order.
   */
  lemma FreshFolderUpload(cfg: Config, name: string, photo: string, cover: string)
    requires !cfg.fast
    requires !IsAlbumPhoto(photo) && IsAlbumPhoto(cover)
    ensures var f := FolderListing(name, true, [Entry(photo, false), Entry(cover, false)]);
      var st := RunStep(cfg, [f], State({}, []));
      && (forall d :: d in LocalDirs(UploadPhotoDir + "/" + name) ==> Mkdir(d) in st.actions)
      && UploadedPaths(st.actions) == RegularRemotePaths(name, photo)
           + [AlbumRemotePath(name, cover), BlurredAlbumPath(AlbumRemotePath(name, cover))]
  {
    var f := FolderListing(name, true, [Entry(photo, false), Entry(cover, false)]);
    var st0 := State({}, []);
    var folderPath := UploadPhotoDir + "/" + name;
    assert [f][..0] == [];
    assert RunStep(cfg, [f], st0) == FolderStep(cfg, f, st0);
    var dirs := LocalDirs(folderPath);
    var st1 := EnsureDirs(dirs, st0);
    EnsureDirsOutcome(dirs, st0);
    assert Appended(st0, st1) == st1.actions;
    NoUploads(st1.actions);
    var st3 := FilesStep(cfg, folderPath, name, f.files, st1);
    PhotoThenCover(cfg, folderPath, name, photo, cover, st1);
    forall d | d in dirs ensures Mkdir(d) in st3.actions {
      assert Mkdir(d) in st1.actions;
      assert st3.actions[..|st1.actions|] == st1.actions;
    }
  }
}
