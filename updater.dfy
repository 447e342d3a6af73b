/** The updater's objects: `ModUpdater`, which owns the settings and does the
    hashing and downloading, and `ModUpdaterApp`, whose `run_update` drives a
    sync. The window and its widgets are not modelled; each method here is
    proved against the functions of `Transfer` and `Sync`. */
module Updater {
  import opened Wrappers
  import opened PyJson
  import opened Paths
  import opened Digests
  import opened Transfer
  import opened Sync

  /** The chunk sizes of `calculate_sha256` and of the read loop of `download_file`. */
  const HashChunk := 8192

  class ModUpdater {
    /** `self.config` */
    var config: Json
    /** The decoded contents of config.json; None when it is missing or unreadable. */
    var configFile: Option<Json>
    /** The local filesystem. */
    var files: FileMap
    /** hashlib's SHA-256. */
    const hash: HashFunction

    constructor (stored: Option<Json>, disk: FileMap, sha256: HashFunction)
      ensures config == LoadConfig(stored)
      ensures configFile == stored && files == disk && hash == sha256
    {
      config := LoadConfig(stored);
      configFile := stored;
      files := disk;
      hash := sha256;
    }

    /** `save_config`: config.json then holds the current settings, which a later
        `_load_config` reads back unchanged. */
    method SaveConfig()
      modifies this`configFile
      ensures configFile == Some(config)
      ensures LoadConfig(configFile) == config
    {
      configFile := Some(config);
    }

    /** `calculate_sha256`: None for a missing path, otherwise the digest of the
        whole file, read in 8192-byte chunks. */
    method CalculateSha256(path: Path) returns (digest: Option<Digest>)
      ensures path !in files ==> digest == None
      ensures path in files ==> digest == Some(hash(files[path]))
    {
      if path !in files {
        return None;
      }
      var d := DigestFile(files[path], HashChunk, hash);
      digest := Some(d);
    }

    /** `download_file`: writes the response body straight to `dest`, returns
        whether no exception was raised, and returns the byte counts behind each
        progress callback. */
    method DownloadFile(url: Url, dest: Path, fetch: Fetcher) returns (ok: bool, error: Option<DownloadError>, progress: seq<nat>)
      modifies this`files
      ensures files == AfterDownload(old(files), dest, fetch(url))
      ensures ok == DownloadOk(fetch(url)) && (ok <==> error.None?)
      ensures progress == ProgressReports(fetch(url))
    {
      var response := fetch(url);
      if response.Unreachable? {
        return false, Some(ConnectFailed), [];
      }
      files := files[dest := []];
      if response.length.Malformed? {
        return false, Some(BadLength), [];
      }
      var totalSize := TotalSize(response.length);
      var downloaded: nat := 0;
      var chunks := response.chunks;
      progress := [];
      var i := 0;
      while true
        invariant i <= |chunks|
        invariant forall k :: 0 <= k < i ==> chunks[k] != []
        invariant files == old(files)[dest := Flatten(chunks[..i])]
        invariant downloaded == |Flatten(chunks[..i])|
        invariant progress == if totalSize > 0 then Totals(chunks[..i]) else []
        decreases |chunks| - i
      {
        if i == |chunks| {
          TakenIsPrefix(chunks, i);
          if !response.completes {
            return false, Some(Interrupted), progress;
          }
          break;
        }
        var chunk := chunks[i];
        if chunk == [] {
          TakenIsPrefix(chunks, i);
          break;
        }
        ChunkStep(chunks, i);
        files := files[dest := files[dest] + chunk];
        downloaded := downloaded + |chunk|;
        if totalSize > 0 {
          progress := progress + [downloaded];
        }
        i := i + 1;
      }
      return true, None, progress;
    }
  }

  /** Removing one more path from what is left after removing `gone`. */
  lemma RemoveOneMore(files: FileMap, gone: set<Path>, p: Path)
    ensures (files - gone) - {p} == files - (gone + {p})
  {
    assert ((files - gone) - {p}).Keys == (files - (gone + {p})).Keys;
  }

  class ModUpdaterApp {
    const updater: ModUpdater

    constructor (updater: ModUpdater)
      ensures this.updater == updater
    {
      this.updater := updater;
    }

    /** `set_mod_folder` with the folder the dialog returned ("" when cancelled).
        Reading the settings raises when they are not a dict. */
    method SetModFolder(folder: string)
      modifies updater`config, updater`configFile
      ensures if old(updater.config).Obj? && folder != "" then
          updater.config == Obj(old(updater.config).fields["mod_folder" := Str(folder)])
          && updater.configFile == Some(updater.config)
        else
          updater.config == old(updater.config) && updater.configFile == old(updater.configFile)
    {
      if updater.config.Obj? && folder != "" {
        updater.config := Obj(updater.config.fields["mod_folder" := Str(folder)]);
        updater.SaveConfig();
      }
    }

    /** `change_theme`: item assignment raises when the settings are not a dict. */
    method ChangeTheme(theme: string)
      modifies updater`config, updater`configFile
      ensures if old(updater.config).Obj? then
          updater.config == Obj(old(updater.config).fields["theme" := Str(theme)])
          && updater.configFile == Some(updater.config)
        else
          updater.config == old(updater.config) && updater.configFile == old(updater.configFile)
    {
      if updater.config.Obj? {
        updater.config := Obj(updater.config.fields["theme" := Str(theme)]);
        updater.SaveConfig();
      }
    }

    /** `_download_file`: downloads, then accepts the result exactly when the
        download raised nothing and the entry either has no `sha256` key or its
        value equals the digest of the bytes written. A rejected file stays on
        disk. */
    method DownloadVerified(url: Url, dest: Path, entry: map<string, Json>, fetch: Fetcher) returns (accepted: bool)
      modifies updater`files
      ensures updater.files == AfterDownload(old(updater.files), dest, fetch(url))
      ensures accepted <==> (DownloadOk(fetch(url))
        && ("sha256" !in entry || entry["sha256"] == Str(updater.hash(Received(fetch(url))))))
    {
      var ok, error, progress := updater.DownloadFile(url, dest, fetch);
      if ok {
        var newHash := updater.CalculateSha256(dest);
        if "sha256" in entry && AsJson(newHash) != entry["sha256"] {
          return false;
        }
        return true;
      } else {
        return false;
      }
    }

    /** `_cleanup_files`: tries each name of `existing - files_in_manifest` once,
        in any order; a removal that raises is passed over. The files removed are
        exactly the removable targets, and `removed` counts them. */
    method CleanupFiles(modFolder: Path, inManifest: set<Path>, existing: set<Path>, canRemove: Path -> bool) returns (removed: nat)
      modifies updater`files
      ensures updater.files == old(updater.files) - Removable(old(updater.files), modFolder, inManifest, existing, canRemove)
      ensures removed == |Removable(old(updater.files), modFolder, inManifest, existing, canRemove)|
      ensures removed <= |existing - inManifest|
    {
      ghost var before := updater.files;
      ghost var goal := Removable(before, modFolder, inManifest, existing, canRemove);
      var todo := existing - inManifest;
      ghost var done: set<Path> := {};
      ghost var gone: set<Path> := {};
      removed := 0;
      while todo != {}
        invariant todo <= existing - inManifest
        invariant done == (existing - inManifest) - todo
        invariant gone <= goal
        invariant updater.files == before - gone
        invariant removed == |gone|
        invariant forall name :: name in done ==> Join(modFolder, name) !in goal - gone
        decreases todo
      {
        var name :| name in todo;
        var fullPath := Join(modFolder, name);
        RemovableMember(before, modFolder, inManifest, existing, canRemove, name);
        if fullPath in updater.files && canRemove(fullPath) {
          RemoveOneMore(before, gone, fullPath);
          updater.files := updater.files - {fullPath};
          gone := gone + {fullPath};
          removed := removed + 1;
        }
        todo := todo - {name};
        done := done + {name};
      }
      assert gone == goal by {
        forall p | p in goal
          ensures p in gone
        {
          var name :| name in existing - inManifest && p == Join(modFolder, name);
          assert name in done;
        }
      }
      RemovableBound(before, modFolder, inManifest, existing, canRemove);
    }

    /** The body of either loop of `run_update`, for one entry. */
    method HandleEntry(kind: Kind, entry: Json, modFolder: Path, fetch: Fetcher, success0: nat, inManifest0: set<Path>)
      returns (success: nat, inManifest: set<Path>, failure: Option<Failure>)
      modifies updater`files
      ensures ProcessEntry(kind, entry, modFolder, Tally(old(updater.files), success0, inManifest0), fetch, updater.hash)
        == Pass(Tally(updater.files, success, inManifest), failure)
    {
      if !entry.Obj? {
        return success0, inManifest0, Some(BadValue);
      }
      var relPath := Get(entry.fields, PathField(kind), Str(""));
      if !Truthy(relPath) {
        return success0, inManifest0, None;
      }
      if !relPath.Str? {
        return success0, inManifest0, Some(BadValue);
      }
      var filename := Basename(relPath.s);
      success, inManifest := HandleNamed(kind, entry.fields, filename, modFolder, fetch, success0, inManifest0);
      failure := None;
    }

    /** The rest of the loop body once the entry names `filename`. */
    method HandleNamed(kind: Kind, fields: map<string, Json>, filename: string, modFolder: Path, fetch: Fetcher, success0: nat, inManifest0: set<Path>)
      returns (success: nat, inManifest: set<Path>)
      modifies updater`files
      ensures ProcessNamed(kind, fields, filename, modFolder, Tally(old(updater.files), success0, inManifest0), fetch, updater.hash)
        == Pass(Tally(updater.files, success, inManifest), None)
    {
      inManifest := inManifest0 + {Key(kind, filename)};
      var dest := Dest(kind, modFolder, filename);
      var url := SourceUrl(kind, filename);
      if dest in updater.files {
        var localHash := updater.CalculateSha256(dest);
        if AsJson(localHash) == Get(fields, "sha256", Null) {
          assert UpToDate(updater.files, dest, Get(fields, "sha256", Null), updater.hash);
          success := success0 + 1;
          return;
        }
      }
      assert !UpToDate(updater.files, dest, Get(fields, "sha256", Null), updater.hash);
      var _ := DownloadVerified(url, dest, fields, fetch);
      success := success0 + 1;
    }

    /** One of the two loops of `run_update`, from the given counters. */
    method ProcessList(kind: Kind, items: seq<Json>, modFolder: Path, fetch: Fetcher, success0: nat, inManifest0: set<Path>)
      returns (success: nat, inManifest: set<Path>, failure: Option<Failure>)
      modifies updater`files
      ensures ProcessEntries(kind, items, modFolder, Tally(old(updater.files), success0, inManifest0), fetch, updater.hash)
        == Pass(Tally(updater.files, success, inManifest), failure)
    {
      success, inManifest := success0, inManifest0;
      for i := 0 to |items|
        invariant ProcessEntries(kind, items, modFolder, Tally(old(updater.files), success0, inManifest0), fetch, updater.hash)
          == ProcessEntries(kind, items[i..], modFolder, Tally(updater.files, success, inManifest), fetch, updater.hash)
      {
        assert items[i..][1..] == items[i + 1..];
        success, inManifest, failure := HandleEntry(kind, items[i], modFolder, fetch, success, inManifest);
        if failure.Some? {
          return;
        }
      }
      failure := None;
    }

    /** `run_update` against the fetched, decoded manifest (None when fetching or
        decoding raised), the network and the removal oracle. */
    method RunUpdate(manifest: Option<Json>, fetch: Fetcher, canRemove: Path -> bool) returns (outcome: Outcome)
      modifies updater`files
      ensures RunResult(outcome, updater.files)
        == Run(updater.config, manifest, old(updater.files), fetch, updater.hash, canRemove)
    {
      var config := updater.config;
      if !config.Obj? {
        return Crashed;
      }
      if !Truthy(Get(config.fields, "mod_folder", Null)) {
        return NoFolder;
      }
      if manifest.None? {
        return Failed(FetchFailed);
      }
      if !manifest.value.Obj? {
        return Failed(BadValue);
      }
      var modpack := Get(manifest.value.fields, "modpack", Obj(map[]));
      if !modpack.Obj? {
        return Failed(BadValue);
      }
      var mods := Get(modpack.fields, "mods", Arr([]));
      var configs := Get(modpack.fields, "configs", Arr([]));
      if !Truthy(mods) && !Truthy(configs) {
        return Failed(NoEntries);
      }
      var folder := config.fields["mod_folder"];
      if !folder.Str? {
        return Failed(BadValue);
      }
      var modFolder := folder.s;

      var filesInManifest: set<Path> := {};
      var existingFiles: set<Path> := {};
      var success: nat, errors: nat := 0, 0;
      var failure: Option<Failure>;

      var modItems := Elements(mods);
      if modItems.None? {
        return Failed(BadValue);
      }
      success, filesInManifest, failure := ProcessList(ModFile, modItems.value, modFolder, fetch, success, filesInManifest);
      if failure.Some? {
        return Failed(failure.value);
      }

      var configItems := Elements(configs);
      if configItems.None? {
        return Failed(BadValue);
      }
      success, filesInManifest, failure := ProcessList(ConfigFile, configItems.value, modFolder, fetch, success, filesInManifest);
      if failure.Some? {
        return Failed(failure.value);
      }

      if Truthy(Get(config.fields, "remove_old", Bool(true))) {
        var removed := CleanupFiles(modFolder, filesInManifest, existingFiles, canRemove);
      }
      outcome := Completed(success, errors);
    }
  }
}
