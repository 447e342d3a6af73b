/** The sync decision procedure of `ModUpdaterApp.run_update`, as a function of
    the settings, the fetched manifest, the local files and the network: which
    manifest entries are recorded, which destinations are kept and which are
    downloaded, what is counted, and what cleanup may remove. */
module Sync {
  import opened Wrappers
  import opened PyJson
  import opened Paths
  import opened Digests
  import opened Transfer

  const ModFolderUrl := "https://raw.githubusercontent.com/you-cant-run/minecraft-modpack-updater/main/your-modpack-repo/mods/"
  const ConfigFolderUrl := "https://raw.githubusercontent.com/you-cant-run/minecraft-modpack-updater/main/your-modpack-repo/config/"

  // ----- settings -----

  /** The settings used when config.json is missing or unreadable. */
  function DefaultConfig(): Json
  {
    Obj(map["mod_folder" := Str(""), "remove_old" := Bool(true), "theme" := Str("dark")])
  }

  /** `_load_config`: `stored` is the decoded config.json, None when the file is
      missing or cannot be read or decoded. */
  function LoadConfig(stored: Option<Json>): Json
  {
    if stored.Some? then stored.value else DefaultConfig()
  }

  // ----- one manifest entry -----

  /** The two lists of the manifest and where their entries go. */
  datatype Kind = ModFile | ConfigFile

  /** The entry field that names the file. */
  function PathField(kind: Kind): string
  {
    match kind
    case ModFile => "file"
    case ConfigFile => "path"
  }

  function Subdir(kind: Kind): Path
  {
    match kind
    case ModFile => "mods"
    case ConfigFile => "config"
  }

  function FolderUrl(kind: Kind): Url
  {
    match kind
    case ModFile => ModFolderUrl
    case ConfigFile => ConfigFolderUrl
  }

  /** The key recorded in `files_in_manifest` for a file name. */
  function Key(kind: Kind, filename: string): Path
  {
    Join(Subdir(kind), filename)
  }

  /** `os.path.join(mod_folder, subdir, filename)` */
  function Dest(kind: Kind, modFolder: Path, filename: string): Path
  {
    Join(Join(modFolder, Subdir(kind)), filename)
  }

  function SourceUrl(kind: Kind, filename: string): Url
  {
    FolderUrl(kind) + filename
  }

  /** `calculate_sha256(path)`: None for a missing path. */
  function DigestOf(files: FileMap, path: Path, hash: HashFunction): Option<Digest>
  {
    if path in files then Some(hash(files[path])) else None
  }

  /** The keep test: the destination exists and its digest `==` the entry's
      `sha256` value, compared as Python compares a `str` with a JSON value. */
  predicate UpToDate(files: FileMap, dest: Path, expected: Json, hash: HashFunction)
  {
    dest in files && AsJson(DigestOf(files, dest, hash)) == expected
  }

  /** The values `run_update` keeps for the entries processed so far: the
      filesystem, `success` and `files_in_manifest`. */
  datatype Tally = Tally(files: FileMap, success: nat, inManifest: set<Path>)

  /** Why a run stopped in the handler of lines 303-309. */
  datatype Failure = FetchFailed | NoEntries | BadValue

  /** The tally reached and, when an entry raised, why processing stopped there. */
  datatype Pass = Pass(tally: Tally, failure: Option<Failure>)

  /** The rest of an iteration once the entry names `filename`: record its key,
      count it, and keep the destination when it is up to date, download it
      otherwise. */
  function ProcessNamed(kind: Kind, fields: map<string, Json>, filename: string, modFolder: Path, t: Tally, fetch: Fetcher, hash: HashFunction): Pass
  {
    var dest := Dest(kind, modFolder, filename);
    var recorded := Tally(t.files, t.success + 1, t.inManifest + {Key(kind, filename)});
    if UpToDate(t.files, dest, Get(fields, "sha256", Null), hash) then Pass(recorded, None)
    else Pass(recorded.(files := AfterDownload(t.files, dest, fetch(SourceUrl(kind, filename)))), None)
  }

  /** One iteration of the mods or configs loop. */
  function ProcessEntry(kind: Kind, entry: Json, modFolder: Path, t: Tally, fetch: Fetcher, hash: HashFunction): Pass
  {
    if !entry.Obj? then Pass(t, Some(BadValue))
    else
      var relPath := Get(entry.fields, PathField(kind), Str(""));
      if !Truthy(relPath) then Pass(t, None)
      else if !relPath.Str? then Pass(t, Some(BadValue))
      else ProcessNamed(kind, entry.fields, Basename(relPath.s), modFolder, t, fetch, hash)
  }

  /** A whole loop: entries in order, stopping at the first one that raises. */
  function ProcessEntries(kind: Kind, entries: seq<Json>, modFolder: Path, t: Tally, fetch: Fetcher, hash: HashFunction): Pass
    decreases |entries|
  {
    if entries == [] then Pass(t, None)
    else
      var p := ProcessEntry(kind, entries[0], modFolder, t, fetch, hash);
      if p.failure.Some? then p
      else ProcessEntries(kind, entries[1..], modFolder, p.tally, fetch, hash)
  }

  // ----- cleanup -----

  /** The paths `_cleanup_files` tries to remove: one per name in
      `existing_files - files_in_manifest`. */
  function Targets(modFolder: Path, inManifest: set<Path>, existing: set<Path>): set<Path>
  {
    set name | name in existing - inManifest :: Join(modFolder, name)
  }

  /** The targets that `os.remove` does remove: present, and `canRemove` says the
      removal would not raise. */
  function Removable(files: FileMap, modFolder: Path, inManifest: set<Path>, existing: set<Path>, canRemove: Path -> bool): set<Path>
  {
    set p | p in Targets(modFolder, inManifest, existing) && p in files && canRemove(p)
  }

  /** A name of `existing - files_in_manifest` has its path removed exactly when
      the path is present and removing it does not raise. */
  lemma RemovableMember(files: FileMap, modFolder: Path, inManifest: set<Path>, existing: set<Path>, canRemove: Path -> bool, name: Path)
    requires name in existing - inManifest
    ensures Join(modFolder, name) in Removable(files, modFolder, inManifest, existing, canRemove)
        <==> Join(modFolder, name) in files && canRemove(Join(modFolder, name))
  {
    assert Join(modFolder, name) in Targets(modFolder, inManifest, existing);
  }

  // ----- the whole run -----

  /** How a run ends: an exception escaped `run_update` (the settings are not a
      dict), no mod folder is set, a failure was caught, or the run completed with
      the two counters it logs. */
  datatype Outcome = Crashed | NoFolder | Failed(reason: Failure) | Completed(success: nat, errors: nat)

  datatype RunResult = RunResult(outcome: Outcome, files: FileMap)

  /** The checks `run_update` makes before touching any file, and what they yield. */
  datatype Admission =
    | Refused(outcome: Outcome)
    | Admitted(modFolder: Path, mods: Json, configs: Json, removeOld: bool)

  function Admit(config: Json, manifest: Option<Json>): Admission
  {
    if !config.Obj? then Refused(Crashed)
    else if !Truthy(Get(config.fields, "mod_folder", Null)) then Refused(NoFolder)
    else if manifest.None? then Refused(Failed(FetchFailed))
    else if !manifest.value.Obj? then Refused(Failed(BadValue))
    else
      var modpack := Get(manifest.value.fields, "modpack", Obj(map[]));
      if !modpack.Obj? then Refused(Failed(BadValue))
      else
        var mods := Get(modpack.fields, "mods", Arr([]));
        var configs := Get(modpack.fields, "configs", Arr([]));
        if !Truthy(mods) && !Truthy(configs) then Refused(Failed(NoEntries))
        else
          var folder := config.fields["mod_folder"];
          if !folder.Str? then Refused(Failed(BadValue))
          else Admitted(folder.s, mods, configs, Truthy(Get(config.fields, "remove_old", Bool(true))))
  }

  /** `run_update` with the settings `config` and the fetched, decoded manifest
      (None when fetching or decoding raised). `existing_files` is always empty. */
  function Run(config: Json, manifest: Option<Json>, files: FileMap, fetch: Fetcher, hash: HashFunction, canRemove: Path -> bool): RunResult
  {
    match Admit(config, manifest)
    case Refused(outcome) => RunResult(outcome, files)
    case Admitted(modFolder, mods, configs, removeOld) =>
      match Elements(mods)
      case None => RunResult(Failed(BadValue), files)
      case Some(modItems) =>
        var p1 := ProcessEntries(ModFile, modItems, modFolder, Tally(files, 0, {}), fetch, hash);
        if p1.failure.Some? then RunResult(Failed(p1.failure.value), p1.tally.files)
        else
          match Elements(configs)
          case None => RunResult(Failed(BadValue), p1.tally.files)
          case Some(configItems) =>
            var p2 := ProcessEntries(ConfigFile, configItems, modFolder, p1.tally, fetch, hash);
            if p2.failure.Some? then RunResult(Failed(p2.failure.value), p2.tally.files)
            else
              var t := p2.tally;
              var existing: set<Path> := {};
              var final := if removeOld then t.files - Removable(t.files, modFolder, t.inManifest, existing, canRemove) else t.files;
              RunResult(Completed(t.success, 0), final)
  }

  // ----- properties -----

  /** An entry counts when it is a dict whose path field is truthy. */
  predicate Listed(kind: Kind, entry: Json)
  {
    entry.Obj? && Truthy(Get(entry.fields, PathField(kind), Str("")))
  }

  function CountListed(kind: Kind, entries: seq<Json>): nat
  {
    if entries == [] then 0
    else (if Listed(kind, entries[0]) then 1 else 0) + CountListed(kind, entries[1..])
  }

  /** The `files_in_manifest` key an entry contributes, if any. */
  function EntryKey(kind: Kind, e: Json): set<Path>
  {
    if Listed(kind, e) && Get(e.fields, PathField(kind), Str("")).Str?
    then {Subdir(kind) + "/" + Basename(Get(e.fields, PathField(kind), Str("")).s)}
    else {}
  }

  /** The `files_in_manifest` keys that a list contributes. */
  function Keys(kind: Kind, entries: seq<Json>): set<Path>
  {
    if entries == [] then {} else EntryKey(kind, entries[0]) + Keys(kind, entries[1..])
  }

  /** A fresh install (no config.json) refuses to run until a folder is set, and
      has stale-file removal switched on. */
  lemma FreshInstallNeedsFolder(manifest: Option<Json>, files: FileMap, fetch: Fetcher, hash: HashFunction, canRemove: Path -> bool)
    ensures Run(LoadConfig(None), manifest, files, fetch, hash, canRemove) == RunResult(NoFolder, files)
    ensures Truthy(Get(LoadConfig(None).fields, "remove_old", Bool(true)))
  {
  }

  /** A manifest with no "modpack" object, or with neither a non-empty `mods` nor a
      non-empty `configs`, is refused before any file is read, written, counted
      or removed. */
  lemma EmptyManifestRefused(config: Json, doc: Json, files: FileMap, fetch: Fetcher, hash: HashFunction, canRemove: Path -> bool)
    requires config.Obj? && Truthy(Get(config.fields, "mod_folder", Null))
    requires doc.Obj?
    requires "modpack" in doc.fields ==>
      var modpack := doc.fields["modpack"];
      modpack.Obj? && !Truthy(Get(modpack.fields, "mods", Arr([]))) && !Truthy(Get(modpack.fields, "configs", Arr([])))
    ensures Run(config, Some(doc), files, fetch, hash, canRemove) == RunResult(Failed(NoEntries), files)
  {
  }

  /** An entry whose path field is missing or empty is skipped: no key, no
      download, no count. */
  lemma UnnamedEntrySkipped(kind: Kind, entry: Json, modFolder: Path, t: Tally, fetch: Fetcher, hash: HashFunction)
    requires entry.Obj? && !Truthy(Get(entry.fields, PathField(kind), Str("")))
    ensures ProcessEntry(kind, entry, modFolder, t, fetch, hash) == Pass(t, None)
  {
  }

  /** For a file name without a separator, the key is `mods/f` (or `config/f`)
      and the destination is `mod_folder/mods/f` (or `mod_folder/config/f`). */
  lemma EntryPaths(kind: Kind, modFolder: Path, f: string)
    requires '/' !in f
    ensures Key(kind, f) == Subdir(kind) + "/" + f
    ensures Dest(kind, modFolder, f) == Join(modFolder, Subdir(kind)) + "/" + f
  {
    var sub := Join(modFolder, Subdir(kind));
    assert sub[|sub| - 1] == Subdir(kind)[|Subdir(kind)| - 1];
    assert f == "" || f[0] != '/';
  }

  /** An entry naming `.../f` records the key `mods/f` (or `config/f`), counts one
      success, and keeps `mod_folder/mods/f` when its digest equals the entry's
      `sha256`; otherwise it downloads `MOD_FOLDER_URL + f` (or
      `CONFIG_FOLDER_URL + f`) over it. */
  lemma NamedEntryProcessed(kind: Kind, entry: Json, modFolder: Path, t: Tally, fetch: Fetcher, hash: HashFunction)
    requires entry.Obj? && PathField(kind) in entry.fields
    requires entry.fields[PathField(kind)].Str? && entry.fields[PathField(kind)].s != ""
    ensures var f := Basename(entry.fields[PathField(kind)].s);
      var dest := Join(modFolder, Subdir(kind)) + "/" + f;
      var p := ProcessEntry(kind, entry, modFolder, t, fetch, hash);
      && p.failure == None
      && p.tally.success == t.success + 1
      && p.tally.inManifest == t.inManifest + {Subdir(kind) + "/" + f}
      && (dest in t.files && Get(entry.fields, "sha256", Null) == Str(hash(t.files[dest])) ==> p.tally.files == t.files)
      && (!(dest in t.files && Get(entry.fields, "sha256", Null) == Str(hash(t.files[dest]))) ==>
            p.tally.files == AfterDownload(t.files, dest, fetch(FolderUrl(kind) + f)))
  {
    EntryPaths(kind, modFolder, Basename(entry.fields[PathField(kind)].s));
  }

  /** A named entry without a `sha256` key is recorded, counted and downloaded,
      whether or not its destination exists. */
  lemma UndigestedNamedDownloads(kind: Kind, fields: map<string, Json>, f: string, modFolder: Path, t: Tally, fetch: Fetcher, hash: HashFunction)
    requires '/' !in f && "sha256" !in fields
    ensures ProcessNamed(kind, fields, f, modFolder, t, fetch, hash)
         == Pass(Tally(AfterDownload(t.files, Join(modFolder, Subdir(kind)) + "/" + f, fetch(FolderUrl(kind) + f)),
                       t.success + 1, t.inManifest + {Subdir(kind) + "/" + f}), None)
  {
    EntryPaths(kind, modFolder, f);
  }

  /** An entry without a `sha256` key never counts as up to date: an existing file
      is downloaded again. */
  lemma NoDigestAlwaysDownloads(files: FileMap, dest: Path, fields: map<string, Json>, hash: HashFunction)
    requires "sha256" !in fields
    ensures !UpToDate(files, dest, Get(fields, "sha256", Null), hash)
  {
  }

  /** One entry only adds or overwrites files, and when it does not raise it
      counts one success exactly when it is listed and records its key. */
  lemma EntryAccounting(kind: Kind, e: Json, modFolder: Path, t: Tally, fetch: Fetcher, hash: HashFunction)
    ensures var p := ProcessEntry(kind, e, modFolder, t, fetch, hash);
      && t.files.Keys <= p.tally.files.Keys
      && t.success <= p.tally.success
      && (p.failure.None? ==>
            p.tally.success == t.success + (if Listed(kind, e) then 1 else 0)
            && p.tally.inManifest == t.inManifest + EntryKey(kind, e))
  {
    if Listed(kind, e) && Get(e.fields, PathField(kind), Str("")).Str? {
      NamedEntryProcessed(kind, e, modFolder, t, fetch, hash);
    }
  }

  /** Over a whole list: files are only ever added or overwritten, and a list that
      raises nowhere counts one success per listed entry and records exactly its
      keys. */
  lemma {:induction false} ListAccounting(kind: Kind, entries: seq<Json>, modFolder: Path, t: Tally, fetch: Fetcher, hash: HashFunction)
    ensures var p := ProcessEntries(kind, entries, modFolder, t, fetch, hash);
      && t.files.Keys <= p.tally.files.Keys
      && t.success <= p.tally.success
      && (p.failure.None? ==>
            p.tally.success == t.success + CountListed(kind, entries)
            && p.tally.inManifest == t.inManifest + Keys(kind, entries))
    decreases |entries|
  {
    if entries != [] {
      var e := entries[0];
      var p := ProcessEntry(kind, e, modFolder, t, fetch, hash);
      EntryAccounting(kind, e, modFolder, t, fetch, hash);
      if p.failure.None? {
        ListAccounting(kind, entries[1..], modFolder, p.tally, fetch, hash);
      }
    }
  }

  /** Cleanup tries each name of `existing - files_in_manifest` once, so it removes
      at most that many files. */
  lemma RemovableBound(files: FileMap, modFolder: Path, inManifest: set<Path>, existing: set<Path>, canRemove: Path -> bool)
    ensures Removable(files, modFolder, inManifest, existing, canRemove) <= Targets(modFolder, inManifest, existing)
    ensures |Removable(files, modFolder, inManifest, existing, canRemove)| <= |existing - inManifest|
  {
    ImageBound(existing - inManifest, modFolder);
    SubsetBound(Removable(files, modFolder, inManifest, existing, canRemove), Targets(modFolder, inManifest, existing));
  }

  lemma {:induction false} SubsetBound(a: set<Path>, b: set<Path>)
    requires a <= b
    ensures |a| <= |b|
    decreases |b|
  {
    if a != {} {
      var x :| x in a;
      SubsetBound(a - {x}, b - {x});
    }
  }

  lemma {:induction false} ImageBound(names: set<Path>, modFolder: Path)
    ensures |set name | name in names :: Join(modFolder, name)| <= |names|
    decreases |names|
  {
    if names != {} {
      var x :| x in names;
      var rest := names - {x};
      ImageBound(rest, modFolder);
      assert (set name | name in names :: Join(modFolder, name))
          == (set name | name in rest :: Join(modFolder, name)) + {Join(modFolder, x)};
    }
  }

  /** A run never deletes a file: downloads only add or overwrite, and cleanup is
      handed an empty `existing_files`, so a completed run ends with exactly the
      files the two passes left. It reports one success per listed entry and zero
      errors, whatever the downloads did. */
  lemma RunAccounting(config: Json, manifest: Option<Json>, files: FileMap, fetch: Fetcher, hash: HashFunction, canRemove: Path -> bool)
    ensures files.Keys <= Run(config, manifest, files, fetch, hash, canRemove).files.Keys
    ensures Run(config, manifest, files, fetch, hash, canRemove).outcome.Completed? ==>
      var a := Admit(config, manifest);
      && a.Admitted? && Elements(a.mods).Some? && Elements(a.configs).Some?
      && Run(config, manifest, files, fetch, hash, canRemove).outcome
         == Completed(CountListed(ModFile, Elements(a.mods).value) + CountListed(ConfigFile, Elements(a.configs).value), 0)
      && var p1 := ProcessEntries(ModFile, Elements(a.mods).value, a.modFolder, Tally(files, 0, {}), fetch, hash);
         Run(config, manifest, files, fetch, hash, canRemove).files
         == ProcessEntries(ConfigFile, Elements(a.configs).value, a.modFolder, p1.tally, fetch, hash).tally.files
  {
    match Admit(config, manifest)
    case Refused(_) =>
    case Admitted(modFolder, mods, configs, removeOld) =>
      if Elements(mods).Some? {
        var t0 := Tally(files, 0, {});
        var p1 := ProcessEntries(ModFile, Elements(mods).value, modFolder, t0, fetch, hash);
        ListAccounting(ModFile, Elements(mods).value, modFolder, t0, fetch, hash);
        if p1.failure.None? && Elements(configs).Some? {
          ListAccounting(ConfigFile, Elements(configs).value, modFolder, p1.tally, fetch, hash);
          var t := ProcessEntries(ConfigFile, Elements(configs).value, modFolder, p1.tally, fetch, hash).tally;
          assert Removable(t.files, modFolder, t.inManifest, {}, canRemove) == {};
        }
      }
  }

  /** An entry whose destination already holds the expected digest. */
  predicate Current(kind: Kind, entry: Json, modFolder: Path, files: FileMap, hash: HashFunction)
  {
    Listed(kind, entry) && Get(entry.fields, PathField(kind), Str("")).Str? ==>
      var relPath := Get(entry.fields, PathField(kind), Str(""));
      UpToDate(files, Dest(kind, modFolder, Basename(relPath.s)), Get(entry.fields, "sha256", Null), hash)
  }

  /** On a fully synchronised tree a pass downloads nothing: the files are left as
      they were. */
  lemma {:induction false} SyncedTreeUntouched(kind: Kind, entries: seq<Json>, modFolder: Path, t: Tally, fetch: Fetcher, hash: HashFunction)
    requires forall i :: 0 <= i < |entries| ==> Current(kind, entries[i], modFolder, t.files, hash)
    ensures ProcessEntries(kind, entries, modFolder, t, fetch, hash).tally.files == t.files
    decreases |entries|
  {
    if entries != [] {
      var p := ProcessEntry(kind, entries[0], modFolder, t, fetch, hash);
      assert Current(kind, entries[0], modFolder, t.files, hash);
      assert p.tally.files == t.files;
      if p.failure.None? {
        assert forall i :: 0 <= i < |entries[1..]| ==> entries[1..][i] == entries[i + 1];
        SyncedTreeUntouched(kind, entries[1..], modFolder, p.tally, fetch, hash);
      }
    }
  }
}
