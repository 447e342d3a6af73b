/** What `run_update` does with the manifests the two builders write: the flat
    manifest is refused outright, and the modpack manifest makes every mod be
    downloaded again on every run, since its entries carry no digest. */
module Interplay {
  import opened Wrappers
  import opened PyJson
  import opened Paths
  import opened Digests
  import opened Transfer
  import opened Listing
  import opened Sync
  import FlatManifestBuilder
  import ModpackManifestBuilder

  /** Names `os.listdir` returns hold no separator; `.jar` names are non-empty. */
  predicate PlainNames(names: seq<string>)
  {
    forall n :: n in names ==> '/' !in n && n != ""
  }

  /** The flat manifest has no "modpack" key, so a run on it stops with "No mods
      or configs found in manifest!" before any file is read, written or removed. */
  lemma FlatManifestRefused(config: Json, listing: seq<string>, repo: FileMap, files: FileMap, fetch: Fetcher, hash: HashFunction, canRemove: Path -> bool)
    requires config.Obj? && Truthy(Get(config.fields, "mod_folder", Null))
    requires forall name :: name in listing && IsJar(name) ==> Join(FlatManifestBuilder.ModsDir, name) in repo
    ensures Run(config, Some(FlatManifestBuilder.FlatManifest(listing, repo, hash)), files, fetch, hash, canRemove)
         == RunResult(Failed(NoEntries), files)
  {
    FlatManifestBuilder.FlatManifestHasNoModpack(listing, repo, hash);
    EmptyManifestRefused(config, FlatManifestBuilder.FlatManifest(listing, repo, hash), files, fetch, hash, canRemove);
  }

  /** The modpack entry for `f` is a dict naming `f` under the repository's mods
      directory and carrying no digest. */
  lemma ModEntryFacts(f: string)
    requires '/' !in f && f != ""
    ensures var entry := ModpackManifestBuilder.ModEntry(f);
      var relPath := Get(entry.fields, "file", Str(""));
      && entry.Obj? && relPath.Str? && Truthy(relPath)
      && Basename(relPath.s) == f
      && "sha256" !in entry.fields
  {
    BasenameUnderDirectory(ModpackManifestBuilder.ModsDir, f);
  }

  /** One entry of the modpack manifest for `f`: recorded as `mods/f`, counted,
      and always downloaded from `MOD_FOLDER_URL + f` to `mod_folder/mods/f`,
      whether or not that file is already there. */
  lemma ModpackEntryFetched(f: string, modFolder: Path, t: Tally, fetch: Fetcher, hash: HashFunction)
    requires '/' !in f && f != ""
    ensures ProcessEntry(ModFile, ModpackManifestBuilder.ModEntry(f), modFolder, t, fetch, hash)
         == Pass(Tally(AfterDownload(t.files, Join(modFolder, Subdir(ModFile)) + "/" + f, fetch(FolderUrl(ModFile) + f)),
                       t.success + 1, t.inManifest + {Subdir(ModFile) + "/" + f}), None)
  {
    var entry := ModpackManifestBuilder.ModEntry(f);
    ModEntryFacts(f);
    assert ProcessEntry(ModFile, entry, modFolder, t, fetch, hash) == ProcessNamed(ModFile, entry.fields, f, modFolder, t, fetch, hash);
    UndigestedNamedDownloads(ModFile, entry.fields, f, modFolder, t, fetch, hash);
  }

  /** The keys `files_in_manifest` gets for a list of mod names. */
  function ModKeys(names: seq<string>): set<Path>
  {
    set n | n in names :: Subdir(ModFile) + "/" + n
  }

  lemma ModListSplit(names: seq<string>)
    requires names != []
    ensures ModpackManifestBuilder.ModEntries(names)[0] == ModpackManifestBuilder.ModEntry(names[0])
    ensures ModpackManifestBuilder.ModEntries(names)[1..] == ModpackManifestBuilder.ModEntries(names[1..])
    ensures ModKeys(names) == {Subdir(ModFile) + "/" + names[0]} + ModKeys(names[1..])
    ensures forall n :: n in names <==> n == names[0] || n in names[1..]
  {
    assert names == [names[0]] + names[1..];
  }

  /** The `mods` list the modpack builder writes for `names`: no entry raises,
      and each counts one success and records `mods/<name>`. */
  lemma {:induction false} ModpackListSync(names: seq<string>, modFolder: Path, t: Tally, fetch: Fetcher, hash: HashFunction)
    requires PlainNames(names)
    ensures var p := ProcessEntries(ModFile, ModpackManifestBuilder.ModEntries(names), modFolder, t, fetch, hash);
      && p.failure == None
      && p.tally.success == t.success + |names|
      && p.tally.inManifest == t.inManifest + ModKeys(names)
    decreases |names|
  {
    var entries := ModpackManifestBuilder.ModEntries(names);
    if names != [] {
      var f := names[0];
      ModListSplit(names);
      ModpackEntryFetched(f, modFolder, t, fetch, hash);
      var t1 := ProcessEntry(ModFile, entries[0], modFolder, t, fetch, hash).tally;
      ModpackListSync(names[1..], modFolder, t1, fetch, hash);
    }
  }

  /** After the `mods` list the modpack builder writes for `names`, every mod
      whose URL answers is present under `mod_folder/mods`. */
  lemma {:induction false} ModpackListFetched(names: seq<string>, modFolder: Path, t: Tally, fetch: Fetcher, hash: HashFunction)
    requires PlainNames(names)
    ensures var p := ProcessEntries(ModFile, ModpackManifestBuilder.ModEntries(names), modFolder, t, fetch, hash);
      forall n :: n in names && fetch(FolderUrl(ModFile) + n).Reply? ==> Join(modFolder, Subdir(ModFile)) + "/" + n in p.tally.files
    decreases |names|
  {
    var entries := ModpackManifestBuilder.ModEntries(names);
    if names != [] {
      var f := names[0];
      ModListSplit(names);
      ModpackEntryFetched(f, modFolder, t, fetch, hash);
      var t1 := ProcessEntry(ModFile, entries[0], modFolder, t, fetch, hash).tally;
      ModpackListFetched(names[1..], modFolder, t1, fetch, hash);
      ListAccounting(ModFile, entries[1..], modFolder, t1, fetch, hash);
    }
  }

  /** Settings under which `run_update` goes ahead: a dict whose `mod_folder`
      is a non-empty string. */
  predicate FolderSet(config: Json)
  {
    config.Obj? && Get(config.fields, "mod_folder", Null).Str? && Truthy(Get(config.fields, "mod_folder", Null))
  }

  /** A run on the modpack manifest of a directory holding at least one `.jar`
      completes, counting one success per `.jar` and no error, and records
      `mods/<name>` for each of them. */
  lemma ModpackRunCompletes(config: Json, listing: seq<string>, files: FileMap, fetch: Fetcher, hash: HashFunction, canRemove: Path -> bool)
    requires FolderSet(config)
    requires PlainNames(listing)
    requires Jars(listing) != []
    ensures Run(config, Some(ModpackManifestBuilder.ModpackDocument(ModpackManifestBuilder.ModEntries(Jars(listing)))),
                files, fetch, hash, canRemove).outcome == Completed(|Jars(listing)|, 0)
  {
    var names := Jars(listing);
    var items := ModpackManifestBuilder.ModEntries(names);
    var doc := ModpackManifestBuilder.ModpackDocument(items);
    var modpack := Get(doc.fields, "modpack", Obj(map[]));
    assert modpack.Obj? && modpack.fields["mods"] == Arr(items);
    assert "configs" !in modpack.fields;
    assert |items| > 0;
    var modFolder := config.fields["mod_folder"].s;
    assert Admit(config, Some(doc)) == Admitted(modFolder, Arr(items), Arr([]), Truthy(Get(config.fields, "remove_old", Bool(true))));
    assert PlainNames(names) by {
      JarsMembers(listing);
    }
    ModpackListSync(names, modFolder, Tally(files, 0, {}), fetch, hash);
  }

  /** A mods directory with no `.jar` gives a manifest with an empty `mods` list,
      which `run_update` refuses with "No mods or configs found in manifest!". */
  lemma EmptyModsDirRefused(config: Json, listing: seq<string>, files: FileMap, fetch: Fetcher, hash: HashFunction, canRemove: Path -> bool)
    requires config.Obj? && Truthy(Get(config.fields, "mod_folder", Null))
    requires Jars(listing) == []
    ensures Run(config, Some(ModpackManifestBuilder.ModpackDocument(ModpackManifestBuilder.ModEntries(Jars(listing)))),
                files, fetch, hash, canRemove) == RunResult(Failed(NoEntries), files)
  {
    assert ModpackManifestBuilder.ModEntries(Jars(listing)) == [];
  }
}
