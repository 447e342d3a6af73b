# Minecraft modpack updater: a verified model

The modpack updater keeps a local Minecraft folder in sync with a modpack
published in a Git repository. It fetches a JSON manifest whose
`"modpack"` object lists `mods` and `configs`. For each entry it derives a
key, a destination and a download URL from the entry's file name. It keeps
an existing destination whose SHA-256 digest equals the entry's `sha256`
and downloads everything else. It counts its successes, checks each
download's digest, and, when `remove_old` is set, tries to remove stale
files. Two small scripts build manifests from the repository's mods
directory:

- a legacy one writes a flat `name -> {url, sha256}` object;
- the current one writes the `{"modpack": {..., "mods": [...]}}` document
  without digests.

The model is written in Dafny and follows the Python code:

- `ModUpdater` and `ModUpdaterApp` are classes whose fields are the
  settings, the saved settings file and the local filesystem. Their
  loops are Dafny loops.
- Each method is proved equal to a pure function:
  - `RunUpdate` to `Sync.Run`;
  - the entry loop to `Sync.ProcessEntries`;
  - `download_file` to `Transfer.AfterDownload`;
  - cleanup to `Sync.Removable`.
- The properties the code promises are lemmas about those functions.
- Both manifest builders are methods proved against the document
  functions they fill in.
- The lemmas in `Interplay` state what the updater does with each
  builder's output.

Modelling choices:

- JSON values are a datatype with Python's truthiness, `dict.get` and
  `==` (`PyJson`).
- What a `for` loop does with a value that is not a list is captured by
  `PyJson.Elements`.
- The filesystem is a map from path to bytes. Paths follow POSIX
  `os.path.join` and `os.path.basename` (`Paths`).
- SHA-256 is a hash function passed in. Every result holds for any such
  function.
- The network is a function from URL to response. A response is either
  "`urlopen` raised" or a Content-Length header, the chunks successive
  reads return, and whether the stream ends cleanly.
- Whether `os.remove` raises for a path is a predicate passed in.
- The manifest fetch and decode is a parameter of `RunUpdate`: the
  decoded document, or None when fetching or decoding raised.

Where the code and its stated design differ, the model follows the code:

- Downloads write straight to the destination. There is no temporary
  file, and a partial or hash-mismatched file stays on disk
  (`Transfer.InterruptedDownloadLeavesPartialFile`,
  `Updater.ModUpdaterApp.DownloadVerified`).
- `errors` is never incremented, so a completed run always reports 0
  errors (`Sync.RunAccounting`).
- `existing_files` is never filled, so cleanup removes nothing and a run
  never deletes a file (`Sync.RunAccounting`).

## Model

| member | source | states |
|---|---|---|
| Updater.ModUpdater.constructor | your-modpack-repo/updater.py:35-46 | the settings are the stored config.json when it could be read, else the defaults `mod_folder ""`, `remove_old True`, `theme "dark"` |
| Updater.ModUpdater.SaveConfig | your-modpack-repo/updater.py:48-50 | config.json then holds the current settings, and loading it gives them back unchanged |
| Updater.ModUpdater.CalculateSha256 | your-modpack-repo/updater.py:52-59 | None for a missing path, otherwise the digest of the whole file read in 8192-byte chunks |
| Digests.DigestFile | your-modpack-repo/updater.py:55-59 | reading in chunks of any positive size until an empty read feeds the hasher exactly the file contents, so the digest is that of the whole file |
| Updater.ModUpdater.DownloadFile | your-modpack-repo/updater.py:61-80 | the destination ends as `AfterDownload` says; the result is True exactly when no exception was raised, and an error is given exactly when it is False; the progress counts are `ProgressReports` |
| Transfer.Taken | your-modpack-repo/updater.py:70-73 | the chunks read are a prefix of the response, all non-empty, ending at the first empty read |
| Transfer.TakenIsPrefix | your-modpack-repo/updater.py:70-73 | a loop that stopped at index i with all earlier chunks non-empty has read exactly the first i chunks |
| Transfer.ChunkStep | your-modpack-repo/updater.py:74-77 | reading one more chunk appends it to the bytes written and appends its running total |
| Transfer.TotalsProperties | your-modpack-repo/updater.py:75 | one running total per chunk; the totals never decrease, are bounded by the bytes written, and the last is the number of bytes written |
| Transfer.ProgressNeverDecreases | your-modpack-repo/updater.py:74-77 | the callback fires once per chunk when Content-Length > 0 and never otherwise; its counts never decrease, and the last is the size of the file written |
| Transfer.InterruptedDownloadLeavesPartialFile | your-modpack-repo/updater.py:67-80 | a stream that breaks after some chunks makes the call fail, yet leaves those chunks in the destination |
| Updater.ModUpdaterApp.SetModFolder | your-modpack-repo/updater.py:205-215 | a non-empty folder from the dialog becomes `mod_folder` and is saved; a cancelled dialog changes nothing |
| Updater.ModUpdaterApp.ChangeTheme | your-modpack-repo/updater.py:371-374 | the theme is set in the settings and saved |
| Updater.ModUpdaterApp.RunUpdate | your-modpack-repo/updater.py:217-301 | the outcome and the final filesystem are those of `Sync.Run` |
| Sync.LoadConfig | your-modpack-repo/updater.py:38-46 | defines the settings: the decoded config.json when it was read, else `mod_folder ""`, `remove_old True`, `theme "dark"` |
| Sync.Admit | your-modpack-repo/updater.py:218-241 | defines the checks before any file is touched: a non-dict config raises, a falsy `mod_folder` stops, a failed fetch or a non-dict manifest or `modpack` fails, empty `mods` and `configs` fail, a non-string folder fails |
| Sync.ProcessEntry | your-modpack-repo/updater.py:248-269 | defines one iteration: a non-dict entry raises, a falsy path skips, a non-string path raises, otherwise the named step |
| Sync.ProcessNamed | your-modpack-repo/updater.py:253-269 | defines the named step: record the key, count one success, keep an up-to-date destination, download otherwise |
| Sync.ProcessEntries | your-modpack-repo/updater.py:248-293 | defines a whole loop: each entry in order, stopping at the first that raises |
| Sync.Run | your-modpack-repo/updater.py:217-301 | defines a run: admission, the mods pass, the configs pass, cleanup when `remove_old` is truthy with an empty `existing_files`, then the two counters |
| Transfer.AfterDownload | your-modpack-repo/updater.py:61-80 | defines the destination after `download_file`: untouched when `urlopen` raises, emptied when the length header is malformed, otherwise the bytes read before the first empty read |
| Transfer.DownloadOk | your-modpack-repo/updater.py:61-80 | defines the first result: a reply, a readable length header, and a read loop that ended on an empty read |
| Transfer.ProgressReports | your-modpack-repo/updater.py:74-77 | defines the callback's byte counts: the running totals when Content-Length > 0, else none |
| Paths.Join | your-modpack-repo/updater.py:254-255 | defines POSIX `os.path.join` of two parts |
| Digests.Hasher.Update | your-modpack-repo/updater.py:55-58 | `update` appends the chunk to the bytes the hasher has absorbed |
| Sync.FreshInstallNeedsFolder | your-modpack-repo/updater.py:38-46 | without config.json the defaults apply: the run stops at "set a mod folder first" and leaves every file alone, and `remove_old` is on |
| Sync.EmptyManifestRefused | your-modpack-repo/updater.py:233-238 | a manifest without a "modpack" object, or with neither a non-empty `mods` nor a non-empty `configs`, is refused before any file is touched |
| Sync.UnnamedEntrySkipped | your-modpack-repo/updater.py:249-251 | an entry with a missing or empty path field is skipped: no key, no download, no count |
| Sync.EntryPaths | your-modpack-repo/updater.py:253-255 | for a name f, the key is `mods/f` (`config/f`) and the destination is `mod_folder/mods/f` (`mod_folder/config/f`) |
| Sync.NamedEntryProcessed | your-modpack-repo/updater.py:248-269 | a named entry records its key and counts one success; it keeps a destination whose digest equals `sha256` and otherwise downloads `MOD_FOLDER_URL + f` (`CONFIG_FOLDER_URL + f`) over it |
| Sync.NoDigestAlwaysDownloads | your-modpack-repo/updater.py:261-263 | an entry without `sha256` is never up to date, so an existing file is downloaded again |
| Sync.UndigestedNamedDownloads | your-modpack-repo/updater.py:253-269 | a named entry without `sha256` is recorded, counted and downloaded, whether or not the destination exists |
| Sync.EntryAccounting | your-modpack-repo/updater.py:248-269 | one entry only adds or overwrites files; when it does not raise it counts one success exactly when its path is non-empty, and records its key |
| Sync.ListAccounting | your-modpack-repo/updater.py:248-293 | over a whole list files are only added or overwritten; a list that raises nowhere counts one success per named entry and records exactly its keys |
| Sync.SyncedTreeUntouched | your-modpack-repo/updater.py:261-266 | when every entry's destination already has the expected digest, a pass downloads nothing |
| Sync.RunAccounting | your-modpack-repo/updater.py:243-301 | a run never deletes a file; a completed run ends with exactly the files its two passes left, so cleanup removes nothing, and it reports one success per named mod and config entry and 0 errors |
| Updater.ModUpdaterApp.HandleEntry | your-modpack-repo/updater.py:248-269 | one loop iteration does to the counters, the key set and the files what `Sync.ProcessEntry` says |
| Updater.ModUpdaterApp.HandleNamed | your-modpack-repo/updater.py:253-269 | the keep-or-download step does what `Sync.ProcessNamed` says |
| Updater.ModUpdaterApp.ProcessList | your-modpack-repo/updater.py:248-293 | a whole loop does what `Sync.ProcessEntries` says, stopping at the first entry that raises |
| Updater.ModUpdaterApp.DownloadVerified | your-modpack-repo/updater.py:314-332 | the verdict is True exactly when the download raised nothing and the entry has no `sha256` or it equals the digest of the bytes written; the file is never rolled back |
| Updater.ModUpdaterApp.CleanupFiles | your-modpack-repo/updater.py:334-345 | each name of `existing - files_in_manifest` is tried once; exactly the present, removable targets are removed; `removed` counts them and is at most the size of that difference |
| Sync.RemovableMember | your-modpack-repo/updater.py:336-342 | a target is removed exactly when it is present and removing it does not raise |
| Sync.RemovableBound | your-modpack-repo/updater.py:336-345 | cleanup removes only targets, and at most one file per name in `existing - files_in_manifest` |
| Paths.Basename | your-modpack-repo/updater.py:253 | the basename holds no separator and is the whole path when the path has none |
| Paths.BasenameSuffix | your-modpack-repo/updater.py:253 | the basename is the suffix after the last separator |
| Paths.BasenameUnderDirectory | generate_manifest.py:22 | the basename of `dir + "/" + f` is f when f holds no separator |
| Listing.JarsMembers | generate_manifest.py:17-18 | exactly the listing names ending in `.jar` survive the filter, and there are no more of them than names |
| Listing.JarsAppend | generate_manifest.py:17-24 | the filter keeps listing order: filtering a concatenation concatenates the filters |
| Listing.JarCount | your-modpack-repo/generate_manifest.py:18-22 | a listing without repeated names has as many distinct `.jar` names as `.jar` entries |
| FlatManifestBuilder.FlatEntry | your-modpack-repo/generate_manifest.py:22-25 | defines one entry: exactly `url` and `sha256` |
| FlatManifestBuilder.FlatEntries | your-modpack-repo/generate_manifest.py:17-25 | defines the dict the loop fills: each `.jar` name in listing order assigned its entry |
| FlatManifestBuilder.GenerateManifest | your-modpack-repo/generate_manifest.py:9-28 | the manifest is `FlatManifest` of the listing, filled in listing order with 4096-byte digests, and the printed count is its number of keys |
| FlatManifestBuilder.FlatManifestKeys | your-modpack-repo/generate_manifest.py:18-22 | the keys are exactly the `.jar` names of the listing |
| FlatManifestBuilder.FlatManifestValues | your-modpack-repo/generate_manifest.py:20-25 | each key holds only `url == BASE_URL + name` and `sha256` == the digest of `mods/name` |
| FlatManifestBuilder.FlatManifestCount | your-modpack-repo/generate_manifest.py:28 | for a listing without repeats the printed count is the number of `.jar` names |
| FlatManifestBuilder.FlatManifestHasNoModpack | your-modpack-repo/generate_manifest.py:17-22 | the flat manifest never has a "modpack" key |
| ModpackManifestBuilder.ModEntry | generate_manifest.py:19-23 | defines one entry: `name`, `version "1.0.0"` and `file == MODS_DIR + "/" + name` |
| ModpackManifestBuilder.ModpackDocument | generate_manifest.py:8-14 | defines the document around a `mods` list |
| ModpackManifestBuilder.GenerateManifest | generate_manifest.py:7-24 | the document is `ModpackDocument` of one `ModEntry` per `.jar` name, appended in listing order |
| ModpackManifestBuilder.ModpackDocumentShape | generate_manifest.py:8-24 | one top-level "modpack" object named "My Modpack" at version "1.0.0"; `mods` has one entry per `.jar` name in order, each with that name, version "1.0.0", `file == MODS_DIR + "/" + name` and no `sha256` |
| Interplay.FlatManifestRefused | your-modpack-repo/updater.py:233-238 | the updater refuses the flat manifest before touching any file |
| Interplay.ModEntryFacts | generate_manifest.py:19-23 | a modpack entry is a dict whose `file` has the original name as basename and which has no `sha256` |
| Interplay.ModpackEntryFetched | your-modpack-repo/updater.py:248-269 | a modpack-builder entry for f is recorded as `mods/f`, counted, and always downloaded from `MOD_FOLDER_URL + f` to `mod_folder/mods/f` |
| Interplay.ModpackListSync | your-modpack-repo/updater.py:248-269 | the builder's `mods` list raises nowhere, counts one success per name and records `mods/name` for each |
| Interplay.ModpackListFetched | your-modpack-repo/updater.py:248-269 | after the builder's `mods` list, every mod whose URL answers is present under `mod_folder/mods` |
| Interplay.ModpackRunCompletes | your-modpack-repo/updater.py:217-301 | a run on the builder's manifest of a directory with at least one `.jar` completes with one success per `.jar` and 0 errors |
| Interplay.EmptyModsDirRefused | your-modpack-repo/updater.py:233-238 | a mods directory without `.jar` files gives a manifest the updater refuses |

## Left out

- The Tkinter window, menus, themes, icon, log console, status line and
  message boxes. These are presentation. Only the settings updates of
  `set_mod_folder` and `change_theme` are modelled; the chosen folder is a
  parameter and `sv_ttk.set_theme` is not modelled.
- JSON encoding and decoding, and the platform's config directory. The
  decoded config.json is a parameter of the `ModUpdater` constructor, and
  `save_config` stores the settings value itself. A failing write in
  `save_config` is not modelled.
- Real I/O: `urlopen`, `open`, `os.listdir`, `os.remove`, `os.makedirs`.
  - Each is replaced by a map, a function or a listing passed in.
  - Directories are not modelled: `os.makedirs` always succeeds, and a
    path naming a directory is treated as absent.
  - The network answers each URL the same way throughout a run.
- The manifest request of `run_update` is not modelled: its decoded
  result, or None for any exception, is a parameter. `FetchFailed` then
  covers both the HTTP-error handler and the generic one.
- The float percentage passed to the progress callback. The model keeps
  the integer byte counts behind it and when the callback fires.
- Updater.ModUpdater.DownloadFile: the model does not bound each chunk to
  8192 bytes, because the chunks are whatever the response yields.
- Floating-point JSON numbers. Numbers are integers only.
- Exceptions are not distinguished by type or message. A run that raises
  inside the `try` is `Failed` with a reason. A run whose settings are not
  a dict raises before the `try` at line 218, and is `Crashed`.
- Logging.
- The legacy builder's `BASE_URL` (`.../main/mods/`) differs from the
  updater's `MOD_FOLDER_URL`. This has no effect, because the updater
  refuses that manifest before reading any entry.
- Iterating a non-empty string or dict as the `mods` or `configs` list is
  modelled as raising before the first iteration has any effect. The
  first element is then a string, and its `.get` raises.
- Paths are POSIX only: Windows separators and drive letters are not
  modelled.
- A listed `.jar` name that cannot be opened, such as a directory named
  `x.jar`, makes the legacy builder raise before it writes manifest.json.
  The model requires a file for every `.jar` name and does not model that
  failure. Names that do not end in `.jar` are never opened, and need no
  file.
- An entry whose path ends in a separator, such as `{"file": "x/"}`, has an
  empty basename, so its destination is the `mods` (or `config`) directory
  itself. Once that directory exists, the program computes the digest of a
  directory, which raises and aborts the run. The model has no
  directories: it treats the destination as absent, downloads over it and
  completes the run.
