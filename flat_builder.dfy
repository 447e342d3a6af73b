/** The older manifest builder: a flat JSON object mapping each `.jar` name of
    the mods directory to its download URL and SHA-256 digest. */
module FlatManifestBuilder {
  import opened PyJson
  import opened Paths
  import opened Digests
  import opened Listing
  import opened Transfer

  const ModsDir := "mods"
  const BaseUrl := "https://raw.githubusercontent.com/you-cant-run/minecraft-modpack-updater/main/mods/"
  /** The chunk size of this script's `calculate_sha256`. */
  const HashChunk := 4096

  /** The entry written for one file: exactly a URL and a digest. */
  function FlatEntry(name: string, digest: Digest): Json
  {
    Obj(map["url" := Str(BaseUrl + name), "sha256" := Str(digest)])
  }

  /** The entries for a listing of the mods directory, with file contents taken
      from `files` (paths relative to the working directory): each `.jar` name in
      turn is assigned its entry. */
  function FlatEntries(listing: seq<string>, files: FileMap, hash: HashFunction): map<string, Json>
    requires forall name :: name in listing && IsJar(name) ==> Join(ModsDir, name) in files
  {
    if listing == [] then map[]
    else
      var init := listing[..|listing| - 1];
      var last := listing[|listing| - 1];
      assert forall name :: name in init ==> name in listing;
      var entries := FlatEntries(init, files, hash);
      if IsJar(last) then entries[last := FlatEntry(last, hash(files[Join(ModsDir, last)]))] else entries
  }

  function FlatManifest(listing: seq<string>, files: FileMap, hash: HashFunction): Json
    requires forall name :: name in listing && IsJar(name) ==> Join(ModsDir, name) in files
  {
    Obj(FlatEntries(listing, files, hash))
  }

  /** `generate_manifest`: the manifest dict filled in listing order, each file's
      digest read in 4096-byte chunks, and the count it prints. */
  method GenerateManifest(listing: seq<string>, files: FileMap, hash: HashFunction) returns (manifest: Json, count: nat)
    requires forall name :: name in listing && IsJar(name) ==> Join(ModsDir, name) in files
    ensures manifest == FlatManifest(listing, files, hash)
    ensures count == |manifest.fields|
  {
    var entries: map<string, Json> := map[];
    for i := 0 to |listing|
      invariant entries == FlatEntries(listing[..i], files, hash)
    {
      var filename := listing[i];
      assert listing[..i + 1][..i] == listing[..i];
      if IsJar(filename) {
        var filepath := Join(ModsDir, filename);
        var fileHash := DigestFile(files[filepath], HashChunk, hash);
        entries := entries[filename := FlatEntry(filename, fileHash)];
      }
    }
    assert listing[..|listing|] == listing;
    manifest := Obj(entries);
    count := |entries|;
  }

  /** Exactly the `.jar` names of the listing become keys. */
  lemma {:induction false} FlatManifestKeys(listing: seq<string>, files: FileMap, hash: HashFunction)
    requires forall name :: name in listing && IsJar(name) ==> Join(ModsDir, name) in files
    ensures FlatManifest(listing, files, hash).fields.Keys == JarSet(listing)
  {
    if listing != [] {
      var init := listing[..|listing| - 1];
      var last := listing[|listing| - 1];
      assert listing == init + [last];
      assert forall name :: name in init ==> name in listing;
      FlatManifestKeys(init, files, hash);
      if IsJar(last) {
        assert JarSet(listing) == JarSet(init) + {last};
      } else {
        assert JarSet(listing) == JarSet(init);
      }
    }
  }

  /** Each key holds only `url`, the base URL followed by the name, and `sha256`,
      the digest of the file `mods/<name>`. */
  lemma {:induction false} FlatManifestValues(listing: seq<string>, files: FileMap, hash: HashFunction, name: string)
    requires forall name :: name in listing && IsJar(name) ==> Join(ModsDir, name) in files
    requires name in FlatManifest(listing, files, hash).fields
    ensures Join(ModsDir, name) in files
    ensures FlatManifest(listing, files, hash).fields[name] == FlatEntry(name, hash(files[Join(ModsDir, name)]))
    ensures var e := FlatManifest(listing, files, hash).fields[name];
      && e.Obj? && e.fields.Keys == {"url", "sha256"}
      && e.fields["url"] == Str(BaseUrl + name)
      && e.fields["sha256"] == Str(hash(files[Join(ModsDir, name)]))
  {
    var init := listing[..|listing| - 1];
    var last := listing[|listing| - 1];
    assert forall name :: name in init ==> name in listing;
    if !(IsJar(last) && name == last) {
      FlatManifestValues(init, files, hash, name);
    }
  }

  /** No `.jar` name is "modpack", so the flat manifest never has that key. */
  lemma FlatManifestHasNoModpack(listing: seq<string>, files: FileMap, hash: HashFunction)
    requires forall name :: name in listing && IsJar(name) ==> Join(ModsDir, name) in files
    ensures "modpack" !in FlatManifest(listing, files, hash).fields
  {
    assert !IsJar("modpack") by {
      assert "modpack"[3..] == "pack";
    }
    FlatManifestKeys(listing, files, hash);
  }

  /** When the listing repeats no name, the printed count is the number of `.jar`
      entries of the listing. */
  lemma FlatManifestCount(listing: seq<string>, files: FileMap, hash: HashFunction)
    requires forall name :: name in listing && IsJar(name) ==> Join(ModsDir, name) in files
    requires Distinct(listing)
    ensures |FlatManifest(listing, files, hash).fields| == |Jars(listing)|
  {
    FlatManifestKeys(listing, files, hash);
    JarCount(listing);
  }
}
