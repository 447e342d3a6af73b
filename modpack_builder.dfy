/** The current manifest builder: a `{"modpack": {...}}` document listing one
    entry per `.jar` name of the mods directory, in listing order. */
module ModpackManifestBuilder {
  import opened PyJson
  import opened Listing

  const ModsDir := "your-modpack-repo/mods"

  /** The entry written for one file: no digest. */
  function ModEntry(filename: string): Json
  {
    Obj(map["name" := Str(filename), "version" := Str("1.0.0"), "file" := Str(ModsDir + "/" + filename)])
  }

  function ModEntries(names: seq<string>): seq<Json>
  {
    seq(|names|, i requires 0 <= i < |names| => ModEntry(names[i]))
  }

  function ModpackDocument(mods: seq<Json>): Json
  {
    Obj(map["modpack" := Obj(map["name" := Str("My Modpack"), "version" := Str("1.0.0"), "mods" := Arr(mods)])])
  }

  /** `generate_manifest`: the document whose `mods` list holds one entry per
      `.jar` name of the listing, appended in listing order. */
  method GenerateManifest(listing: seq<string>) returns (manifest: Json)
    ensures manifest == ModpackDocument(ModEntries(Jars(listing)))
  {
    var mods: seq<Json> := [];
    for i := 0 to |listing|
      invariant mods == ModEntries(Jars(listing[..i]))
    {
      var filename := listing[i];
      assert listing[..i + 1][..i] == listing[..i];
      if IsJar(filename) {
        var mod := ModEntry(filename);
        assert ModEntries(Jars(listing[..i]) + [filename]) == mods + [mod];
        mods := mods + [mod];
      }
    }
    assert listing[..|listing|] == listing;
    manifest := ModpackDocument(mods);
  }

  /** The document has the single key "modpack", named "My Modpack" at version
      "1.0.0"; the `mods` list has one entry per `.jar` name, in listing order,
      each with that name, version "1.0.0", the file under `ModsDir`, and no
      `sha256`. */
  lemma ModpackDocumentShape(listing: seq<string>)
    ensures var doc := ModpackDocument(ModEntries(Jars(listing)));
      var modpack := doc.fields["modpack"];
      && doc.fields.Keys == {"modpack"}
      && modpack.Obj? && modpack.fields.Keys == {"name", "version", "mods"}
      && modpack.fields["name"] == Str("My Modpack") && modpack.fields["version"] == Str("1.0.0")
      && modpack.fields["mods"].Arr?
      && |modpack.fields["mods"].items| == |Jars(listing)|
      && forall i :: 0 <= i < |Jars(listing)| ==>
           var e := modpack.fields["mods"].items[i];
           && e.Obj? && "sha256" !in e.fields
           && e.fields["name"] == Str(Jars(listing)[i])
           && e.fields["version"] == Str("1.0.0")
           && e.fields["file"] == Str(ModsDir + "/" + Jars(listing)[i])
  {
  }
}
