/** The glTF path rules of the model loader: which URLs and dropped files
    count as glTF assets, which dropped file is loaded and from which root
    path, and how the loader's URL modifier rewrites the URLs the asset
    refers to into keys of the dropped-file map. The loaders themselves, the
    Promise and the browser's URL and URI helpers are outside the model;
    the helpers are passed in as functions. */
module ModelManager {
  import opened Options
  import opened JsStrings

  /** A dropped File: its name and an identity standing for its contents. */
  datatype File = File(name: string, id: nat)

  /** A dropped-file map as `Array.from` lists it: (path, file) entries in
      insertion order. */
  type FileMap = seq<(string, File)>

  /** The arguments `loadGltfFile` is called with: the root path that is
      prefixed to every referenced URL, the file map to resolve them in
      (absent for a URL load), and the URL of the glTF file itself. */
  datatype LoadRequest = LoadRequest(rootPath: string, fileMap: Option<FileMap>, gltfUrl: string)

  /** The anchored `/\.(gltf|glb)$/` test: case-sensitive, with a literal
      dot. A passing name is a stem followed by ".gltf" or by ".glb"; the
      converse is `IsGltfNameShape`. */
  predicate IsGltfName(name: string)
    ensures IsGltfName(name) ==> exists stem :: name == stem + ".gltf" || name == stem + ".glb"
  {
    if EndsWith(name, ".gltf") then
      assert name == name[..|name| - 5] + ".gltf";
      true
    else if EndsWith(name, ".glb") then
      assert name == name[..|name| - 4] + ".glb";
      true
    else
      false
  }

  /** A name passes the test exactly when it is some stem followed by
      ".gltf" or by ".glb". */
  lemma IsGltfNameShape(name: string)
    ensures IsGltfName(name) <==> exists stem :: name == stem + ".gltf" || name == stem + ".glb"
  {
    if exists stem :: name == stem + ".gltf" || name == stem + ".glb" {
      var stem :| name == stem + ".gltf" || name == stem + ".glb";
      if name == stem + ".gltf" {
        assert name[|name| - 5..] == ".gltf";
      } else {
        assert name[|name| - 4..] == ".glb";
      }
    }
  }

  /** The test is case-sensitive, needs the dot, and looks only at the end. */
  lemma IsGltfNameExamples()
    ensures IsGltfName("scene.gltf") && IsGltfName("scene.glb")
    ensures !IsGltfName("scene.GLTF") && !IsGltfName("sceneglb") && !IsGltfName("scene.gltf.bak")
  {
    assert "scene.GLTF"[5..] != ".gltf";
    assert "sceneglb"[4..] != ".glb";
    assert "scene.gltf.bak"[10..] != ".glb";
  }

  /** `loadFromUrl`: a URL passing the test is loaded from the base of its
      own location, with no file map; any other URL loads nothing. */
  function LoadFromUrl(url: string, extractUrlBase: string -> string): (r: Option<LoadRequest>)
    ensures r.Some? <==> IsGltfName(url)
    ensures r.Some? ==> r.value.gltfUrl == url && r.value.fileMap.None?
    ensures r.Some? ==> r.value.rootPath == extractUrlBase(url)
  {
    if IsGltfName(url) then Some(LoadRequest(extractUrlBase(url), None, url)) else None
  }

  /** The index of the last entry whose file passes the test, or -1 when
      none does. */
  function LastMatch(entries: FileMap): (k: int)
    ensures -1 <= k < |entries|
    ensures k >= 0 ==> IsGltfName(entries[k].1.name)
    ensures forall j :: k < j < |entries| ==> !IsGltfName(entries[j].1.name)
  {
    if |entries| == 0 then -1
    else if IsGltfName(entries[|entries| - 1].1.name) then |entries| - 1
    else LastMatch(entries[..|entries| - 1])
  }

  /** The file `loadFromFileBlob` picks, with the path it came from minus
      the first occurrence of the file's name; nothing when no file passes
      the test. */
  function LastGltf(entries: FileMap): (r: Option<(File, string)>)
    ensures r.None? <==> forall i :: 0 <= i < |entries| ==> !IsGltfName(entries[i].1.name)
  {
    var k := LastMatch(entries);
    if k < 0 then None
    else Some((entries[k].1, ReplaceFirst(entries[k].0, entries[k].1.name, "")))
  }

  /** `loadFromFileBlob`: every entry is visited in order and a passing
      file overwrites the chosen file and root path; with a chosen file the
      glTF file is loaded from its object URL, the root path and the whole
      map, and without one nothing is loaded. */
  method LoadFromFileBlob(fileMap: FileMap, createObjectUrl: File -> string) returns (r: Option<LoadRequest>)
    ensures r.None? <==> LastGltf(fileMap).None?
    ensures r.Some? ==>
      var (file, root) := LastGltf(fileMap).value;
      r.value == LoadRequest(root, Some(fileMap), createObjectUrl(file))
  {
    var gltfFile: Option<File> := None;
    var rootPath := "";
    var i := 0;
    while i < |fileMap|
      invariant 0 <= i <= |fileMap|
      invariant gltfFile.None? <==> LastMatch(fileMap[..i]) < 0
      invariant gltfFile.Some? ==>
        var k := LastMatch(fileMap[..i]);
        gltfFile.value == fileMap[k].1 && rootPath == ReplaceFirst(fileMap[k].0, fileMap[k].1.name, "")
    {
      var (path, file) := fileMap[i];
      assert fileMap[..i + 1][..i] == fileMap[..i];
      if IsGltfName(file.name) {
        gltfFile := Some(file);
        rootPath := ReplaceFirst(path, file.name, "");
      }
      i := i + 1;
    }
    assert fileMap[..i] == fileMap;
    if gltfFile.None? {
      return None;
    }
    r := Some(LoadRequest(rootPath, Some(fileMap), createObjectUrl(gltfFile.value)));
  }

  /** A dropped file whose path is a directory followed by its name, the
      name not occurring earlier in the path, gets that directory as its
      root path. */
  lemma RootPathIsDirectory(dir: string, file: File)
    requires forall j :: 0 <= j < |dir| ==> !OccursAt(dir + file.name, file.name, j)
    ensures LastGltf([(dir + file.name, file)]) ==
      if IsGltfName(file.name) then Some((file, dir)) else None
  {
    ReplaceFirstTrailing(dir, file.name);
  }

  /** Only the first occurrence of the name is removed, wherever it is. */
  lemma RootPathRemovesFirstOccurrence()
    ensures ReplaceFirst("a.glb/a.glb", "a.glb", "") == "/a.glb"
  {
    FindPrefix("a.glb", "/a.glb");
    assert ("a.glb/a.glb")[5..] == "/a.glb";
  }

  /** The key a referenced URL is looked up under: the root path, then the
      decoded URL with the first occurrence of the base URL removed and then
      at most one leading "./" or "/". */
  function NormalizeUrl(rootPath: string, decoded: string, baseUrl: string): (r: string)
    ensures StartsWith(r, rootPath)
  {
    rootPath + StripDotSlash(ReplaceFirst(decoded, baseUrl, ""))
  }

  /** A URL under the glTF file's base resolves to the root path followed
      by its relative part, one leading "./" or "/" dropped. */
  lemma NormalizeUnderBase(rootPath: string, baseUrl: string, rel: string)
    ensures NormalizeUrl(rootPath, baseUrl + rel, baseUrl) == rootPath + StripDotSlash(rel)
  {
    ReplacePrefix(baseUrl, rel);
  }

  /** A URL that does not contain the base keeps all of itself but one
      leading "./" or "/". */
  lemma NormalizeOutsideBase(rootPath: string, decoded: string, baseUrl: string)
    requires forall j :: !OccursAt(decoded, baseUrl, j)
    ensures NormalizeUrl(rootPath, decoded, baseUrl) == rootPath + StripDotSlash(decoded)
  {
  }

  /** The first entry at or after `from` stored under `key`. */
  function LookupFrom(entries: FileMap, key: string, from: nat): (r: Option<File>)
    decreases |entries| - from
    ensures r.None? <==> forall i :: from <= i < |entries| ==> entries[i].0 != key
    ensures r.Some? ==> exists i :: && from <= i < |entries| && entries[i] == (key, r.value)
                                    && forall j :: from <= j < i ==> entries[j].0 != key
  {
    if from >= |entries| then None
    else if entries[from].0 == key then Some(entries[from].1)
    else LookupFrom(entries, key, from + 1)
  }

  /** `map.has(key)` and `map.get(key)`: `has` fails exactly when no entry
      is stored under `key`, and `get` returns the file of the first entry
      that is (the only one, in a Map). */
  function Lookup(entries: FileMap, key: string): (r: Option<File>)
    ensures r.None? <==> forall i :: 0 <= i < |entries| ==> entries[i].0 != key
    ensures r.Some? ==> exists i :: && 0 <= i < |entries| && entries[i] == (key, r.value)
                                    && forall j :: 0 <= j < i ==> entries[j].0 != key
  {
    LookupFrom(entries, key, 0)
  }

  /** The URL modifier `loadGltfFile` installs, with the `blobURLs` list it
      shares with the load. */
  class UrlModifier {
    const rootPath: string
    const fileMap: Option<FileMap>
    const baseUrl: string
    var blobUrls: seq<string>

    /** `loadGltfFile`: the base URL is the base of the glTF file's own
        URL, and no object URL has been made yet. */
    constructor (req: LoadRequest, extractUrlBase: string -> string)
      ensures rootPath == req.rootPath && fileMap == req.fileMap
      ensures baseUrl == extractUrlBase(req.gltfUrl)
      ensures blobUrls == []
    {
      rootPath := req.rootPath;
      fileMap := req.fileMap;
      baseUrl := extractUrlBase(req.gltfUrl);
      blobUrls := [];
    }

    /** The key `url` is looked up under. */
    function KeyFor(url: string, decodeUri: string -> string): string
      reads this
    {
      NormalizeUrl(rootPath, decodeUri(url), baseUrl)
    }

    /** One call of the modifier: a URL whose key is in the file map is
        served from an object URL for that file, which is recorded; any
        other URL is resolved against the loader's path and nothing is
        recorded. */
    method Modify(url: string, path: Option<string>, decodeUri: string -> string, createObjectUrl: File -> string)
      returns (r: string)
      modifies this`blobUrls
      ensures var hit := if fileMap.Some? then Lookup(fileMap.value, KeyFor(url, decodeUri)) else None;
        && (hit.Some? ==> r == createObjectUrl(hit.value) && blobUrls == old(blobUrls) + [r])
        && (hit.None? ==> r == (if path.Some? then path.value else "") + url && blobUrls == old(blobUrls))
    {
      var normalizedUrl := rootPath + StripDotSlash(ReplaceFirst(decodeUri(url), baseUrl, ""));
      if fileMap.Some? {
        var blob := Lookup(fileMap.value, normalizedUrl);
        if blob.Some? {
          var blobUrl := createObjectUrl(blob.value);
          blobUrls := blobUrls + [blobUrl];
          return blobUrl;
        }
      }
      r := (if path.Some? then path.value else "") + url;
    }
  }
}
