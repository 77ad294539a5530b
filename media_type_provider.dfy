/**
 Media type lookup by file extension (class MediaTypeProvider of jooby).

 The configuration is a flat map from keys to strings; the media type of an
 extension `ext` is configured under the key `"mime." + ext`. Parsing a media
 type string (MediaType.valueOf) is not part of this model: the provider is
 given it as an arbitrary function.
 */
module MediaTypes {

  /** A parsed media type. */
  datatype MediaType = MediaType(name: string)

  /** MediaType.octetstream, the answer for every extension that is not configured. */
  const OctetStream: MediaType := MediaType("application/octet-stream")

  /** The configuration section that holds the media types. */
  const MimePrefix: string := "mime."

  type Config = map<string, string>

  /** String.lastIndexOf(char): the last position of `c` in `s`, or -1 when there is none. */
  function LastIndexOf(s: string, c: char): (i: int)
    ensures -1 <= i < |s|
    ensures i >= 0 ==> s[i] == c
    ensures forall j :: i < j < |s| ==> s[j] != c
    decreases |s|
  {
    if |s| == 0 then -1
    else if s[|s| - 1] == c then |s| - 1
    else LastIndexOf(s[..|s| - 1], c)
  }

  /** The extension `forPath` looks up: the text after the last '.', or the whole path without one. */
  function ExtensionOf(path: string): (ext: string)
    ensures |ext| <= |path| && ext == path[|path| - |ext|..]
    ensures '.' !in ext
    ensures ext == path <==> '.' !in path
    ensures ext != path ==> path[|path| - |ext| - 1] == '.'
    ensures |path| > 0 && path[|path| - 1] == '.' ==> ext == ""
  {
    var idx := LastIndexOf(path, '.');
    TextAfterLastDot(path, idx);
    path[idx + 1..]
  }

  /** What `ExtensionOf` promises, for the index `lastIndexOf` gives. */
  lemma TextAfterLastDot(path: string, idx: int)
    requires idx == LastIndexOf(path, '.')
    ensures 0 <= idx + 1 <= |path|
    ensures '.' !in path[idx + 1..]
    ensures idx == -1 <==> '.' !in path
    ensures idx >= 0 ==> path[idx] == '.'
  {
  }

  /** Whatever precedes it, the extension of a path ending in '.' and a dot-free `ext` is `ext`. */
  lemma {:induction false} ExtensionAfterLastDot(prefix: string, ext: string)
    requires '.' !in ext
    ensures ExtensionOf(prefix + "." + ext) == ext
  {
    var path := prefix + "." + ext;
    var e := ExtensionOf(path);
    assert path[|prefix|] == '.';
    assert path[|prefix| + 1..] == ext;
  }

  /** The `mime` section of a configuration: the extensions configured under it and their strings. */
  function Mime(config: Config): (section: map<string, string>)
    ensures forall ext :: ext in section <==> MimePrefix + ext in config
    ensures forall ext :: ext in section ==> section[ext] == config[MimePrefix + ext]
  {
    var exts := set key | key in config && |key| >= |MimePrefix| && key[..|MimePrefix|] == MimePrefix
                        :: key[|MimePrefix|..];
    assert forall key :: key in config && |key| >= |MimePrefix| && key[..|MimePrefix|] == MimePrefix ==>
      MimePrefix + key[|MimePrefix|..] == key;
    assert forall ext :: MimePrefix + ext in config ==> (MimePrefix + ext)[|MimePrefix|..] == ext;
    map ext | ext in exts :: config[MimePrefix + ext]
  }

  /** A provider over a configuration; `valueOf` stands for MediaType.valueOf. */
  datatype MediaTypeProvider = MediaTypeProvider(config: Config, valueOf: string -> MediaType) {

    /** `forExtension(ext)`: the configured type of `ext`, or octet-stream when none is configured. */
    function ForExtension(ext: string): (m: MediaType)
      ensures MimePrefix + ext in config ==> m == valueOf(config[MimePrefix + ext])
      ensures MimePrefix + ext !in config ==> m == OctetStream
    {
      var key := MimePrefix + ext;
      if key in config then valueOf(config[key]) else OctetStream
    }

    /**
     `forPath(path)`: looks up the text after the last '.' of the path. The
     substring can never be out of bounds, so the fallback for that case is dead.
     */
    function ForPath(path: string): (m: MediaType)
      ensures MimePrefix + ExtensionOf(path) in config ==>
        m == valueOf(config[MimePrefix + ExtensionOf(path)])
      ensures MimePrefix + ExtensionOf(path) !in config ==> m == OctetStream
    {
      var idx := LastIndexOf(path, '.');
      if idx + 1 <= |path| then
        var key := MimePrefix + path[idx + 1..];
        if key in config then valueOf(config[key]) else OctetStream
      else
        assert false; OctetStream
    }

    /** `forFile(file)`: the type for the file's absolute path, given here as a string. */
    function ForFile(absolutePath: string): (m: MediaType)
      ensures MimePrefix + ExtensionOf(absolutePath) in config ==>
        m == valueOf(config[MimePrefix + ExtensionOf(absolutePath)])
      ensures MimePrefix + ExtensionOf(absolutePath) !in config ==> m == OctetStream
    {
      ForPath(absolutePath)
    }

    /** `types()`: every extension of the `mime` section, mapped to its parsed media type. */
    method Types() returns (types: map<string, MediaType>)
      ensures forall ext :: ext in types <==> MimePrefix + ext in config
      ensures forall ext :: ext in types ==>
        MimePrefix + ext in config && types[ext] == valueOf(config[MimePrefix + ext])
      ensures forall ext :: ext in types ==> types[ext] == this.ForExtension(ext)
      ensures forall ext :: ext !in types ==> this.ForExtension(ext) == OctetStream
    {
      var section := Mime(config);
      var pending := section.Keys;
      types := map[];
      while pending != {}
        invariant pending <= section.Keys
        invariant types.Keys == section.Keys - pending
        invariant forall ext :: ext in types ==> types[ext] == valueOf(section[ext])
        decreases pending
      {
        var ext :| ext in pending;
        types := types[ext := valueOf(section[ext])];
        pending := pending - {ext};
      }
    }
  }

  /** `forPath` and `forExtension` perform the same keyed lookup with the same fallback. */
  lemma ForPathIsForExtension(p: MediaTypeProvider, path: string)
    ensures p.ForPath(path) == p.ForExtension(ExtensionOf(path))
    ensures p.ForFile(path) == p.ForPath(path)
  {
  }

  /** The examples of a configuration holding only `mime.json`, by extension. */
  method JsonByExtension(json: MediaType, valueOf: string -> MediaType)
    requires valueOf("application/json") == json
  {
    var p := MediaTypeProvider(map["mime.json" := "application/json"], valueOf);
    assert MimePrefix + "json" == "mime.json";
    assert p.ForExtension("json") == json;
    assert MimePrefix + "bin" == "mime.bin" != "mime.json";
    assert p.ForExtension("bin") == OctetStream;
  }

  /**
   The same configuration, by path: `dir + ".json"` is found, a path without
   a '.' is looked up whole, so it is found only when it is the text "json".
   */
  method JsonByPath(json: MediaType, valueOf: string -> MediaType, dir: string, noext: string)
    requires valueOf("application/json") == json
    requires '.' !in noext
  {
    var p := MediaTypeProvider(map["mime.json" := "application/json"], valueOf);
    ExtensionAfterLastDot(dir, "json");
    assert dir + ".json" == dir + "." + "json";
    assert MimePrefix + "json" == "mime.json";
    assert p.ForPath(dir + ".json") == json;
    assert ExtensionOf(noext) == noext;
    assert (MimePrefix + noext)[|MimePrefix|..] == noext && "mime.json"[|MimePrefix|..] == "json";
    assert p.ForPath(noext) == if noext == "json" then json else OctetStream;
  }
}
