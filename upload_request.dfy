/** What `uploadToTheHax` sends (index.js:12-14, 112-147): the configuration
    it reads, the upload and display file names, the three form fields, the
    request headers built key by key, and the statuses it accepts as a
    response rather than a transport failure. */
module UploadRequest {
  import opened Wrappers

  newtype byte = x: int | 0 <= x < 256

  /** The environment variables the upload reads; `None` when unset. */
  datatype Environment = Environment(
    apiKey: Option<string>,
    tenantKey: Option<string>,
    private: Option<string>)

  datatype Config = Config(apiKey: string, tenantKey: string, privateFlag: string)

  /** A key read from the environment with the empty string as fallback: an
      unset variable and an empty one are the same. */
  function ConfiguredKey(env: Option<string>): (k: string)
    ensures k == "" <==> env.None? || env.value == ""
    ensures k != "" ==> env == Some(k)
  {
    if env.Some? then env.value else ""
  }

  /** The private flag sent with the upload: "1" only when the variable is set to "1". */
  function PrivateFlag(env: Option<string>): (flag: string)
    ensures flag == "1" || flag == "0"
    ensures flag == "1" <==> env == Some("1")
  {
    if env == Some("1") then "1" else "0"
  }

  function LoadConfig(env: Environment): (c: Config)
    ensures c.privateFlag == "1" || c.privateFlag == "0"
    ensures c.privateFlag == "1" <==> env.private == Some("1")
    ensures c.apiKey != "" ==> env.apiKey == Some(c.apiKey)
    ensures c.tenantKey != "" ==> env.tenantKey == Some(c.tenantKey)
    ensures env.apiKey.Some? && env.apiKey.value != "" ==> c.apiKey == env.apiKey.value
    ensures env.tenantKey.Some? && env.tenantKey.value != "" ==> c.tenantKey == env.tenantKey.value
    ensures c.privateFlag == PrivateFlag(env.private)
    ensures c.apiKey == ConfiguredKey(env.apiKey) && c.tenantKey == ConfiguredKey(env.tenantKey)
  {
    Config(ConfiguredKey(env.apiKey), ConfiguredKey(env.tenantKey), PrivateFlag(env.private))
  }

  const DefaultFileName: string := "replay.hbr2"

  /** The file name of the upload: a missing or empty name gets the default. */
  function UploadFileName(filename: Option<string>): (f: string)
    ensures f != ""
    ensures filename.Some? && filename.value != "" ==> f == filename.value
    ensures filename.None? || filename.value == "" ==> f == DefaultFileName
  {
    if filename.Some? && filename.value != "" then filename.value else DefaultFileName
  }

  /** Characters the class `[^/.]` of the extension pattern accepts. */
  predicate ExtensionChar(c: char)
  {
    c != '.' && c != '/'
  }

  /** The regular expression `/\.[^/.]+$/` matches `s` starting at `i`. */
  predicate ExtensionAt(s: string, i: int)
  {
    0 <= i < |s| - 1 && s[i] == '.' && forall k :: i < k < |s| ==> ExtensionChar(s[k])
  }

  /** Scans `s[..j]` from the right for the start of the extension, knowing
      that every character from `j` on is an extension character. */
  function FindExtension(s: string, j: nat): (r: Option<nat>)
    requires j <= |s|
    requires forall k :: j <= k < |s| ==> s[k] != '.' && s[k] != '/'
    ensures r.Some? ==> ExtensionAt(s, r.value)
    ensures r.None? ==> forall i :: 0 <= i < |s| ==> !ExtensionAt(s, i)
    decreases j
  {
    if j == 0 then None
    else if s[j - 1] == '.' then (if j < |s| then Some(j - 1) else None)
    else if s[j - 1] == '/' then assert !ExtensionChar(s[j - 1]); None
    else FindExtension(s, j - 1)
  }

  /** The pattern matches at one position at most. */
  lemma ExtensionUnique(s: string, i: int, j: int)
    requires ExtensionAt(s, i) && ExtensionAt(s, j)
    ensures i == j
  {
  }

  /** Removing the first match of the extension pattern, as `replace` does
      with a pattern without the global flag. */
  function StripExtension(s: string): (r: string)
    ensures r <= s
    ensures r == s <==> forall i :: 0 <= i < |s| ==> !ExtensionAt(s, i)
    ensures r != s ==> ExtensionAt(s, |r|)
  {
    match FindExtension(s, |s|)
    case Some(i) => s[..i]
    case None => s
  }

  /** What is removed is nothing, or a '.' followed by one or more characters
      that are neither '.' nor '/', up to the end of the name. */
  lemma StripExtensionRemoves(s: string)
    ensures var r := StripExtension(s);
      r <= s &&
      (r == s ||
        (|s| - |r| >= 2 && s[|r|] == '.' && forall k :: |r| < k < |s| ==> ExtensionChar(s[k])))
  {
  }

  /** A name without a '.' is left as it is. */
  lemma StripExtensionNoDot(s: string)
    requires forall k :: 0 <= k < |s| ==> s[k] != '.'
    ensures StripExtension(s) == s
  {
  }

  lemma StripExtensionExamples()
    ensures StripExtension("match.hbr2") == "match"
    ensures StripExtension("file.") == "file."
    ensures StripExtension("a/b.c/d") == "a/b.c/d"
    ensures StripExtension("a.b.c") == "a.b"
    ensures StripExtension(".hbr2") == ""
  {
    assert ExtensionAt("match.hbr2", 5);
    assert forall i :: 0 <= i < 7 ==> !ExtensionAt("a/b.c/d", i) by {
      assert "a/b.c/d"[5] == '/' && "a/b.c/d"[6] == 'd';
    }
    assert ExtensionAt("a.b.c", 3);
    assert ExtensionAt(".hbr2", 0);
  }

  /** The name sent in `replay[name]`: the upload file name with its
      extension, if the pattern finds one, removed. */
  function DisplayName(filename: Option<string>): (name: string)
    ensures name <= UploadFileName(filename)
    ensures var f := UploadFileName(filename);
      name == f <==> forall i :: 0 <= i < |f| ==> !ExtensionAt(f, i)
    ensures name != UploadFileName(filename) ==> ExtensionAt(UploadFileName(filename), |name|)
  {
    StripExtension(UploadFileName(filename))
  }

  /** Without a file name the upload is called "replay.hbr2" and shown as "replay". */
  lemma DefaultNames()
    ensures UploadFileName(None) == "replay.hbr2" && DisplayName(None) == "replay"
    ensures UploadFileName(Some("")) == "replay.hbr2" && DisplayName(Some("")) == "replay"
  {
    assert ExtensionAt("replay.hbr2", 6);
  }

  /** One field of the multipart body. */
  datatype FormPart =
    | FilePart(field: string, fileName: string, contentType: string, content: seq<byte>)
    | TextPart(field: string, value: string)

  function FieldNames(parts: seq<FormPart>): (names: seq<string>)
    ensures |names| == |parts|
    ensures forall i :: 0 <= i < |parts| ==> names[i] == parts[i].field
  {
    seq(|parts|, i requires 0 <= i < |parts| => parts[i].field)
  }

  /** The three `form.append` calls, in order. */
  function UploadForm(bytes: seq<byte>, filename: Option<string>, privateFlag: string): (parts: seq<FormPart>)
    ensures FieldNames(parts) == ["replay[fileContent]", "replay[name]", "replay[private]"]
    ensures parts[0].FilePart? && parts[0].content == bytes
    ensures parts[0].contentType == "application/octet-stream"
    ensures parts[0].fileName == UploadFileName(filename)
    ensures parts[1].TextPart? && parts[1].value == DisplayName(filename)
    ensures parts[1].value <= parts[0].fileName
    ensures parts[2].TextPart? && parts[2].value == privateFlag
  {
    [ FilePart("replay[fileContent]", UploadFileName(filename), "application/octet-stream", bytes),
      TextPart("replay[name]", DisplayName(filename)),
      TextPart("replay[private]", privateFlag) ]
  }

  /** The key under which `form.getHeaders()` supplies the multipart content type. */
  const FormContentTypeHeader: string := "content-type"
  const UserAgent: string := "Mozilla/5.0 (compatible; DiscordBot/1.0; +https://discordapp.com)"
  const Origin: string := "https://replay.thehax.pl"
  const Referer: string := "https://replay.thehax.pl/upload"

  const BaseHeaderNames: set<string> := {FormContentTypeHeader, "User-Agent", "Accept", "Origin", "Referer"}
  const ApiKeyHeaderNames: set<string> := {"Authorization", "X-Api-Key"}
  const TenantHeaderNames: set<string> := {"X-Tenant-Key", "X-Tenant"}

  /** The entries every upload sends. */
  function BaseHeaders(formContentType: string): (h: map<string, string>)
    ensures h.Keys == BaseHeaderNames
    ensures h[FormContentTypeHeader] == formContentType
    ensures h["Accept"] == "application/json"
    ensures h["User-Agent"] == UserAgent && h["Origin"] == Origin && h["Referer"] == Referer
  {
    map[FormContentTypeHeader := formContentType,
        "User-Agent" := UserAgent,
        "Accept" := "application/json",
        "Origin" := Origin,
        "Referer" := Referer]
  }

  function ApiKeyHeaders(apiKey: string): (h: map<string, string>)
    ensures h.Keys == if apiKey == "" then {} else ApiKeyHeaderNames
    ensures apiKey != "" ==> h["Authorization"] == "Bearer " + apiKey && h["X-Api-Key"] == apiKey
  {
    if apiKey == "" then map[] else map["Authorization" := "Bearer " + apiKey, "X-Api-Key" := apiKey]
  }

  function TenantHeaders(tenantKey: string): (h: map<string, string>)
    ensures h.Keys == if tenantKey == "" then {} else TenantHeaderNames
    ensures tenantKey != "" ==> h["X-Tenant-Key"] == tenantKey && h["X-Tenant"] == tenantKey
  {
    if tenantKey == "" then map[] else map["X-Tenant-Key" := tenantKey, "X-Tenant" := tenantKey]
  }

  /** The header map of the upload request, as three groups of entries with
      disjoint keys: the base entries, the API-key entries and the tenant entries. */
  function UploadHeaders(formContentType: string, apiKey: string, tenantKey: string): (h: map<string, string>)
    ensures forall k :: k in BaseHeaderNames ==> k in h && h[k] == BaseHeaders(formContentType)[k]
    ensures "Authorization" in h <==> apiKey != ""
    ensures "X-Api-Key" in h <==> apiKey != ""
    ensures apiKey != "" ==> h["Authorization"] == "Bearer " + apiKey && h["X-Api-Key"] == apiKey
    ensures "X-Tenant-Key" in h <==> tenantKey != ""
    ensures "X-Tenant" in h <==> tenantKey != ""
    ensures tenantKey != "" ==> h["X-Tenant-Key"] == tenantKey && h["X-Tenant"] == tenantKey
    ensures h.Keys <= BaseHeaderNames + ApiKeyHeaderNames + TenantHeaderNames
  {
    BaseHeaders(formContentType) + ApiKeyHeaders(apiKey) + TenantHeaders(tenantKey)
  }

  /** The `headers` object of `uploadToTheHax`, built entry by entry. */
  method BuildUploadHeaders(formContentType: string, apiKey: string, tenantKey: string)
    returns (headers: map<string, string>)
    ensures headers == UploadHeaders(formContentType, apiKey, tenantKey)
  {
    headers := map[FormContentTypeHeader := formContentType];
    headers := headers["User-Agent" := UserAgent];
    headers := headers["Accept" := "application/json"];
    headers := headers["Origin" := Origin];
    headers := headers["Referer" := Referer];
    if apiKey != "" {
      headers := headers["Authorization" := "Bearer " + apiKey];
      headers := headers["X-Api-Key" := apiKey];
    }
    if tenantKey != "" {
      headers := headers["X-Tenant-Key" := tenantKey];
      headers := headers["X-Tenant" := tenantKey];
    }
  }

  /** Each key touches only its own entries: changing the API key leaves every
      other entry as it was, and so does changing the tenant key. */
  lemma HeadersIndependent(ct: string, k1: string, k2: string, t1: string, t2: string)
    ensures forall h :: h !in ApiKeyHeaderNames ==>
      (h in UploadHeaders(ct, k1, t1) <==> h in UploadHeaders(ct, k2, t1)) &&
      (h in UploadHeaders(ct, k1, t1) ==> UploadHeaders(ct, k1, t1)[h] == UploadHeaders(ct, k2, t1)[h])
    ensures forall h :: h !in TenantHeaderNames ==>
      (h in UploadHeaders(ct, k1, t1) <==> h in UploadHeaders(ct, k1, t2)) &&
      (h in UploadHeaders(ct, k1, t1) ==> UploadHeaders(ct, k1, t1)[h] == UploadHeaders(ct, k1, t2)[h])
  {
  }

  /** `validateStatus`: a status counts as a received response. */
  predicate AcceptsStatus(status: int)
    ensures AcceptsStatus(status) <==> status / 100 == 2 || status / 100 == 3 || status / 100 == 4
  {
    200 <= status < 500
  }

}
