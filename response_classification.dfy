/** The end of `uploadToTheHax` (index.js:142-170): which HTTP outcomes are
    transport failures, how the body becomes a value (`safeJson`), and how
    that value is classified into the link, the service's own error message,
    or an unexpected reply. Where the source throws, the model returns the
    corresponding `UploadResult`. */
module ResponseClassification {
  import opened Wrappers
  import opened JsValues
  import opened UploadRequest

  /** The outcome of the POST: no response at all (network error, timeout),
      or a response with its status and `resp.data` as axios hands it over.
      That value is a JavaScript string when axios left the body as text,
      and also when the body was a JSON string literal that axios parsed. */
  datatype HttpResponse = NoResponse | Response(status: int, body: Json)

  datatype UploadResult =
    | Success(url: Json)               // the link is returned
    | RemoteError(message: string)     // the service's own error message is thrown
    | Unexpected(snippet: string)      // an unrecognised reply is thrown, with a snippet of it
    | MalformedErrorList               // mapping the error list throws a TypeError
    | TransportError(status: Option<int>)  // no response, or a status outside [200, 500)

  const SnippetLimit: nat := 300

  /** The first 300 characters of a text, or all of it when it is shorter. */
  function Snippet(text: string): (r: string)
    ensures |r| <= SnippetLimit
    ensures |text| > SnippetLimit ==> |r| == SnippetLimit
    ensures r <= text
    ensures |text| <= SnippetLimit ==> r == text
  {
    if |text| <= SnippetLimit then text else text[..SnippetLimit]
  }

  /** `JSON.parse` is passed in: `None` when it throws. */
  type Parser = string -> Option<Json>

  /** `JSON.stringify`, passed in; only the length of its output matters here. */
  type Serializer = Json -> string

  /** `safeJson(str)`: the parsed value, or `{raw: str}` when parsing fails. */
  function SafeJson(text: string, parse: Parser): (v: Json)
    ensures parse(text).Some? ==> v == parse(text).value
    ensures parse(text).None? ==> v.JObj? && v.fields.Keys == {"raw"} && v.fields["raw"] == JStr(text)
  {
    match parse(text)
    case Some(v) => v
    case None => JObj(map["raw" := JStr(text)])
  }

  /** The value the classification looks at: every string goes through
      `safeJson`, whatever produced it; any other value is used as it is. */
  function ResponseData(body: Json, parse: Parser): (data: Json)
    ensures !body.JStr? ==> data == body
    ensures body.JStr? && parse(body.s).Some? ==> data == parse(body.s).value
    ensures body.JStr? && parse(body.s).None? ==> data == JObj(map["raw" := JStr(body.s)])
  {
    if body.JStr? then SafeJson(body.s, parse) else body
  }

  /** Reading a key of the reply behind a truthiness guard on the reply: a
      falsy reply reads as falsy, which for every key read here behaves like
      `undefined`. */
  function Field(data: Json, key: string): (r: Value)
    ensures data.JObj? ==> r == (if key in data.fields then Some(data.fields[key]) else None)
    ensures !data.JObj? && key != "length" ==> r.None?
  {
    if data.JNull? then None else Property(data, key)
  }

  /** The guard on the error list: `errors` is truthy and so is its `length`.
      For an array that means non-empty, for a string non-empty, for an object
      a truthy `length` key; no other value passes. */
  predicate HasErrorList(data: Json)
    ensures var e := Field(data, "errors");
      && (e.None? || e.value.JNull? || e.value.JBool? || e.value.JNum? ==> !HasErrorList(data))
      && (e.Some? && e.value.JArr? ==> (HasErrorList(data) <==> |e.value.items| > 0))
      && (e.Some? && e.value.JStr? ==> (HasErrorList(data) <==> e.value.s != ""))
      && (e.Some? && e.value.JObj? ==> (HasErrorList(data) <==> TruthyValue(Field(e.value, "length"))))
  {
    var errors := Field(data, "errors");
    TruthyValue(errors) && TruthyValue(Property(errors.value, "length"))
  }

  predicate HasNull(items: seq<Json>)
  {
    exists i :: 0 <= i < |items| && items[i] == JNull
  }

  /** The `message` of each entry of an error list, as `join` renders it. */
  function EntryTexts(items: seq<Json>): (texts: seq<string>)
    requires !HasNull(items)
    ensures |texts| == |items|
    ensures forall i :: 0 <= i < |items| ==> texts[i] == JoinText(Property(items[i], "message"))
  {
    seq(|items|, i requires 0 <= i < |items| && !HasNull(items) => JoinText(Property(items[i], "message")))
  }

  /** The entries' messages joined with "; "; `None` when mapping throws,
      because `errors` has no `map` (it is not an array) or an entry is `null`. */
  function ErrorMessages(errors: Json): (r: Option<string>)
    ensures r.Some? <==> errors.JArr? && !HasNull(errors.items)
    ensures r.Some? && |errors.items| == 0 ==> r.value == ""
    ensures r.Some? && |errors.items| == 1 ==> r.value == JoinText(Property(errors.items[0], "message"))
  {
    match errors
    case JArr(items) =>
      if HasNull(items) then None else Some(Join(EntryTexts(items), "; "))
    case _ => None
  }

  /** One more entry at the end of the list adds "; " and that entry's message. */
  lemma {:induction false} ErrorMessagesAppend(items: seq<Json>, e: Json)
    requires |items| > 0 && !HasNull(items) && e != JNull
    ensures ErrorMessages(JArr(items + [e])).Some? && ErrorMessages(JArr(items)).Some?
    ensures ErrorMessages(JArr(items + [e])).value ==
      ErrorMessages(JArr(items)).value + "; " + JoinText(Property(e, "message"))
  {
    var all := items + [e];
    assert !HasNull(all) by {
      forall i | 0 <= i < |all| ensures all[i] != JNull {
        if i < |items| { assert all[i] == items[i]; }
      }
    }
    assert EntryTexts(all) == EntryTexts(items) + [JoinText(Property(e, "message"))];
    JoinAppend(EntryTexts(items), JoinText(Property(e, "message")), "; ");
  }

  /** The three `if`s at the end of `uploadToTheHax`. */
  function Classify(data: Json, stringify: Serializer): (r: UploadResult)
    ensures !r.TransportError?
    ensures r.Success? ==> Field(data, "success") == Some(JBool(true)) && Field(data, "url") == Some(r.url) && Truthy(r.url)
    ensures r.RemoteError? || r.MalformedErrorList? ==> Field(data, "success") == Some(JBool(false))
    ensures r.MalformedErrorList? ==> !TruthyValue(Field(data, "message")) && HasErrorList(data)
    ensures r.MalformedErrorList? ==> ErrorMessages(Field(data, "errors").value).None?
    ensures Field(data, "success") == Some(JBool(false)) && !TruthyValue(Field(data, "message")) && HasErrorList(data) ==>
      r == match ErrorMessages(Field(data, "errors").value)
           case Some(msg) => RemoteError(msg)
           case None => MalformedErrorList
    ensures Field(data, "success") == Some(JBool(false)) && TruthyValue(Field(data, "message")) ==>
      r == RemoteError(JsString(Field(data, "message").value))
    ensures r.RemoteError? && !TruthyValue(Field(data, "message")) ==>
      HasErrorList(data) && ErrorMessages(Field(data, "errors").value) == Some(r.message)
    ensures r.Unexpected? ==> |r.snippet| <= SnippetLimit && r.snippet <= stringify(data)
    ensures Field(data, "success") != Some(JBool(true)) && Field(data, "success") != Some(JBool(false)) ==> r.Unexpected?
    ensures TruthyValue(Field(data, "url")) && Field(data, "success") == Some(JBool(true)) ==> r.Success?
  {
    var success := Field(data, "success");
    var url := Field(data, "url");
    var message := Field(data, "message");
    if Truthy(data) && success == Some(JBool(true)) && TruthyValue(url) then
      Success(url.value)
    else if Truthy(data) && success == Some(JBool(false)) && (TruthyValue(message) || HasErrorList(data)) then
      if TruthyValue(message) then
        RemoteError(JsString(message.value))
      else
        match ErrorMessages(Field(data, "errors").value)
        case Some(msg) => RemoteError(msg)
        case None => MalformedErrorList
    else
      Unexpected(Snippet(stringify(data)))
  }

  /** The whole upload outcome for one HTTP exchange. */
  function Upload(response: HttpResponse, parse: Parser, stringify: Serializer): (r: UploadResult)
    ensures r.TransportError? <==> response.NoResponse? || !AcceptsStatus(response.status)
    ensures r.TransportError? ==> r.status == (if response.NoResponse? then None else Some(response.status))
    ensures response.Response? && AcceptsStatus(response.status) ==>
      r == Classify(ResponseData(response.body, parse), stringify)
  {
    match response
    case NoResponse => TransportError(None)
    case Response(status, body) =>
      if !AcceptsStatus(status) then TransportError(Some(status))
      else Classify(ResponseData(body, parse), stringify)
  }

  /** `{success: true, url}` with a non-empty link gives that link. */
  lemma SuccessBody(fields: map<string, Json>, url: string, stringify: Serializer)
    requires "success" in fields && fields["success"] == JBool(true)
    requires "url" in fields && fields["url"] == JStr(url) && url != ""
    ensures Classify(JObj(fields), stringify) == Success(JStr(url))
  {
  }

  /** `{success: false, message}` with a non-empty message gives that message. */
  lemma MessageBody(fields: map<string, Json>, message: string, stringify: Serializer)
    requires "success" in fields && fields["success"] == JBool(false)
    requires "message" in fields && fields["message"] == JStr(message) && message != ""
    ensures Classify(JObj(fields), stringify) == RemoteError(message)
  {
  }

  /** `{success: false, errors: [e0, e1, ...]}` with a falsy or missing
      message and a non-empty list without `null` entries gives the entries'
      messages, as `join` renders them, joined with "; ". Entries may carry
      other keys, and an entry without a message contributes "". */
  lemma {:induction false} ErrorListBody(fields: map<string, Json>, messages: seq<string>, stringify: Serializer)
    requires "success" in fields && fields["success"] == JBool(false)
    requires !TruthyValue(Field(JObj(fields), "message"))
    requires "errors" in fields && fields["errors"].JArr?
    requires |fields["errors"].items| == |messages| > 0
    requires forall i :: 0 <= i < |messages| ==>
      fields["errors"].items[i] != JNull && JoinText(Property(fields["errors"].items[i], "message")) == messages[i]
    ensures Classify(JObj(fields), stringify) == RemoteError(Join(messages, "; "))
  {
    var items := fields["errors"].items;
    assert !HasNull(items);
    assert EntryTexts(items) == messages;
    assert HasErrorList(JObj(fields)) by {
      assert Property(fields["errors"], "length") == Some(JNum(|items|));
    }
  }

  /** The expected replies of the service, and the outcomes they give. */
  lemma ClassificationExamples(stringify: Serializer)
    ensures Classify(JObj(map["success" := JBool(true), "url" := JStr("https://x/y")]), stringify)
            == Success(JStr("https://x/y"))
    ensures Classify(JObj(map["success" := JBool(false), "message" := JStr("limit reached")]), stringify)
            == RemoteError("limit reached")
  {
  }

  /** An error list of two entries gives their messages joined with "; ". */
  lemma ErrorListExample(stringify: Serializer)
    ensures Classify(JObj(map["success" := JBool(false),
                              "errors" := JArr([JObj(map["message" := JStr("a")]),
                                                JObj(map["message" := JStr("b")])])]), stringify)
            == RemoteError("a; b")
  {
    var items := [JObj(map["message" := JStr("a")]), JObj(map["message" := JStr("b")])];
    var fields := map["success" := JBool(false), "errors" := JArr(items)];
    assert JoinText(Property(items[0], "message")) == "a";
    assert JoinText(Property(items[1], "message")) == "b";
    ErrorListBody(fields, ["a", "b"], stringify);
  }

  /** A `null` message falls through to the error list, and an entry's other
      keys are ignored. */
  lemma ErrorListExtraKeysExample(stringify: Serializer)
    ensures Classify(JObj(map["success" := JBool(false), "message" := JNull,
                              "errors" := JArr([JObj(map["message" := JStr("a"), "code" := JNum(3)])])]), stringify)
            == RemoteError("a")
  {
    var items := [JObj(map["message" := JStr("a"), "code" := JNum(3)])];
    var fields := map["success" := JBool(false), "message" := JNull, "errors" := JArr(items)];
    assert JoinText(Property(items[0], "message")) == "a";
    ErrorListBody(fields, ["a"], stringify);
  }

  /** `safeJson` never fails: a text body that does not parse, received with an
      accepted status, is an unexpected reply whose snippet is at most 300
      characters of the serialised `{raw: text}`. */
  lemma UnparsableIsUnexpected(status: int, text: string, parse: Parser, stringify: Serializer)
    requires AcceptsStatus(status)
    requires parse(text).None?
    ensures var r := Upload(Response(status, JStr(text)), parse, stringify);
      r.Unexpected? && |r.snippet| <= SnippetLimit && r.snippet <= stringify(JObj(map["raw" := JStr(text)]))
  {
  }

  /** A body that is a JSON string literal reaches the classification as a
      JavaScript string and goes through `safeJson` a second time: when that
      string parses to `{success: true, url: "u"}`, the link is returned. */
  lemma StringBodyParsedAgain(status: int, text: string, parse: Parser, stringify: Serializer)
    requires AcceptsStatus(status)
    requires parse(text) == Some(JObj(map["success" := JBool(true), "url" := JStr("u")]))
    ensures Upload(Response(status, JStr(text)), parse, stringify) == Success(JStr("u"))
  {
  }

  /** A 5xx status is a transport error whatever the body says. */
  lemma ServerErrorIsTransport(status: int, body: Json, parse: Parser, stringify: Serializer)
    requires 500 <= status
    ensures Upload(Response(status, body), parse, stringify) == TransportError(Some(status))
  {
  }

  /** When the value's `errors` field, if present, is an array without `null`
      entries, the classification is one of the three expected outcomes. */
  lemma ThreeOutcomes(data: Json, stringify: Serializer)
    requires Field(data, "errors").Some? ==>
      Field(data, "errors").value.JArr? && !HasNull(Field(data, "errors").value.items)
    ensures var r := Classify(data, stringify);
      r.Success? || r.RemoteError? || r.Unexpected?
  {
  }

}
