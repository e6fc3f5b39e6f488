/** The `messageCreate` handler as a whole (index.js:41-110, 112-166): the
    filter, the download, the upload and what is posted back to the channel.
    The results of the download and of the HTTP exchange are inputs. */
module Relay {
  import opened Wrappers
  import opened JsValues
  import opened TriggerFilter
  import opened UploadRequest
  import opened ResponseClassification

  /** The outcome of `axios.get(hbr2.url)`. */
  datatype Download = DownloadFailed | Downloaded(bytes: seq<byte>)

  /** The request `uploadToTheHax` sends. */
  datatype UploadCall = UploadCall(form: seq<FormPart>, headers: map<string, string>)

  datatype Handling =
    | Ignored                                        // the filter returned early
    | DownloadError                                  // the download threw
    | Uploaded(call: UploadCall, result: UploadResult)

  /** What the bot posts to the channel. */
  datatype ChatEffect =
    | SendStatus                      // "uploading" notice (index.js:66)
    | EditStatusWithLink(link: string)  // the status notice replaced by the embed (index.js:95)
    | SendFailureNotice               // a new failure notice (index.js:105)

  /** The name of an accepted attachment is its upload name, and its display
      name is that name without its last five characters. */
  lemma {:induction false} ReplayDisplayName(n: string)
    requires IsReplayName(Some(n))
    ensures UploadFileName(Some(n)) == n
    ensures DisplayName(Some(n)) == n[..|n| - 5]
  {
    ReplayNameCharacterisation(n);
    assert ExtensionAt(n, |n| - 5);
    var r := StripExtension(n);
    ExtensionUnique(n, |n| - 5, |r|);
  }

  /** The handler: `Ignored` when the filter rejects the message, `DownloadError`
      when the download throws, and otherwise the request sent for the chosen
      attachment together with the outcome of the upload. */
  function HandleMessage(m: Message, env: Environment, formContentType: string, download: Download,
                         response: HttpResponse, parse: Parser, stringify: Serializer): (h: Handling)
    ensures h.Ignored? <==> SelectReplay(m).None?
    ensures h.DownloadError? <==> SelectReplay(m).Some? && download.DownloadFailed?
    ensures h.Uploaded? ==>
      && download.Downloaded?
      && h.call.form == UploadForm(download.bytes, SelectReplay(m).value.name, LoadConfig(env).privateFlag)
      && h.call.headers == UploadHeaders(formContentType, LoadConfig(env).apiKey, LoadConfig(env).tenantKey)
      && h.result == Upload(response, parse, stringify)
  {
    match SelectReplay(m)
    case None => Ignored
    case Some(att) =>
      match download
      case DownloadFailed => DownloadError
      case Downloaded(bytes) =>
        var cfg := LoadConfig(env);
        var form := UploadForm(bytes, att.name, cfg.privateFlag);
        var headers := UploadHeaders(formContentType, cfg.apiKey, cfg.tenantKey);
        Uploaded(UploadCall(form, headers), Upload(response, parse, stringify))
  }

  /** The form sent for an accepted attachment: its bytes under its own name,
      that name without its last five characters as the display name, and
      the private flag. With `HandleMessage`, this is what every upload the
      handler starts sends, since the chosen attachment has a replay name. */
  lemma {:induction false} ReplayUploadForm(name: string, bytes: seq<byte>, privateFlag: string)
    requires IsReplayName(Some(name))
    ensures var form := UploadForm(bytes, Some(name), privateFlag);
      && form[0].fileName == name
      && form[0].content == bytes
      && form[1].value == name[..|name| - 5]
      && form[2].value == privateFlag
  {
    ReplayDisplayName(name);
  }

  /** The messages posted for one handled chat message, assuming the chat
      calls themselves succeed. */
  function Effects(h: Handling): (effects: seq<ChatEffect>)
    ensures h.Ignored? <==> effects == []
    ensures !h.Ignored? ==> |effects| == 2 && effects[0] == SendStatus
    ensures forall i :: 0 <= i < |effects| && effects[i].EditStatusWithLink? ==>
      h.Uploaded? && h.result.Success? && effects[i].link == JsString(h.result.url)
  {
    match h
    case Ignored => []
    case DownloadError => [SendStatus, SendFailureNotice]
    case Uploaded(_, result) =>
      if result.Success? then [SendStatus, EditStatusWithLink(JsString(result.url))]
      else [SendStatus, SendFailureNotice]
  }

  /** Every failure, whatever its kind, ends in a new failure notice and
      leaves the status notice unedited; success edits it once. */
  lemma FailureSendsNewNotice(h: Handling)
    requires !h.Ignored?
    ensures (h.Uploaded? && h.result.Success?) <==> Effects(h)[1].EditStatusWithLink?
    ensures !(h.Uploaded? && h.result.Success?) <==> Effects(h)[1] == SendFailureNotice
  {
  }

  /** A message without attachments, or one not in a guild, posts nothing. */
  lemma IgnoredPostsNothing(m: Message, env: Environment, ct: string, download: Download,
                            response: HttpResponse, parse: Parser, stringify: Serializer)
    requires |m.attachments| == 0 || !m.hasGuild || (m.authorBot && !m.hasWebhookId)
    ensures Effects(HandleMessage(m, env, ct, download, response, parse, stringify)) == []
  {
  }

}
