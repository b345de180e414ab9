/** The submit-check (POST) handler of `/api/check`. */
module CheckRoute {
  import opened Wrappers
  import opened Js
  import opened Proxy

  const SubmitFailedMessage := "Failed to submit check"
  const NoFileMessage := "No file uploaded"

  /** The inbound multipart form: reading it threw, or its fields in order. */
  datatype Inbound = Unreadable | Form(fields: seq<(string, FormField)>)

  /** `formData.get(name)`: the first field with that name, `null` when there is none. */
  function FormGet(fields: seq<(string, FormField)>, name: string): (r: Option<FormField>)
    ensures r.None? <==> forall i | 0 <= i < |fields| :: fields[i].0 != name
    ensures r.Some? ==> exists i | 0 <= i < |fields| :: fields[i] == (name, r.value) && forall j | 0 <= j < i :: fields[j].0 != name
  {
    if fields == [] then None
    else if fields[0].0 == name then Some(fields[0].1)
    else
      var r := FormGet(fields[1..], name);
      assert r.Some? ==> exists i | 0 <= i < |fields| :: fields[i] == (name, r.value) && forall j | 0 <= j < i :: fields[j].0 != name by {
        if r.Some? {
          var k :| 0 <= k < |fields| - 1 && fields[1..][k] == (name, r.value) && forall j | 0 <= j < k :: fields[1..][j].0 != name;
          assert fields[k + 1] == (name, r.value);
          forall j | 0 <= j < k + 1 ensures fields[j].0 != name {
            if j > 0 {
              assert fields[j] == fields[1..][j - 1];
            }
          }
        }
      }
      r
  }

  /** `!file` is false: the field is there and is not the empty string. */
  predicate FilePresent(f: Option<FormField>) {
    f.Some? && f.value != TextField("")
  }

  /** `POST <base>/api/check` with a form of exactly the key and the file, in that order. */
  function SubmitRequest(cfg: Config, file: FormField): Outbound
    requires KeyConfigured(cfg)
  {
    Outbound(POST, Url(cfg, "/api/check"), Multipart([("apiKey", TextField(Key(cfg))), ("file", file)]))
  }

  /**
   * POST: the key check comes first; then an unreadable form is a caught
   * exception (500), a missing file is a client error (400), and neither
   * calls upstream; an unset base URL is a caught exception (500) with
   * nothing sent; otherwise the file is forwarded with the key and the
   * answer relayed.
   */
  function Submit(cfg: Config, inbound: Inbound, upstream: UpstreamOutcome): (h: Handled)
    ensures !KeyConfigured(cfg) ==> h == NotConfigured()
    ensures KeyConfigured(cfg) && inbound.Unreadable? ==>
      h == Handled(None, Reply(500, ErrorBody(SubmitFailedMessage)))
    ensures KeyConfigured(cfg) && inbound.Form? && !FilePresent(FormGet(inbound.fields, "file")) ==>
      h == Handled(None, Reply(400, ErrorBody(NoFileMessage)))
    ensures KeyConfigured(cfg) && inbound.Form? && FilePresent(FormGet(inbound.fields, "file")) && !BaseUrlSet(cfg) ==>
      h == Handled(None, Reply(500, ErrorBody(SubmitFailedMessage)))
    ensures KeyConfigured(cfg) && inbound.Form? && FilePresent(FormGet(inbound.fields, "file")) && BaseUrlSet(cfg) ==>
      && h.sent == Some(SubmitRequest(cfg, FormGet(inbound.fields, "file").value))
      && h.response == Relay(upstream, SubmitFailedMessage)
    ensures h.sent.Some? ==> h.sent.value.body.Multipart? && |h.sent.value.body.fields| == 2
  {
    if !KeyConfigured(cfg) then NotConfigured()
    else match inbound
      case Unreadable => Handled(None, Reply(500, ErrorBody(SubmitFailedMessage)))
      case Form(fields) =>
        var file := FormGet(fields, "file");
        if !FilePresent(file) then Handled(None, Reply(400, ErrorBody(NoFileMessage)))
        else Call(cfg, SubmitRequest(cfg, file.value), Relay(upstream, SubmitFailedMessage), SubmitFailedMessage)
  }

  /** The upload's file reaches upstream untouched, beside the configured key. */
  lemma UploadForwarded(cfg: Config, blob: Blob, upstream: UpstreamOutcome)
    requires KeyConfigured(cfg)
    ensures !BaseUrlSet(cfg) ==> Submit(cfg, Form([("file", FileField(blob))]), upstream).sent == None
    ensures BaseUrlSet(cfg) ==>
      Submit(cfg, Form([("file", FileField(blob))]), upstream).sent ==
        Some(Outbound(POST, Url(cfg, "/api/check"), Multipart([("apiKey", TextField(Key(cfg))), ("file", FileField(blob))])))
  {
  }
}
