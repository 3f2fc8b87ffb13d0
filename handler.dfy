/** `s3_event`, the POST `/s3-event` handler: take the uploaded object's key
    from the request, rebuild the log page, fetch the image, mail the alert,
    and turn every exception raised on the way into a 500 reply. */
module Handler {
  import opened Wrappers
  import opened S3Fake
  import opened LogPage

  /** The request body as `request.get_json(force=True)` and `payload.get`
      see it: a JSON object's string fields, or the error raised on a body
      that is not one (raised inside the `try`, so it becomes a 500). */
  datatype Payload = Fields(fields: map<string, string>) | Malformed(error: string)

  /** The JSON reply and its status code. */
  datatype Reply = Success(page: string) | Failure(code: int, message: string)
  {
    function Status(): string
    {
      if Success? then "ok" else "error"
    }

    function Code(): int
    {
      if Success? then 200 else code
    }
  }

  /** The external effects, in the order the handler attempts them. */
  datatype Effect = RebuildPage | FetchImage(key: string) | SendMail(to: string)

  const ObjectKeyField := "object_key"
  const KeyField := "key"
  const MissingKeyMessage := "'object_key' missing"

  /** `payload.get(name)` is a truthy (present and non-empty) string. */
  predicate Truthy(fields: map<string, string>, name: string)
  {
    name in fields && fields[name] != ""
  }

  /** `payload.get("object_key") or payload.get("key")`, with `None` for a
      result that `not key` rejects. */
  function ExtractKey(fields: map<string, string>): (r: Option<string>)
    ensures r.Some? <==> Truthy(fields, ObjectKeyField) || Truthy(fields, KeyField)
    ensures r.Some? ==> r.value != ""
    ensures Truthy(fields, ObjectKeyField) ==> r == Some(fields[ObjectKeyField])
    ensures !Truthy(fields, ObjectKeyField) && Truthy(fields, KeyField) ==> r == Some(fields[KeyField])
  {
    var key := if Truthy(fields, ObjectKeyField) then fields[ObjectKeyField]
               else if KeyField in fields then fields[KeyField] else "";
    if key == "" then None else Some(key)
  }

  /** Alert subject; `now` is the formatted UTC time of the request. */
  function AlertSubject(now: string): string
  {
    "Motion Alert \U{2013} " + now
  }

  function AlertPlain(now: string, page: string): string
  {
    "Motion detected at " + now + "\nView: " + page
  }

  /** How the HTML body points at the image attached with Content-ID `snap`. */
  const InlineImageRef := "cid:snap"

  function AlertHtml(now: string, page: string): string
  {
    "<p>Motion detected at " + now + ".</p>"
      + "<p>" + PageLink(page) + "View log page</a></p>"
      + "<img src='" + InlineImageRef + "' style='max-width:100%'>"
  }

  function PageLink(page: string): string
  {
    "<a href='" + page + "'>"
  }

  /** The message handed to `send_email`. */
  function AlertMail(to: string, now: string, page: string, image: string): Mail
  {
    Mail(to, AlertSubject(now), AlertPlain(now, page), AlertHtml(now, page), image)
  }

  /** The subject names the alert and the time; the plain body carries the
      page URL; the HTML body links the page and shows the inline image. */
  lemma AlertContents(now: string, page: string)
    ensures Contains(AlertSubject(now), "Motion Alert")
    ensures Contains(AlertSubject(now), now)
    ensures Contains(AlertPlain(now, page), page)
    ensures Contains(AlertHtml(now, page), PageLink(page))
    ensures Contains(AlertHtml(now, page), InlineImageRef)
  {
    var subject := AlertSubject(now);
    assert subject[..12] == "Motion Alert";
    assert OccursAt(subject, "Motion Alert", 0);
    ContainsMiddle("Motion Alert \U{2013} ", now, "");
    assert subject + "" == subject;
    ContainsMiddle("Motion detected at " + now + "\nView: ", page, "");
    assert AlertPlain(now, page) + "" == AlertPlain(now, page);
    var before := "<p>Motion detected at " + now + ".</p>" + "<p>";
    var after := "View log page</a></p>" + "<img src='" + InlineImageRef + "' style='max-width:100%'>";
    assert AlertHtml(now, page) == before + PageLink(page) + after;
    ContainsMiddle(before, PageLink(page), after);
    ContainsMiddle(before + PageLink(page) + "View log page</a></p>" + "<img src='", InlineImageRef, "' style='max-width:100%'>");
  }

  /** The error, if any, with which `update_log_page` stops: listing first,
      then the put. */
  function RebuildError(faults: map<Op, string>): Option<string>
  {
    if ListObjects in faults then Some(faults[ListObjects])
    else if PutObject in faults then Some(faults[PutObject])
    else None
  }

  /** The error, if any, of fetching `key` from a bucket holding `objects`. */
  function FetchError(faults: map<Op, string>, objects: map<string, Blob>, key: string): Option<string>
  {
    if GetObject in faults then Some(faults[GetObject])
    else if key !in objects then Some(NoSuchKeyMessage)
    else None
  }

  /** Everything the handler can observe or change: the bucket as the fake
      store holds it and the mail relay's fixed outcome and outbox. */
  datatype Backend = Backend(
    listing: seq<StoredObject>,
    faults: map<Op, string>,
    objects: map<string, Blob>,
    mailFailure: Option<string>,
    outbox: seq<Mail>)

  /** What one request leaves behind. */
  datatype Handled = Handled(reply: Reply, trace: seq<Effect>, after: Backend)

  /** The last two effects for an accepted `key`: fetch the image from the
      bucket as it now is, then send the alert. */
  function Deliver(key: string, b: Backend, recipient: string, now: string): (r: Handled)
    ensures r.after.listing == b.listing && r.after.faults == b.faults && r.after.mailFailure == b.mailFailure
    ensures r.after.objects == b.objects
  {
    if FetchError(b.faults, b.objects, key).Some? then
      Handled(Failure(500, FetchError(b.faults, b.objects, key).value), [FetchImage(key)], b)
    else if b.mailFailure.Some? then
      Handled(Failure(500, b.mailFailure.value), [FetchImage(key), SendMail(recipient)], b)
    else
      var mail := AlertMail(recipient, now, PageUrl, b.objects[key].data);
      Handled(Success(PageUrl), [FetchImage(key), SendMail(recipient)], b.(outbox := b.outbox + [mail]))
  }

  /** The three effects for an accepted `key`, in order: rebuild the page
      (writing `page`), then `Deliver`. The first failure ends the request
      with a 500 carrying its message; nothing done before it is undone. */
  function Relay(key: string, b: Backend, page: Blob, recipient: string, now: string): (r: Handled)
    ensures r.after.listing == b.listing && r.after.faults == b.faults && r.after.mailFailure == b.mailFailure
  {
    if RebuildError(b.faults).Some? then
      Handled(Failure(500, RebuildError(b.faults).value), [RebuildPage], b)
    else
      var d := Deliver(key, b.(objects := b.objects[PageKey := page]), recipient, now);
      Handled(d.reply, [RebuildPage] + d.trace, d.after)
  }

  /** `s3_event` on values: a body that is not a JSON object is a 500, a
      missing key a 400, both before any effect; otherwise `Relay`. */
  function Handle(payload: Payload, b: Backend, page: Blob, recipient: string, now: string): (r: Handled)
    ensures r.after.listing == b.listing && r.after.faults == b.faults && r.after.mailFailure == b.mailFailure
  {
    if payload.Malformed? then Handled(Failure(500, payload.error), [], b)
    else
      var key := ExtractKey(payload.fields);
      if key.None? then Handled(Failure(400, MissingKeyMessage), [], b)
      else Relay(key.value, b, page, recipient, now)
  }

  /** No usable key: 400 with the fixed message, before any effect. */
  lemma MissingKeyHasNoEffect(payload: Payload, b: Backend, page: Blob, recipient: string, now: string)
    requires payload.Fields? && ExtractKey(payload.fields).None?
    ensures Handle(payload, b, page, recipient, now) == Handled(Failure(400, MissingKeyMessage), [], b)
  {
  }

  /** The effects attempted are a non-empty prefix of rebuild, fetch, mail
      when there is a key, and none otherwise. */
  lemma EffectsInOrder(payload: Payload, b: Backend, page: Blob, recipient: string, now: string)
    ensures var r := Handle(payload, b, page, recipient, now);
      if payload.Fields? && ExtractKey(payload.fields).Some? then
        1 <= |r.trace| && r.trace <= [RebuildPage, FetchImage(ExtractKey(payload.fields).value), SendMail(recipient)]
      else r.trace == [] && r.after == b
  {
  }

  /** The reply is 200 exactly when all three effects went through; it is 400
      only for a missing key and 500 for every error, carrying its text. */
  lemma ReplyCodes(payload: Payload, b: Backend, page: Blob, recipient: string, now: string)
    ensures var r := Handle(payload, b, page, recipient, now);
      && (r.reply.Success? <==> |r.trace| == 3 && b.mailFailure.None?)
      && (r.reply.Success? ==> r.reply.page == PageUrl)
      && (r.reply.Code() == 400 <==> payload.Fields? && ExtractKey(payload.fields).None?)
      && (r.reply.Failure? ==> r.reply.code in {400, 500})
      && (r.reply.Failure? && |r.trace| == 3 ==> r.reply.message == b.mailFailure.value)
      && (r.reply.Status() == "ok" <==> r.reply.Code() == 200)
  {
  }

  /** A failing list or put ends the request at the rebuild: 500 with that
      error (the list's when both fail), nothing written, nothing sent. */
  lemma RebuildFailureStops(payload: Payload, b: Backend, page: Blob, recipient: string, now: string)
    requires payload.Fields? && ExtractKey(payload.fields).Some?
    requires ListObjects in b.faults || PutObject in b.faults
    ensures var r := Handle(payload, b, page, recipient, now);
      && r.reply == Failure(500, if ListObjects in b.faults then b.faults[ListObjects] else b.faults[PutObject])
      && r.trace == [RebuildPage]
      && r.after == b
  {
  }

  /** After a successful rebuild, a failing get (or a key the bucket does not
      hold) ends the request at the fetch: 500 with that error, the page
      written, nothing sent. */
  lemma FetchFailureStops(payload: Payload, b: Backend, page: Blob, recipient: string, now: string)
    requires payload.Fields? && ExtractKey(payload.fields).Some?
    requires ListObjects !in b.faults && PutObject !in b.faults
    requires GetObject in b.faults || ExtractKey(payload.fields).value !in b.objects[PageKey := page]
    ensures var r := Handle(payload, b, page, recipient, now);
      && r.reply == Failure(500, if GetObject in b.faults then b.faults[GetObject] else NoSuchKeyMessage)
      && r.trace == [RebuildPage, FetchImage(ExtractKey(payload.fields).value)]
      && r.after == b.(objects := b.objects[PageKey := page])
  {
  }

  /** With a key, the reply is 200 exactly when the list, put and get succeed,
      the key is stored and the relay takes the mail; when only the relay
      fails, the reply is 500 with its error after all three effects. */
  lemma SuccessExactlyWithoutFaults(payload: Payload, b: Backend, page: Blob, recipient: string, now: string)
    requires payload.Fields? && ExtractKey(payload.fields).Some?
    ensures var r := Handle(payload, b, page, recipient, now);
      var key := ExtractKey(payload.fields).value;
      var storeWorks := ListObjects !in b.faults && PutObject !in b.faults && GetObject !in b.faults
        && key in b.objects[PageKey := page];
      && (r.reply == Success(PageUrl) <==> storeWorks && b.mailFailure.None?)
      && (storeWorks && b.mailFailure.Some? ==>
            && r.reply == Failure(500, b.mailFailure.value)
            && r.trace == [RebuildPage, FetchImage(key), SendMail(recipient)]
            && r.after == b.(objects := b.objects[PageKey := page]))
  {
  }

  /** An alert goes out only on success, and then it is the one message
      naming the page and carrying the uploaded object. */
  lemma MailOnlyOnSuccess(payload: Payload, b: Backend, page: Blob, recipient: string, now: string)
    ensures var r := Handle(payload, b, page, recipient, now);
      if r.reply.Success? then
        && payload.Fields?
        && var key := ExtractKey(payload.fields).value;
        && key in r.after.objects
        && r.after.outbox == b.outbox + [AlertMail(recipient, now, PageUrl, r.after.objects[key].data)]
      else r.after.outbox == b.outbox
  {
  }

  /** Once rebuilt, the page stays written whatever fails afterwards; before
      that, the bucket is untouched. */
  lemma PageKeptOnLaterFailure(payload: Payload, b: Backend, page: Blob, recipient: string, now: string)
    ensures var r := Handle(payload, b, page, recipient, now);
      && (|r.trace| >= 2 ==> r.after.objects == b.objects[PageKey := page])
      && (|r.trace| < 2 ==> r.after.objects == b.objects)
  {
  }

  /** Fetching the uploaded object and mailing the alert, on the fake bucket
      and mail relay. */
  method FetchAndMail(key: string, store: Store, mailer: Mailer, recipient: string, now: string)
    returns (reply: Reply, trace: seq<Effect>)
    modifies mailer`outbox
    ensures var r := Deliver(key, Backend(store.listing, store.faults, store.objects, mailer.failure, old(mailer.outbox)),
                             recipient, now);
      && reply == r.reply && trace == r.trace && mailer.outbox == r.after.outbox
  {
    trace := [FetchImage(key)];
    var image := store.Get(key);
    if image.Err? {
      return Failure(500, image.message), trace;
    }
    trace := trace + [SendMail(recipient)];
    var sent := mailer.Send(AlertMail(recipient, now, PageUrl, image.value));
    if sent.Fail? {
      return Failure(500, sent.message), trace;
    }
    return Success(PageUrl), trace;
  }

  /** The effects of `s3_event` for an accepted key, on the fake bucket and
      mail relay. */
  method RelayUpload(key: string, store: Store, mailer: Mailer, recipient: string, now: string, stamp: int -> string)
    returns (reply: Reply, trace: seq<Effect>)
    modifies store`objects, mailer`outbox
    ensures var r := Relay(key, Backend(store.listing, store.faults, old(store.objects), mailer.failure, old(mailer.outbox)),
                           LogPageBlob(Bucket, store.listing, stamp), recipient, now);
      && reply == r.reply && trace == r.trace
      && store.objects == r.after.objects && mailer.outbox == r.after.outbox
  {
    var page := UpdateLogPage(store, Bucket, stamp);
    if page.Err? {
      return Failure(500, page.message), [RebuildPage];
    }
    var rest;
    reply, rest := FetchAndMail(key, store, mailer, recipient, now);
    trace := [RebuildPage] + rest;
  }

  /** `s3_event` against the in-memory bucket (the `BUCKET` one) and mail
      relay. `recipient` is the configured alert address, `now` the formatted
      request time and `stamp` the formatter of listing timestamps. */
  method HandleEvent(payload: Payload, store: Store, mailer: Mailer, recipient: string, now: string, stamp: int -> string)
    returns (reply: Reply, trace: seq<Effect>)
    modifies store`objects, mailer`outbox
    ensures var r := Handle(payload, Backend(store.listing, store.faults, old(store.objects), mailer.failure, old(mailer.outbox)),
                            LogPageBlob(Bucket, store.listing, stamp), recipient, now);
      && reply == r.reply && trace == r.trace
      && store.objects == r.after.objects && mailer.outbox == r.after.outbox
  {
    if payload.Malformed? {
      return Failure(500, payload.error), [];
    }
    var key := ExtractKey(payload.fields);
    if key.None? {
      return Failure(400, MissingKeyMessage), [];
    }
    reply, trace := RelayUpload(key.value, store, mailer, recipient, now, stamp);
  }
}
