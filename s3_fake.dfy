/** In-memory stand-ins for the external services the relay calls: the S3
    bucket (`list_objects_v2`, `put_object`, `get_object`) and the mail relay
    used by `send_email`. Each can be told to fail, with the text of the
    exception it would raise. */
module S3Fake {
  import opened Wrappers

  /** One entry of a bucket listing: `Key`, `LastModified`, `Size`. */
  datatype StoredObject = StoredObject(key: string, lastModified: int, size: int)

  /** A stored body and its content type. */
  datatype Blob = Blob(data: string, contentType: string)

  /** The store operations whose failure can be injected. */
  datatype Op = ListObjects | PutObject | GetObject

  /** `list_objects_v2` returns at most this many keys per call. */
  const MaxKeys := 1000

  const NoSuchKeyMessage := "An error occurred (NoSuchKey) when calling the GetObject operation: The specified key does not exist."

  /** The part of a listing that one `list_objects_v2` call returns. */
  function FirstPage(listing: seq<StoredObject>): (r: seq<StoredObject>)
    ensures |r| <= MaxKeys && r <= listing
    ensures |listing| <= MaxKeys ==> r == listing
  {
    if |listing| <= MaxKeys then listing else listing[..MaxKeys]
  }

  /** One bucket. `listing` is the enumeration `list_objects_v2` walks, in the
      store's order; `objects` holds the bodies by key; `faults` names the
      operations that fail, with their error text. */
  class Store {
    const listing: seq<StoredObject>
    var objects: map<string, Blob>
    const faults: map<Op, string>

    constructor (listing: seq<StoredObject>, objects: map<string, Blob>, faults: map<Op, string>)
      ensures this.listing == listing && this.objects == objects && this.faults == faults
    {
      this.listing := listing;
      this.objects := objects;
      this.faults := faults;
    }

    /** `list_objects_v2`: the first page of the listing. */
    method List() returns (r: Result<seq<StoredObject>>)
      ensures ListObjects in faults ==> r == Err(faults[ListObjects])
      ensures ListObjects !in faults ==> r == Ok(FirstPage(listing))
    {
      if ListObjects in faults {
        r := Err(faults[ListObjects]);
      } else {
        r := Ok(FirstPage(listing));
      }
    }

    /** `put_object`: one atomic overwrite of `key`; nothing else changes. */
    method Put(key: string, body: string, contentType: string) returns (r: Outcome)
      modifies this`objects
      ensures PutObject in faults ==> r == Fail(faults[PutObject]) && objects == old(objects)
      ensures PutObject !in faults ==> r == Pass && objects == old(objects)[key := Blob(body, contentType)]
    {
      if PutObject in faults {
        r := Fail(faults[PutObject]);
      } else {
        objects := objects[key := Blob(body, contentType)];
        r := Pass;
      }
    }

    /** `get_object(...)["Body"].read()`: the body of `key`, or NoSuchKey. */
    method Get(key: string) returns (r: Result<string>)
      ensures GetObject in faults ==> r == Err(faults[GetObject])
      ensures GetObject !in faults && key in objects ==> r == Ok(objects[key].data)
      ensures GetObject !in faults && key !in objects ==> r == Err(NoSuchKeyMessage)
    {
      if GetObject in faults {
        r := Err(faults[GetObject]);
      } else if key in objects {
        r := Ok(objects[key].data);
      } else {
        r := Err(NoSuchKeyMessage);
      }
    }
  }

  /** What `send_email` hands to the relay: recipient, subject, plain and HTML
      bodies, and the image attached inline under Content-ID `snap`. */
  datatype Mail = Mail(to: string, subject: string, plain: string, html: string, image: string)

  /** The mail relay: the messages it accepted, and the error it raises (if
      any) on the next submission. */
  class Mailer {
    var outbox: seq<Mail>
    const failure: Option<string>

    constructor (failure: Option<string>)
      ensures outbox == [] && this.failure == failure
    {
      outbox := [];
      this.failure := failure;
    }

    method Send(m: Mail) returns (r: Outcome)
      modifies this`outbox
      ensures failure.Some? ==> r == Fail(failure.value) && outbox == old(outbox)
      ensures failure.None? ==> r == Pass && outbox == old(outbox) + [m]
    {
      if failure.Some? {
        r := Fail(failure.value);
      } else {
        outbox := outbox + [m];
        r := Pass;
      }
    }
  }
}
