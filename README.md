# Motion-alert relay: log page and upload handler

Wireless_Finals is a small relay that sits behind a motion camera. The
camera uploads a snapshot to an S3 bucket. The uploader then POSTs the
object's key to `/s3-event`, and `s3_event` handles that request in three
steps:

1. It rebuilds a static "Motion Log" page with `update_log_page`:
   - It lists the bucket and keeps the image objects.
   - It sorts them newest first and renders one table row per image.
   - It writes the page to `log/index.html` and returns the page's website
     URL.
2. It fetches the uploaded object.
3. It mails an alert that links the page and carries the snapshot.

Every failure becomes a JSON error reply.

This project models both functions on an in-memory stand-in for S3 and the
mail relay. The modules are:

- `Wrappers`: `Option`, `Result` and `Outcome`, and the substring predicate
  `Contains`.
- `Paths`: Python's `str.rfind`, the extension half of `os.path.splitext`,
  ASCII `str.lower`, and the image-key test against `.jpg`, `.jpeg`, `.png`
  and `.gif`.
- `S3Fake`: the stored objects and the fake bucket. The bucket is a class
  with a fixed listing, a map of object bodies that `Put` updates in place,
  and injectable failures. The mail relay is a class with an outbox.
- `Ordering`: the newest-first stable sort. It is specified by a reference
  insertion sort on sequences and implemented as an in-place sort on an
  array.
- `LogPage`: `update_log_page`. It covers the filter, the sort, the loop
  that builds the rows, the fixed HTML document, and the write of the page.
- `Handler`: `s3_event`. It covers key extraction, the alert's subject and
  bodies, the handler as a function on values (`Handle`), and the method
  that runs it against the fake bucket and relay (`HandleEvent`).

Failures are modelled as the exception's message, which is what `str(e)`
gives in the handler's `except` clause. The bucket can be told to fail its
list, put or get. The relay can be told to fail every send. A get of a
missing key fails with boto3's `NoSuchKey` text.

## Model

| member | source | states |
|---|---|---|
| Paths.RFind | Wireless_Finals/src/utils.py:30 | the result is -1 or an index holding `c`, and no later index holds `c` |
| Paths.SplitExtMeaning | Wireless_Finals/src/utils.py:30 | `SplitExt(p)` is a non-empty `e` exactly when `p` ends in `e`, `e` is one dot followed by no dot or slash, and the last path segment before `e` has a character that is not a dot (both directions) |
| Paths.SplitExtSound | Wireless_Finals/src/utils.py:30 | a non-empty extension that `SplitExt` returns meets that description |
| Paths.SplitExtComplete | Wireless_Finals/src/utils.py:30 | every extension meeting that description is the one `SplitExt` returns |
| Paths.SplitExtOfLower | Wireless_Finals/src/utils.py:30 | lower-casing the key before taking the extension gives the lower-cased extension |
| Paths.IsImageMeaning | Wireless_Finals/src/utils.py:29-30 | a key is an image key exactly when its lower-cased form has one of the four image extensions (both directions) |
| Paths.CameraKeyIsImage | Wireless_Finals/src/utils.py:30 | a camera upload key such as `cam1_20240101_120000.jpg` is an image key |
| Paths.UpperCaseKeyIsImage | Wireless_Finals/src/utils.py:30 | the test ignores case: `cam/Front.JPEG` is an image key |
| Paths.HiddenFileIsNotImage | Wireless_Finals/src/utils.py:30 | a leading dot is not an extension: `snaps/.png` is not an image key |
| Paths.VideoIsNotImage | Wireless_Finals/src/utils.py:30 | `clip.mp4` is not an image key |
| Paths.ImageNamedDirectoryIsNotImage | Wireless_Finals/src/utils.py:30 | only the last path segment counts: `shots.gif/readme` is not an image key |
| S3Fake.FirstPage | Wireless_Finals/src/utils.py:28 | one listing call returns at most 1000 entries, as a prefix of the bucket's listing, and the whole listing when it fits |
| S3Fake.Store.List | Wireless_Finals/src/utils.py:28 | a failing list gives its error; otherwise it gives the first page of the listing |
| S3Fake.Store.Put | Wireless_Finals/src/utils.py:56-59 | a failing put changes nothing; otherwise the key maps to the new body and content type, and no other key changes |
| S3Fake.Store.Get | Wireless_Finals/src/run_app.py:26 | gives the injected error, the stored body, or the `NoSuchKey` error for a missing key |
| S3Fake.Mailer.Send | Wireless_Finals/src/run_app.py:35 | a failing relay gives its error and sends nothing; otherwise exactly this message is appended to the outbox |
| Ordering.NewestFirstPermutes | Wireless_Finals/src/utils.py:33 | the reference sort is a permutation of its input (equal multisets and lengths) |
| Ordering.NewestFirstSorted | Wireless_Finals/src/utils.py:33 | the reference sort is non-increasing in last-modified time |
| Ordering.NewestFirstStable | Wireless_Finals/src/utils.py:33 | for every timestamp, the objects with that timestamp keep their input order (stability of `list.sort` with `reverse=True`) |
| Ordering.NewestFirstAppendNewest | Wireless_Finals/src/utils.py:33 | an object newer than all others comes first, with the rest sorted as before |
| Ordering.ThreeNewestFirst | Wireless_Finals/src/utils.py:33 | objects listed with timestamps T1 < T2 < T3 come out as T3, T2, T1 |
| Ordering.InsertLast | Wireless_Finals/src/utils.py:33 | one in-place pass moves `a[i]` into the sorted prefix at the position the reference insertion gives, and leaves the rest of the array alone |
| Ordering.SortNewestFirst | Wireless_Finals/src/utils.py:33 | the in-place sort leaves the array equal to the reference sort of its old contents |
| LogPage.FilterImages | Wireless_Finals/src/utils.py:29-30 | the kept list is never longer than the listing |
| LogPage.FilterImagesCounts | Wireless_Finals/src/utils.py:29-30 | every image entry is kept exactly as often as it is listed, and no other entry is kept |
| LogPage.FilterKeepsOrder | Wireless_Finals/src/utils.py:29-30 | for every timestamp, the kept objects with that timestamp are the listing's images with that timestamp, in listing order |
| LogPage.FilterSkips | Wireless_Finals/src/utils.py:29-30 | a non-image entry is dropped wherever it stands in the listing |
| LogPage.FilterKeepsAll | Wireless_Finals/src/utils.py:29-30 | a listing made only of images is kept whole |
| LogPage.ObjectUrlInjective | Wireless_Finals/src/utils.py:40 | distinct keys give distinct public URLs |
| LogPage.RowShowsObject | Wireless_Finals/src/utils.py:41-46 | a row holds the time cell, a link to the object's URL labelled with its key, and a preview image from that URL |
| LogPage.RowsAt | Wireless_Finals/src/utils.py:36-46 | there is one row per object, and row `i` is the row of object `i` |
| LogPage.BuildRows | Wireless_Finals/src/utils.py:36-46 | the loop over the sorted array produces exactly the reference rows, in order |
| LogPage.JoinHas | Wireless_Finals/src/utils.py:54 | each row occurs in `''.join(rows)` |
| LogPage.ShownOrder | Wireless_Finals/src/utils.py:28-33 | the shown images are sorted newest first, are a permutation of the kept images, and keep listing order among equal timestamps |
| LogPage.OneRowPerImage | Wireless_Finals/src/utils.py:36-54 | the page is the fixed document around exactly one row per kept image, and row `i` renders shown image `i` |
| LogPage.ImageRowOnPage | Wireless_Finals/src/utils.py:41-54 | every shown image's row occurs in the rendered page |
| LogPage.ImageFreePage | Wireless_Finals/src/utils.py:48-54 | with no image listed, the page is still the whole document, with an empty `<tbody></tbody>` |
| LogPage.PageKeyIsNotImage | Wireless_Finals/src/utils.py:57 | the page's own key `log/index.html` is not an image key |
| LogPage.NonImageEntryInvisible | Wireless_Finals/src/utils.py:28-30 | adding a non-image entry, such as the written page, to a listing under 1000 entries leaves the rendered page unchanged |
| LogPage.ThreeImagesNewestFirst | Wireless_Finals/src/utils.py:28-33 | three images with T1 < T2 < T3 and one non-image are shown as exactly T3, T2, T1 |
| LogPage.RenderPage | Wireless_Finals/src/utils.py:29-54 | filtering, the in-place sort and the row loop produce the document around the reference rows of the sorted images |
| LogPage.UpdateLogPage | Wireless_Finals/src/utils.py:22-61 | a failing list or put gives its error and leaves the bucket unchanged; otherwise the only change is that `log/index.html` now holds the rendered page as `text/html`, and the result is the site URL followed by `/log/index.html` |
| LogPage.RebuildTwice | Wireless_Finals/src/utils.py:56-61 | rebuilding twice leaves the same bucket as rebuilding once, and both calls return the page URL |
| Handler.ExtractKey | Wireless_Finals/src/run_app.py:17-18 | a key is found exactly when `object_key` or `key` is a non-empty string; `object_key` wins, `key` is the fallback, and a found key is never empty |
| Handler.AlertContents | Wireless_Finals/src/run_app.py:28-33 | the subject names the alert and the time, the plain body carries the page URL, and the HTML body links the page and shows the inline `cid:snap` image |
| Handler.Deliver | Wireless_Finals/src/run_app.py:26-38 | fetching and mailing never change the bucket, the listing or the injected failures |
| Handler.Relay | Wireless_Finals/src/run_app.py:23-38 | the effects never change the listing or the injected failures |
| Handler.Handle | Wireless_Finals/src/run_app.py:14-42 | the handler never changes the listing or the injected failures |
| Handler.MissingKeyHasNoEffect | Wireless_Finals/src/run_app.py:17-19 | with no usable key the reply is 400 `'object_key' missing`, nothing is attempted, and nothing changes |
| Handler.EffectsInOrder | Wireless_Finals/src/run_app.py:17-35 | with a key, the attempted effects are a non-empty prefix of rebuild, fetch, mail; without one, none is attempted and nothing changes |
| Handler.ReplyCodes | Wireless_Finals/src/run_app.py:18-42 | the reply is 200 with the page URL exactly when all three effects ran and the relay works; 400 exactly for a missing key; otherwise 500; a failed send replies with the relay's error text; the status is `ok` exactly for code 200 |
| Handler.RebuildFailureStops | Wireless_Finals/src/run_app.py:23-42 | a failing list or put ends the request at the rebuild with 500 and that error (the list's first), with nothing written and nothing sent |
| Handler.FetchFailureStops | Wireless_Finals/src/run_app.py:26-42 | after a successful rebuild, a failing get or a key the bucket does not hold ends the request at the fetch with 500 and that error (`NoSuchKey` for a missing key); the page stays written and nothing is sent |
| Handler.SuccessExactlyWithoutFaults | Wireless_Finals/src/run_app.py:23-42 | with a key, the reply is 200 with the page URL exactly when list, put and get succeed, the key is stored and the relay takes the mail; when only the relay fails, the reply is 500 with its error after all three effects |
| Handler.MailOnlyOnSuccess | Wireless_Finals/src/run_app.py:26-38 | a successful reply means exactly one alert was sent, naming the page and carrying the uploaded object; any other reply means no mail was sent |
| Handler.PageKeptOnLaterFailure | Wireless_Finals/src/run_app.py:23-42 | once the rebuild has succeeded the page stays written, even when the fetch or the mail then fails; before that the bucket is untouched |
| Handler.FetchAndMail | Wireless_Finals/src/run_app.py:26-35 | the fetch and the send against the fake bucket and relay give the reply, the effects and the outbox that `Deliver` gives |
| Handler.RelayUpload | Wireless_Finals/src/run_app.py:23-35 | the rebuild, fetch and send against the fake bucket and relay give the reply, the effects, the bucket and the outbox that `Relay` gives, with the rendered log page as the written page |
| Handler.HandleEvent | Wireless_Finals/src/run_app.py:14-42 | the whole handler against the fake bucket and relay gives the reply, the effects, the bucket and the outbox that `Handle` gives |

## Left out

- `send_email` builds MIME parts and talks SMTP to Gmail with credentials
  from the environment. That transport is not modelled. The relay is an
  outbox that either takes the message or fails with a fixed message.
- boto3 and the network are not modelled. The bucket is an in-memory fake
  whose listing is fixed when it is created. Writing the page does not add
  it to the listing. For a listing of fewer than 1000 entries,
  `LogPage.NonImageEntryInvisible` shows that adding it would not change
  the page.
- LogPage.RebuildTwice: holds on the fixed listing. A real bucket with 1000
  or more keys also lists `log/index.html` once the page is written. That
  entry can take a slot in the single listing page and push an image off
  it, so a second rebuild could show one image fewer. The model does not
  capture that case.
- The order of the listing is an input. S3's lexicographic key order is not
  modelled.
- S3Fake.FirstPage: as in the code, only the first listing page (at most
  1000 keys) is read. Later pages are not followed, so a bucket with more
  than 1000 keys loses images from the page. Reading further would need
  the continuation token that the code never sends.
- Paths.IsImage: lower-cases ASCII letters only. Python's full Unicode
  `str.lower` is not modelled.
- Page and image bodies are strings. The page's UTF-8 encoding and the
  image's raw bytes are not modelled.
- Timestamp formatting is not modelled:
  - The `strftime` text of a listing entry's time is the parameter
    `stamp`.
  - The request time `datetime.utcnow()` is the parameter `now`.
- Configuration is not read from the environment:
  - `BUCKET` and `REGION` are fixed at their defaults.
  - The alert recipient `ALERT_EMAIL` is a parameter of the handler.
- Flask routing, JSON serialisation of the reply and logging are not
  modelled:
  - The request body is either a map of string fields or a parse error,
    which becomes a 500.
  - Non-string JSON field values are not modelled.
- Last-modified times are integers in a common time zone. The conversion
  to UTC is not modelled.
