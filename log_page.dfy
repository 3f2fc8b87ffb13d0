/** `update_log_page`: list the bucket, keep the images, order them newest
    first, render one table row per image into a fixed HTML document, write it
    to `log/index.html` and return the page's website URL. */
module LogPage {
  import opened Wrappers
  import opened Paths
  import opened S3Fake
  import opened Ordering

  /** Defaults of the `BUCKET` and `REGION` settings. */
  const Bucket := "wireless-network-photos"
  const Region := "us-west-1"
  const SiteUrl := "http://" + Bucket + ".s3-website." + Region + ".amazonaws.com"
  const PageKey := "log/index.html"
  const PageContentType := "text/html"
  /** What `update_log_page` returns, whatever bucket it was given. */
  const PageUrl := SiteUrl + "/" + PageKey

  /** The list comprehension over the listing: the image entries, in order. */
  function FilterImages(listing: seq<StoredObject>): (r: seq<StoredObject>)
    ensures |r| <= |listing|
  {
    if listing == [] then []
    else (if IsImage(listing[0].key) then [listing[0]] else []) + FilterImages(listing[1..])
  }

  /** The page holds every image entry of the listing as often as the listing
      does, and nothing else. */
  lemma {:induction false} FilterImagesCounts(listing: seq<StoredObject>)
    ensures forall o :: multiset(FilterImages(listing))[o] == if IsImage(o.key) then multiset(listing)[o] else 0
  {
    if listing != [] {
      assert listing == [listing[0]] + listing[1..];
      FilterImagesCounts(listing[1..]);
    }
  }

  lemma {:induction false} FilterConcat(a: seq<StoredObject>, b: seq<StoredObject>)
    ensures FilterImages(a + b) == FilterImages(a) + FilterImages(b)
  {
    if a == [] {
      assert a + b == b;
    } else {
      var head := if IsImage(a[0].key) then [a[0]] else [];
      assert (a + b)[0] == a[0] && (a + b)[1..] == a[1..] + b;
      FilterConcat(a[1..], b);
      assert FilterImages(a + b) == head + FilterImages(a[1..] + b);
    }
  }

  /** Filtering keeps listing order: among the objects stamped `v`, the kept
      ones are those of the listing, in the listing's order. */
  lemma {:induction false} FilterKeepsOrder(s: seq<StoredObject>, v: int)
    ensures WithStamp(FilterImages(s), v) == FilterImages(WithStamp(s, v))
  {
    if s != [] {
      var x, rest := s[0], s[1..];
      var kept := if IsImage(x.key) then [x] else [];
      var stamped := if x.lastModified == v then [x] else [];
      assert [x][1..] == [];
      assert FilterImages(s) == kept + FilterImages(rest);
      assert WithStamp(s, v) == stamped + WithStamp(rest, v);
      assert WithStamp(kept, v) == FilterImages(stamped);
      calc {
        WithStamp(FilterImages(s), v);
        == { WithStampConcat(kept, FilterImages(rest), v); }
        WithStamp(kept, v) + WithStamp(FilterImages(rest), v);
        == { FilterKeepsOrder(rest, v); }
        FilterImages(stamped) + FilterImages(WithStamp(rest, v));
        == { FilterConcat(stamped, WithStamp(rest, v)); }
        FilterImages(WithStamp(s, v));
      }
    }
  }

  /** Public URL of one object of `bucket`; used for both the link and the
      preview of its row. */
  function ObjectUrl(bucket: string, key: string): string
  {
    "https://" + bucket + ".s3.amazonaws.com/" + key
  }

  /** Distinct keys give distinct links. */
  lemma ObjectUrlInjective(bucket: string, k1: string, k2: string)
    requires ObjectUrl(bucket, k1) == ObjectUrl(bucket, k2)
    ensures k1 == k2
  {
    var n := |"https://" + bucket + ".s3.amazonaws.com/"|;
    assert ObjectUrl(bucket, k1)[n..] == k1;
    assert ObjectUrl(bucket, k2)[n..] == k2;
  }

  /** One table row: the formatted time, a link to the object labelled with
      its raw key, and a preview image from the same URL. */
  function Row(bucket: string, o: StoredObject, ts: string): string
  {
    var url := ObjectUrl(bucket, o.key);
    "\n        <tr>\n          " + TimeCell(ts) + "\n          <td>" + Link(url, o.key)
      + "</td>\n          <td>" + Preview(url) + "</td>\n        </tr>"
  }

  function TimeCell(ts: string): string
  {
    "<td>" + ts + "</td>"
  }

  function Link(url: string, text: string): string
  {
    "<a href=\"" + url + "\">" + text + "</a>"
  }

  function Preview(url: string): string
  {
    "<img src=\"" + url + "\" style=\"max-width:160px\">"
  }

  /** A row shows the time, links the object's URL under its key, and
      previews the same URL. */
  lemma RowShowsObject(bucket: string, o: StoredObject, ts: string)
    ensures Contains(Row(bucket, o, ts), TimeCell(ts))
    ensures Contains(Row(bucket, o, ts), Link(ObjectUrl(bucket, o.key), o.key))
    ensures Contains(Row(bucket, o, ts), Preview(ObjectUrl(bucket, o.key)))
  {
    var url := ObjectUrl(bucket, o.key);
    var a := "\n        <tr>\n          ";
    var b := "\n          <td>";
    var c := "</td>\n          <td>";
    var d := "</td>\n        </tr>";
    var cell, link, preview := TimeCell(ts), Link(url, o.key), Preview(url);
    assert Row(bucket, o, ts) == a + cell + b + link + c + preview + d;
    ContainsSelf(cell);
    ContainsAfter(a, cell, cell);
    ContainsBefore(a + cell, b, cell);
    ContainsBefore(a + cell + b, link, cell);
    ContainsBefore(a + cell + b + link, c, cell);
    ContainsBefore(a + cell + b + link + c, preview, cell);
    ContainsBefore(a + cell + b + link + c + preview, d, cell);
    ContainsSelf(link);
    ContainsAfter(a + cell + b, link, link);
    ContainsBefore(a + cell + b + link, c, link);
    ContainsBefore(a + cell + b + link + c, preview, link);
    ContainsBefore(a + cell + b + link + c + preview, d, link);
    ContainsSelf(preview);
    ContainsAfter(a + cell + b + link + c, preview, preview);
    ContainsBefore(a + cell + b + link + c + preview, d, preview);
  }

  /** The rows appended by the loop, for objects `imgs` in order. */
  function Rows(bucket: string, imgs: seq<StoredObject>, stamp: int -> string): seq<string>
  {
    if imgs == [] then []
    else
      var o := imgs[|imgs| - 1];
      Rows(bucket, imgs[..|imgs| - 1], stamp) + [Row(bucket, o, stamp(o.lastModified))]
  }

  /** Exactly one row per object, in the objects' order. */
  lemma {:induction false} RowsAt(bucket: string, imgs: seq<StoredObject>, stamp: int -> string)
    ensures |Rows(bucket, imgs, stamp)| == |imgs|
    ensures forall i :: 0 <= i < |imgs| ==>
      Rows(bucket, imgs, stamp)[i] == Row(bucket, imgs[i], stamp(imgs[i].lastModified))
  {
    if imgs != [] {
      RowsAt(bucket, imgs[..|imgs| - 1], stamp);
    }
  }

  /** `''.join(rows)`. */
  function Join(rows: seq<string>): string
  {
    if rows == [] then "" else rows[0] + Join(rows[1..])
  }

  const DocumentHead := "<!doctype html><html><head>\n<meta charset=\"utf-8\"><title>Motion Log</title>\n"
    + "<style>body{font-family:sans-serif}table{border-collapse:collapse}\n"
    + "td{padding:6px;border:1px solid #ccc}</style></head><body>\n<h1>Motion Log</h1>\n"
    + "<table><thead><tr><th>Timestamp (UTC)</th><th>File</th><th>Preview</th></tr></thead>\n<tbody>"
  const DocumentTail := "</tbody></table></body></html>"

  /** Each row occurs in the joined text. */
  lemma {:induction false} JoinHas(rows: seq<string>, i: nat)
    requires i < |rows|
    ensures Contains(Join(rows), rows[i])
  {
    if i == 0 {
      ContainsMiddle("", rows[0], Join(rows[1..]));
      assert "" + rows[0] + Join(rows[1..]) == Join(rows);
    } else {
      JoinHas(rows[1..], i - 1);
      ContainsWithin(rows[0], Join(rows[1..]), "", rows[i]);
      assert rows[0] + Join(rows[1..]) + "" == Join(rows);
    }
  }

  function Document(rows: seq<string>): string
  {
    DocumentHead + Join(rows) + DocumentTail
  }

  /** The images the page shows, in the order it shows them. */
  function Shown(listing: seq<StoredObject>): seq<StoredObject>
  {
    NewestFirst(FilterImages(FirstPage(listing)))
  }

  /** The page `update_log_page` writes for a bucket whose listing is `listing`. */
  function RenderLog(bucket: string, listing: seq<StoredObject>, stamp: int -> string): string
  {
    Document(Rows(bucket, Shown(listing), stamp))
  }

  /** The page shows the listed images newest first, each exactly as often as
      it is listed, and images with equal timestamps in listing order. */
  lemma ShownOrder(listing: seq<StoredObject>)
    ensures Sorted(Shown(listing))
    ensures multiset(Shown(listing)) == multiset(FilterImages(FirstPage(listing)))
    ensures forall v :: WithStamp(Shown(listing), v) == FilterImages(WithStamp(FirstPage(listing), v))
  {
    var kept := FilterImages(FirstPage(listing));
    NewestFirstSorted(kept);
    NewestFirstPermutes(kept);
    forall v ensures WithStamp(Shown(listing), v) == FilterImages(WithStamp(FirstPage(listing), v)) {
      NewestFirstStable(kept, v);
      FilterKeepsOrder(FirstPage(listing), v);
    }
  }

  /** The page is the fixed document around one row per kept image. */
  lemma OneRowPerImage(bucket: string, listing: seq<StoredObject>, stamp: int -> string)
    ensures RenderLog(bucket, listing, stamp) == Document(Rows(bucket, Shown(listing), stamp))
    ensures |Rows(bucket, Shown(listing), stamp)| == |Shown(listing)| == |FilterImages(FirstPage(listing))|
    ensures forall i :: 0 <= i < |Shown(listing)| ==>
      Rows(bucket, Shown(listing), stamp)[i] == Row(bucket, Shown(listing)[i], stamp(Shown(listing)[i].lastModified))
  {
    RowsAt(bucket, Shown(listing), stamp);
    NewestFirstPermutes(FilterImages(FirstPage(listing)));
  }

  /** Every image the page shows has its row, link and preview, in the page. */
  lemma ImageRowOnPage(bucket: string, listing: seq<StoredObject>, stamp: int -> string, i: nat)
    requires i < |Shown(listing)|
    ensures Contains(RenderLog(bucket, listing, stamp),
                     Row(bucket, Shown(listing)[i], stamp(Shown(listing)[i].lastModified)))
  {
    var rows := Rows(bucket, Shown(listing), stamp);
    RowsAt(bucket, Shown(listing), stamp);
    JoinHas(rows, i);
    ContainsWithin(DocumentHead, Join(rows), DocumentTail, rows[i]);
  }

  lemma NothingKept(s: seq<StoredObject>)
    requires forall o :: o in s ==> !IsImage(o.key)
    ensures FilterImages(s) == []
  {
  }

  /** With no image listed the page is still the whole document, with an
      empty table body. */
  lemma ImageFreePage(bucket: string, listing: seq<StoredObject>, stamp: int -> string)
    requires forall o :: o in FirstPage(listing) ==> !IsImage(o.key)
    ensures RenderLog(bucket, listing, stamp) == DocumentHead + DocumentTail
    ensures Contains(RenderLog(bucket, listing, stamp), "<tbody></tbody>")
  {
    NothingKept(FirstPage(listing));
    assert Join([]) == "";
    EmptyBody();
  }

  lemma EmptyBody()
    ensures Contains(DocumentHead + DocumentTail, "<tbody></tbody>")
  {
    var page := DocumentHead + DocumentTail;
    var n := |DocumentHead|;
    assert DocumentHead[n - 7..] == "<tbody>";
    assert DocumentTail[..8] == "</tbody>";
    assert page[n - 7..n + 8] == "<tbody></tbody>";
    assert OccursAt(page, "<tbody></tbody>", n - 7);
  }

  /** The page's own key has extension `.html`. */
  lemma PageKeyExtension()
    ensures SplitExt(PageKey) == ".html"
  {
    assert PageKey[4] == 'i' && NoSlashBetween(PageKey, 4, 9);
    assert IsExtension(PageKey, ".html");
    SplitExtMeaning(PageKey, ".html");
  }

  /** The page's own key is not an image key. */
  lemma PageKeyIsNotImage()
    ensures !IsImage(PageKey)
  {
    PageKeyExtension();
    SplitExtOfLower(PageKey);
    assert Lower(".html") == ".html";
  }

  /** A non-image entry (such as the page itself, once written) added to a
      listing that fits one page changes nothing on the page. */
  lemma NonImageEntryInvisible(bucket: string, listing: seq<StoredObject>, i: nat, e: StoredObject, stamp: int -> string)
    requires !IsImage(e.key)
    requires i <= |listing| < MaxKeys
    ensures RenderLog(bucket, listing[..i] + [e] + listing[i..], stamp) == RenderLog(bucket, listing, stamp)
  {
    var grown := listing[..i] + [e] + listing[i..];
    assert FilterImages(grown) == FilterImages(listing) by {
      FilterSkips(listing[..i], e, listing[i..]);
      assert listing == listing[..i] + listing[i..];
    }
    assert FirstPage(grown) == grown;
    assert Shown(grown) == Shown(listing);
  }

  /** Filtering drops a non-image entry wherever it stands. */
  lemma FilterSkips(lo: seq<StoredObject>, e: StoredObject, hi: seq<StoredObject>)
    requires !IsImage(e.key)
    ensures FilterImages(lo + [e] + hi) == FilterImages(lo + hi)
  {
    FilterSingle(e);
    calc {
      FilterImages(lo + [e] + hi);
      == { FilterConcat(lo + [e], hi); }
      FilterImages(lo + [e]) + FilterImages(hi);
      == { FilterConcat(lo, [e]); }
      FilterImages(lo) + FilterImages(hi);
      == { FilterConcat(lo, hi); }
      FilterImages(lo + hi);
    }
  }

  lemma FilterSingle(e: StoredObject)
    ensures FilterImages([e]) == if IsImage(e.key) then [e] else []
  {
    assert [e][1..] == [];
  }

  /** A listing of images only is kept whole. */
  lemma {:induction false} FilterKeepsAll(s: seq<StoredObject>)
    requires forall i :: 0 <= i < |s| ==> IsImage(s[i].key)
    ensures FilterImages(s) == s
  {
    if s != [] {
      FilterKeepsAll(s[1..]);
      assert [s[0]] + s[1..] == s;
    }
  }

  /** Three images stamped T1 < T2 < T3 and one other object: the page shows
      exactly the three, as T3, T2, T1. */
  lemma ThreeImagesNewestFirst(a: StoredObject, b: StoredObject, n: StoredObject, c: StoredObject)
    requires IsImage(a.key) && IsImage(b.key) && IsImage(c.key) && !IsImage(n.key)
    requires a.lastModified < b.lastModified < c.lastModified
    ensures Shown([a, b, n, c]) == [c, b, a]
  {
    ThreeImagesKept(a, b, n, c);
    ThreeNewestFirst(a, b, c);
  }

  lemma ThreeImagesKept(a: StoredObject, b: StoredObject, n: StoredObject, c: StoredObject)
    requires IsImage(a.key) && IsImage(b.key) && IsImage(c.key) && !IsImage(n.key)
    ensures FilterImages([a, b, n, c]) == [a, b, c]
  {
    assert FilterImages([c]) == [c] by {
      assert [c][1..] == [];
    }
    assert FilterImages([n, c]) == [c] by {
      assert [n, c][1..] == [c];
    }
    assert FilterImages([b, n, c]) == [b, c] by {
      assert [b, n, c][1..] == [n, c];
    }
    assert [a, b, n, c][1..] == [b, n, c];
  }

  /** The loop that builds `rows`. */
  method BuildRows(bucket: string, imgs: array<StoredObject>, stamp: int -> string) returns (rows: seq<string>)
    ensures rows == Rows(bucket, imgs[..], stamp)
  {
    rows := [];
    for i := 0 to imgs.Length
      invariant rows == Rows(bucket, imgs[..i], stamp)
    {
      var o := imgs[i];
      assert imgs[..i + 1][..i] == imgs[..i];
      rows := rows + [Row(bucket, o, stamp(o.lastModified))];
    }
    assert imgs[..imgs.Length] == imgs[..];
  }

  /** Steps 1 to 3 of `update_log_page` on the objects one listing call
      returned: filter, sort in place, build the rows, wrap them. */
  method RenderPage(bucket: string, listed: seq<StoredObject>, stamp: int -> string) returns (html: string)
    ensures html == Document(Rows(bucket, NewestFirst(FilterImages(listed)), stamp))
  {
    var kept := FilterImages(listed);
    var imgs := new StoredObject[|kept|](i requires 0 <= i < |kept| => kept[i]);
    assert imgs[..] == kept;
    SortNewestFirst(imgs);
    var rows := BuildRows(bucket, imgs, stamp);
    html := Document(rows);
  }

  /** The object `update_log_page` writes under `PageKey`. */
  function LogPageBlob(bucket: string, listing: seq<StoredObject>, stamp: int -> string): Blob
  {
    Blob(RenderLog(bucket, listing, stamp), PageContentType)
  }

  /** `update_log_page(bucket)` against `store`: on success the page is written
      once under `log/index.html` as `text/html`, nothing else is written, and
      the site URL built from the constant bucket and region is returned; a
      failing list or put writes nothing and reports the store's error. */
  method UpdateLogPage(store: Store, bucket: string, stamp: int -> string) returns (r: Result<string>)
    modifies store`objects
    ensures ListObjects in store.faults ==> r == Err(store.faults[ListObjects]) && store.objects == old(store.objects)
    ensures ListObjects !in store.faults && PutObject in store.faults ==>
      r == Err(store.faults[PutObject]) && store.objects == old(store.objects)
    ensures ListObjects !in store.faults && PutObject !in store.faults ==>
      && r == Ok(PageUrl)
      && store.objects == old(store.objects)[PageKey := LogPageBlob(bucket, store.listing, stamp)]
  {
    var listed := store.List();
    if listed.Err? {
      return Err(listed.message);
    }
    var html := RenderPage(bucket, listed.value, stamp);
    var put := store.Put(PageKey, html, PageContentType);
    if put.Fail? {
      return Err(put.message);
    }
    return Ok(PageUrl);
  }

  /** Two rebuilds in a row leave the same page behind as one. */
  method RebuildTwice(store: Store, bucket: string, stamp: int -> string) returns (first: Result<string>, second: Result<string>)
    requires ListObjects !in store.faults && PutObject !in store.faults
    modifies store`objects
    ensures first == second == Ok(PageUrl)
    ensures store.objects == old(store.objects)[PageKey := LogPageBlob(bucket, store.listing, stamp)]
  {
    first := UpdateLogPage(store, bucket, stamp);
    second := UpdateLogPage(store, bucket, stamp);
  }
}
