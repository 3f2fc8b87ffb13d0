/** The image test of `update_log_page`: the extension that `os.path.splitext`
    gives for the lower-cased key must be one of four image extensions. */
module Paths {

  /** Index of the last occurrence of `c` in `s`, or -1 when there is none
      (Python's `str.rfind`). */
  function RFind(s: string, c: char): (r: int)
    ensures -1 <= r < |s|
    ensures r >= 0 ==> s[r] == c
    ensures forall i :: r < i < |s| ==> s[i] != c
  {
    if s == [] then -1
    else if s[|s| - 1] == c then |s| - 1
    else RFind(s[..|s| - 1], c)
  }

  /** `RFind` is pinned down by its postcondition. */
  lemma RFindIs(s: string, c: char, k: int)
    requires -1 <= k < |s| && (k >= 0 ==> s[k] == c)
    requires forall j :: k < j < |s| ==> s[j] != c
    ensures RFind(s, c) == k
  {
  }

  /** Some character strictly between `lo` and `hi` is not a dot. */
  predicate HasNonDot(p: string, lo: int, hi: int)
    requires -1 <= lo && hi <= |p|
  {
    exists i | lo < i < hi :: p[i] != '.'
  }

  /** The extension half of POSIX `os.path.splitext`: from the last dot of the
      final `/`-segment to the end, unless that segment holds only dots before
      it (a leading dot does not start an extension); otherwise empty. */
  function SplitExt(p: string): string
  {
    var sep := RFind(p, '/');
    var dot := RFind(p, '.');
    if dot > sep && HasNonDot(p, sep, dot) then p[dot..] else ""
  }

  /** Independent description of a non-empty extension `e` of path `p`: `p`
      ends in `e`, `e` is a dot followed by neither dots nor slashes, and the
      final segment before `e` has a character that is not a dot. */
  ghost predicate IsExtension(p: string, e: string)
  {
    && 1 <= |e| <= |p|
    && e[0] == '.'
    && p[|p| - |e|..] == e
    && (forall j :: 1 <= j < |e| ==> e[j] != '.' && e[j] != '/')
    && exists i :: 0 <= i < |p| - |e| && p[i] != '.' && p[i] != '/' && NoSlashBetween(p, i, |p| - |e|)
  }

  ghost predicate NoSlashBetween(p: string, lo: int, hi: int)
    requires 0 <= lo && hi <= |p|
  {
    forall j :: lo < j < hi ==> p[j] != '/'
  }

  /** `SplitExt` gives exactly the extensions `IsExtension` describes. */
  lemma SplitExtMeaning(p: string, e: string)
    ensures (e != "" && SplitExt(p) == e) <==> IsExtension(p, e)
  {
    if e != "" && SplitExt(p) == e {
      SplitExtSound(p);
    }
    if IsExtension(p, e) {
      SplitExtComplete(p, e);
    }
  }

  lemma SplitExtSound(p: string)
    requires SplitExt(p) != ""
    ensures IsExtension(p, SplitExt(p))
  {
    var sep, dot := RFind(p, '/'), RFind(p, '.');
    var e := SplitExt(p);
    assert dot > sep && HasNonDot(p, sep, dot);
    var i :| sep < i < dot && p[i] != '.';
    assert |p| - |e| == dot;
    forall j | 1 <= j < |e| ensures e[j] != '.' && e[j] != '/' {
      assert e[j] == p[dot + j];
    }
    assert p[i] != '/' && NoSlashBetween(p, i, dot);
  }

  lemma SplitExtComplete(p: string, e: string)
    requires IsExtension(p, e)
    ensures SplitExt(p) == e
  {
    var sep, dot := RFind(p, '/'), RFind(p, '.');
    var d := |p| - |e|;
    assert p[d] == e[0] == '.';
    forall j | d < j < |p| ensures p[j] != '.' && p[j] != '/' {
      assert p[j] == e[j - d];
    }
    assert dot == d;
    var i :| 0 <= i < d && p[i] != '.' && p[i] != '/' && NoSlashBetween(p, i, d);
    assert sep < i;
    assert HasNonDot(p, sep, dot);
  }

  /** ASCII lower-casing of one character. */
  function LowerChar(c: char): char
  {
    if 'A' <= c <= 'Z' then (c as int + 32) as char else c
  }

  /** `str.lower`, restricted to the ASCII letters. */
  function Lower(s: string): string
  {
    seq(|s|, i requires 0 <= i < |s| => LowerChar(s[i]))
  }

  lemma {:induction false} RFindLower(s: string, c: char)
    requires c == '.' || c == '/'
    ensures RFind(Lower(s), c) == RFind(s, c)
  {
    if s != [] {
      assert Lower(s)[..|s| - 1] == Lower(s[..|s| - 1]);
      RFindLower(s[..|s| - 1], c);
    }
  }

  /** Lower-casing before splitting (as the source does) and after give the
      same extension: dots and slashes are where they were. */
  lemma SplitExtOfLower(p: string)
    ensures SplitExt(Lower(p)) == Lower(SplitExt(p))
  {
    RFindLower(p, '/');
    RFindLower(p, '.');
    var sep, dot := RFind(p, '/'), RFind(p, '.');
    if dot > sep {
      assert HasNonDot(Lower(p), sep, dot) == HasNonDot(p, sep, dot) by {
        forall i | sep < i < dot ensures (Lower(p)[i] != '.') == (p[i] != '.') { }
      }
      assert Lower(p)[dot..] == Lower(p[dot..]);
    }
  }

  const ImageExtensions: set<string> := {".jpg", ".jpeg", ".png", ".gif"}

  /** The filter of `update_log_page`. */
  predicate IsImage(key: string)
  {
    SplitExt(Lower(key)) in ImageExtensions
  }

  /** A key is an image exactly when its lower-cased form has one of the four
      image extensions in the sense of `IsExtension`. */
  lemma IsImageMeaning(key: string)
    ensures IsImage(key) <==> exists e :: e in ImageExtensions && IsExtension(Lower(key), e)
  {
    var p := Lower(key);
    SplitExtMeaning(p, SplitExt(p));
    if e :| e in ImageExtensions && IsExtension(p, e) {
      SplitExtMeaning(p, e);
    }
  }

  /** A key as the camera uploads it is an image. */
  lemma CameraKeyIsImage()
    ensures IsImage("cam1_20240101_120000.jpg")
  {
    var p := "cam1_20240101_120000.jpg";
    RFindIs(p, '/', -1);
    RFindIs(p, '.', 20);
    assert p[0] != '.';
    assert Lower(p) == p;
  }

  /** Upper-case extensions count. */
  lemma UpperCaseKeyIsImage()
    ensures IsImage("cam/Front.JPEG")
  {
    var p := "cam/front.jpeg";
    RFindIs(p, '/', 3);
    RFindIs(p, '.', 9);
    assert p[4] != '.';
    assert Lower("cam/Front.JPEG") == p;
  }

  /** A leading dot does not start an extension. */
  lemma HiddenFileIsNotImage()
    ensures !IsImage("snaps/.png")
  {
    var p := "snaps/.png";
    RFindIs(p, '/', 5);
    RFindIs(p, '.', 6);
    assert Lower(p) == p;
  }

  /** Other types are dropped. */
  lemma VideoIsNotImage()
    ensures !IsImage("clip.mp4")
  {
    var p := "clip.mp4";
    RFindIs(p, '/', -1);
    RFindIs(p, '.', 4);
    assert p[0] != '.';
    assert Lower(p) == p;
  }

  /** Only the final path segment is looked at. */
  lemma ImageNamedDirectoryIsNotImage()
    ensures !IsImage("shots.gif/readme")
  {
    var p := "shots.gif/readme";
    RFindIs(p, '/', 9);
    RFindIs(p, '.', 5);
    assert Lower(p) == p;
  }
}
