/**
 * The file extension taken from a MIME type, as the profile-image upload uses
 * it to name the stored file (`image/jpeg` gives `jpeg`).
 */
module FileExtension {
  import opened Wrappers

  /** JavaScript's `s.split(sep)` for a one-character separator: the pieces between separators, empty ones included. */
  function Split(s: string, sep: char): (parts: seq<string>)
    ensures |parts| >= 1
    ensures |parts| == 1 <==> sep !in s
    ensures forall i :: 0 <= i < |parts| ==> sep !in parts[i]
    decreases |s|
  {
    if |s| == 0 then [""]
    else
      var rest := Split(s[1..], sep);
      assert s == [s[0]] + s[1..];
      if s[0] == sep then [""] + rest
      else [[s[0]] + rest[0]] + rest[1..]
  }

  /** JavaScript's `parts.join(sep)`, the inverse of Split. */
  function Join(parts: seq<string>, sep: char): string
    requires |parts| >= 1
    decreases |parts|
  {
    if |parts| == 1 then parts[0] else parts[0] + [sep] + Join(parts[1..], sep)
  }

  /** Joining the pieces gives back the string that was split. */
  lemma {:induction false} JoinSplit(s: string, sep: char)
    ensures Join(Split(s, sep), sep) == s
    decreases |s|
  {
    if |s| > 0 {
      JoinSplit(s[1..], sep);
      var rest := Split(s[1..], sep);
      if s[0] != sep {
        if |rest| == 1 {
          assert Split(s, sep) == [[s[0]] + rest[0]];
        } else {
          assert Split(s, sep)[1..] == rest[1..];
          assert Join(rest, sep) == rest[0] + [sep] + Join(rest[1..], sep);
        }
      } else {
        assert Split(s, sep)[1..] == rest;
      }
    }
  }

  /** Splitting a join of separator-free pieces gives back the pieces. */
  lemma {:induction false} SplitJoin(parts: seq<string>, sep: char)
    requires |parts| >= 1
    requires forall i :: 0 <= i < |parts| ==> sep !in parts[i]
    ensures Split(Join(parts, sep), sep) == parts
    decreases |parts|
  {
    if |parts| == 1 {
      SplitOfSlashFree(parts[0], sep);
    } else {
      SplitJoin(parts[1..], sep);
      SplitAfterFirst(parts[0], Join(parts[1..], sep), sep);
      assert Join(parts, sep) == parts[0] + [sep] + Join(parts[1..], sep);
      assert parts == [parts[0]] + parts[1..];
    }
  }

  lemma {:induction false} SplitOfSlashFree(a: string, sep: char)
    requires sep !in a
    ensures Split(a, sep) == [a]
    decreases |a|
  {
    if |a| > 0 {
      SplitOfSlashFree(a[1..], sep);
      assert a == [a[0]] + a[1..];
    }
  }

  /** A separator-free prefix followed by a separator is exactly the first piece. */
  lemma {:induction false} SplitAfterFirst(a: string, t: string, sep: char)
    requires sep !in a
    ensures Split(a + [sep] + t, sep) == [a] + Split(t, sep)
    decreases |a|
  {
    if |a| == 0 {
      assert a + [sep] + t == [sep] + t;
      assert ([sep] + t)[1..] == t;
    } else {
      SplitAfterFirst(a[1..], t, sep);
      assert (a + [sep] + t)[1..] == a[1..] + [sep] + t;
      assert a == [a[0]] + a[1..];
    }
  }

  /** A separator-free `b` followed by nothing or by a separator is the first piece of `b + c`. */
  lemma {:induction false} SplitHead(b: string, c: string, sep: char)
    requires sep !in b
    requires c == [] || c[0] == sep
    ensures Split(b + c, sep)[0] == b
    decreases |b|
  {
    if |b| == 0 {
      assert b + c == c;
    } else {
      SplitHead(b[1..], c, sep);
      assert (b + c)[1..] == b[1..] + c;
      assert b == [b[0]] + b[1..];
    }
  }

  /**
   * getExtensionFromMimeType: no '/' gives no extension; otherwise the second
   * '/'-separated piece, unless that piece is empty.
   */
  function ExtensionFromMimeType(mimeType: string): (r: Option<string>)
    ensures '/' !in mimeType ==> r.None?
    ensures r.Some? ==> r.value != "" && '/' !in r.value
  {
    if '/' !in mimeType then None
    else
      var parts := Split(mimeType, '/');
      var extension := parts[1];
      if extension == "" then None else Some(extension)
  }

  /** `m` is `a + "/" + b + c` with `b` the whole piece after the first '/'. */
  predicate SecondPiece(m: string, a: string, b: string, c: string)
  {
    m == a + "/" + b + c && '/' !in a && '/' !in b && (c == "" || c[0] == '/')
  }

  /** Whatever stands before the first '/' and after the next one is ignored; the piece between decides. */
  lemma ExtensionOfPieces(m: string, a: string, b: string, c: string)
    requires SecondPiece(m, a, b, c)
    ensures ExtensionFromMimeType(m) == if b == "" then None else Some(b)
  {
    assert m == a + ['/'] + (b + c);
    assert m[|a|] == '/';
    SplitAfterFirst(a, b + c, '/');
    SplitHead(b, c, '/');
  }

  /** The index of the first '/' in a string that has one. */
  function FirstSlash(m: string): (i: nat)
    requires '/' in m
    ensures i < |m| && m[i] == '/' && '/' !in m[..i]
  {
    if m[0] == '/' then 0
    else
      assert m == [m[0]] + m[1..];
      var j := FirstSlash(m[1..]);
      assert m[..j + 1] == [m[0]] + m[1..][..j];
      j + 1
  }

  /** The index at which the first piece of `t` ends: its first '/' or its end. */
  function PieceEnd(t: string): (j: nat)
    ensures j <= |t| && '/' !in t[..j] && (j == |t| || t[j] == '/')
  {
    if '/' in t then FirstSlash(t) else |t|
  }

  /**
   * An extension is always a non-empty piece free of '/', found right after the
   * first '/' and followed by the end of the string or another '/'.
   */
  lemma ExtensionIsSecondPiece(m: string)
    ensures ExtensionFromMimeType(m).Some? ==>
      var e := ExtensionFromMimeType(m).value;
      e != "" && '/' !in e &&
      var i := FirstSlash(m);
      i + 1 + |e| <= |m| && SecondPiece(m, m[..i], e, m[i + 1 + |e|..])
    ensures '/' !in m ==> ExtensionFromMimeType(m) == None
  {
    if '/' in m {
      var i := FirstSlash(m);
      var t := m[i + 1..];
      var j := PieceEnd(t);
      PiecesAt(m, i, t, j);
      ExtensionOfPieces(m, m[..i], t[..j], t[j..]);
      if ExtensionFromMimeType(m).Some? {
        assert m[i + 1 + j..] == t[j..];
      }
    }
  }

  /** Cutting `m` at a first '/' and at the end of the piece after it decomposes `m` as SecondPiece describes. */
  lemma PiecesAt(m: string, i: nat, t: string, j: nat)
    requires i < |m| && m[i] == '/' && '/' !in m[..i] && t == m[i + 1..]
    requires j <= |t| && '/' !in t[..j] && (j == |t| || t[j] == '/')
    ensures SecondPiece(m, m[..i], t[..j], t[j..])
  {
    assert t == t[..j] + t[j..];
    assert m[i..] == [m[i]] + t;
    assert m == m[..i] + m[i..];
    assert m == m[..i] + "/" + (t[..j] + t[j..]);
    assert m == m[..i] + "/" + t[..j] + t[j..];
  }

  /** The cases the helper's documentation and code spell out. */
  lemma ExtensionOfJpeg()
    ensures ExtensionFromMimeType("image/jpeg") == Some("jpeg")
    ensures ExtensionFromMimeType("jpeg") == None
  {
    ExtensionOfPieces("image/jpeg", "image", "jpeg", "");
  }

  lemma ExtensionOfEmptyPiece()
    ensures ExtensionFromMimeType("image/") == None
    ensures ExtensionFromMimeType("image//png") == None
  {
    ExtensionOfPieces("image/", "image", "", "");
    ExtensionOfPieces("image//png", "image", "", "/png");
  }

  lemma ExtensionIgnoresOuterPieces()
    ensures ExtensionFromMimeType("/png") == Some("png")
    ensures ExtensionFromMimeType("image/svg+xml/x") == Some("svg+xml")
  {
    ExtensionOfPieces("/png", "", "png", "");
    ExtensionOfPieces("image/svg+xml/x", "image", "svg+xml", "/x");
  }
}
