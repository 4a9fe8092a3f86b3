/** The filename a download is suggested under: the document URL split at
    every '/' (JavaScript's String.prototype.split with a one-character
    separator), of which the last piece is taken (Array.prototype.pop). */
module FileName {

  const PathSeparator: char := '/'

  /** Joins pieces with the separator between neighbours; the inverse of Split. */
  function Join(parts: seq<string>, sep: char): (s: string)
    requires |parts| >= 1
    decreases |parts|
  {
    if |parts| == 1 then parts[0] else parts[0] + [sep] + Join(parts[1..], sep)
  }

  /** s.split(sep) for a one-character separator: always at least one piece,
      no piece holds the separator, and joining the pieces gives s back. */
  function Split(s: string, sep: char): (parts: seq<string>)
    ensures |parts| >= 1
    ensures forall k :: 0 <= k < |parts| ==> sep !in parts[k]
    ensures Join(parts, sep) == s
    decreases |s|
  {
    if s == [] then [[]]
    else
      var rest := Split(s[1..], sep);
      if s[0] == sep then
        assert s == [sep] + s[1..];
        [[]] + rest
      else
        var parts := [[s[0]] + rest[0]] + rest[1..];
        assert parts[1..] == rest[1..];
        parts
  }

  /** Joining with one more piece at the end appends the separator and that piece. */
  lemma {:induction false} JoinSnoc(parts: seq<string>, last: string, sep: char)
    requires |parts| >= 1
    ensures Join(parts + [last], sep) == Join(parts, sep) + [sep] + last
    decreases |parts|
  {
    var whole := parts + [last];
    assert whole[1..] == parts[1..] + [last];
    if |parts| > 1 {
      JoinSnoc(parts[1..], last, sep);
    }
  }

  /** The last piece of a join is a suffix of it, preceded by the separator
      whenever there is more than one piece. */
  lemma {:induction false} LastPieceIsSuffix(parts: seq<string>, sep: char)
    requires |parts| >= 1
    ensures var s, last := Join(parts, sep), parts[|parts| - 1];
      |last| <= |s| && s[|s| - |last|..] == last &&
      (|parts| > 1 ==> |last| < |s| && s[|s| - |last| - 1] == sep)
  {
    var last := parts[|parts| - 1];
    if |parts| > 1 {
      var init := parts[..|parts| - 1];
      assert parts == init + [last];
      JoinSnoc(init, last, sep);
    }
  }

  /** The suggested download filename: pdfFile.split('/').pop(). It is the
      longest suffix of the URL that holds no '/': either the whole URL, or
      the part after the URL's last '/'. */
  function DownloadName(url: string): (name: string)
    ensures PathSeparator !in name
    ensures |name| <= |url| && url[|url| - |name|..] == name
    ensures |name| < |url| ==> url[|url| - |name| - 1] == PathSeparator
  {
    var parts := Split(url, PathSeparator);
    LastPieceIsSuffix(parts, PathSeparator);
    parts[|parts| - 1]
  }

  /** A URL with no '/' is suggested as it stands. */
  lemma WholeUrlWithoutSlash(url: string)
    requires PathSeparator !in url
    ensures DownloadName(url) == url
  {
  }

  /** A URL ending in '/' gives an empty filename. */
  lemma EmptyAfterTrailingSlash(url: string)
    requires |url| > 0 && url[|url| - 1] == PathSeparator
    ensures DownloadName(url) == []
  {
  }

  /** The filename is exactly what follows the last '/'. */
  lemma NameAfterLastSlash(prefix: string, name: string)
    requires PathSeparator !in name
    ensures DownloadName(prefix + [PathSeparator] + name) == name
  {
    var url := prefix + [PathSeparator] + name;
    assert url[|url| - |name|..] == name;
    assert url[|url| - |name| - 1] == PathSeparator;
  }

  /** The suggested name for a document under a URL path is its file name. */
  lemma SampleFileName()
    ensures DownloadName("https://x/sample.pdf") == "sample.pdf"
  {
    assert "https://x/sample.pdf" == "https://x" + [PathSeparator] + "sample.pdf";
    NameAfterLastSlash("https://x", "sample.pdf");
  }
}
