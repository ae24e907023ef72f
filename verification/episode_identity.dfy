/**
 * Episode identity derived from an audio URL.  The client writes the same
 * expression inline in several places,
 *   url.split('/').pop()?.split('?')[0] || fallback,
 * i.e. the text after the last `/`, cut at the first `?`.  `Split` follows
 * JavaScript's `String.prototype.split` with a one-character separator.
 */
module EpisodeIdentity {
  import opened Wrappers
  import opened Js

  /** Every character of `piece` occurs in `s`. */
  ghost predicate CharsFrom(piece: string, s: string) {
    forall ch :: ch in piece ==> ch in s
  }

  /** `s.split(sep)`: never empty, and no piece holds the separator. */
  function Split(s: string, sep: char): (r: seq<string>)
    ensures |r| >= 1
    ensures forall i :: 0 <= i < |r| ==> sep !in r[i] && CharsFrom(r[i], s)
  {
    if s == [] then [[]]
    else
      var rest := Split(s[1..], sep);
      if s[0] == sep then [[]] + rest
      else [[s[0]] + rest[0]] + rest[1..]
  }

  /** `parts.join(sep)`. */
  function Join(parts: seq<string>, sep: char): string
    requires |parts| >= 1
  {
    if |parts| == 1 then parts[0] else parts[0] + [sep] + Join(parts[1..], sep)
  }

  function Last<T>(s: seq<T>): T
    requires |s| >= 1
  {
    s[|s| - 1]
  }

  /** Splitting loses nothing: joining the pieces back gives the input. */
  lemma {:induction false} JoinSplit(s: string, sep: char)
    ensures Join(Split(s, sep), sep) == s
  {
    if s != [] {
      var rest := Split(s[1..], sep);
      JoinSplit(s[1..], sep);
      if s[0] != sep {
        var r := Split(s, sep);
        if |rest| > 1 {
          assert r[1..] == rest[1..];
          assert Join(r, sep) == [s[0]] + rest[0] + [sep] + Join(rest[1..], sep);
        }
      }
    }
  }

  /** Joining drops the last piece behind the last separator. */
  lemma {:induction false} JoinLast(parts: seq<string>, sep: char)
    requires |parts| >= 2
    ensures Join(parts, sep) == Join(parts[..|parts| - 1], sep) + [sep] + Last(parts)
  {
    if |parts| > 2 {
      JoinLast(parts[1..], sep);
      assert parts[1..][..|parts| - 2] == parts[..|parts| - 1][1..];
    }
  }

  lemma {:induction false} SplitNoSep(s: string, sep: char)
    requires sep !in s
    ensures Split(s, sep) == [s]
  {
    if s != [] {
      SplitNoSep(s[1..], sep);
      assert [s[0]] + s[1..] == s;
    }
  }

  /** Text without the separator appended to a string extends its last piece only. */
  lemma {:induction false} LastSplitAppend(a: string, b: string, sep: char)
    requires sep !in b
    ensures |Split(a + b, sep)| == |Split(a, sep)|
    ensures Last(Split(a + b, sep)) == Last(Split(a, sep)) + b
  {
    if a == [] {
      assert a + b == b;
      SplitNoSep(b, sep);
    } else {
      var a' := a[1..];
      assert (a + b)[1..] == a' + b;
      assert (a + b)[0] == a[0];
      LastSplitAppend(a', b, sep);
      var rest, rest' := Split(a' + b, sep), Split(a', sep);
      if a[0] == sep {
        assert Split(a + b, sep) == [[]] + rest;
        assert Split(a, sep) == [[]] + rest';
      } else {
        assert Split(a + b, sep) == [[a[0]] + rest[0]] + rest[1..];
        assert Split(a, sep) == [[a[0]] + rest'[0]] + rest'[1..];
        if |rest| == 1 {
          assert Last(Split(a + b, sep)) == [a[0]] + rest[0];
          assert rest[0] == rest'[0] + b;
        }
      }
    }
  }

  /** After a separator, the last piece is whatever follows it. */
  lemma {:induction false} LastSplitAfterSep(a: string, b: string, sep: char)
    requires sep !in b
    ensures |Split(a + [sep] + b, sep)| >= 2
    ensures Last(Split(a + [sep] + b, sep)) == b
  {
    if a == [] {
      assert a + [sep] + b == [sep] + b;
      assert ([sep] + b)[1..] == b;
      SplitNoSep(b, sep);
    } else {
      LastSplitAfterSep(a[1..], b, sep);
      assert (a + [sep] + b)[1..] == a[1..] + [sep] + b;
    }
  }

  /** Text that is empty or starts with the separator leaves the first piece alone. */
  lemma {:induction false} FirstSplitAppend(a: string, b: string, sep: char)
    requires b == [] || b[0] == sep
    ensures Split(a + b, sep)[0] == Split(a, sep)[0]
  {
    if a == [] {
      assert a + b == b;
    } else {
      FirstSplitAppend(a[1..], b, sep);
      assert (a + b)[1..] == a[1..] + b;
    }
  }

  /** The text after the last `/`, cut at the first `?`. */
  function SafeSegment(url: string): string {
    Split(Last(Split(url, '/')), '?')[0]
  }

  /**
   * `url` is made of a prefix ending in `/` (or empty), the segment, and a
   * query that starts with `?` (or is empty) and holds no `/`.
   */
  ghost predicate SegmentOf(url: string, prefix: string, segment: string, query: string) {
    && url == prefix + segment + query
    && (prefix == [] || Last(prefix) == '/')
    && '/' !in segment && '?' !in segment
    && (query == [] || query[0] == '?')
    && '/' !in query
  }

  /** Any decomposition of this shape names exactly the derived segment. */
  lemma SegmentOfDetermines(url: string, prefix: string, segment: string, query: string)
    requires SegmentOf(url, prefix, segment, query)
    ensures SafeSegment(url) == segment
  {
    var tail := segment + query;
    assert '/' !in tail;
    if prefix == [] {
      assert url == tail;
      SplitNoSep(url, '/');
    } else {
      var front := prefix[..|prefix| - 1];
      assert url == front + ['/'] + tail;
      LastSplitAfterSep(front, tail, '/');
    }
    assert Last(Split(url, '/')) == tail;
    if query == [] {
      assert tail == segment;
      SplitNoSep(segment, '?');
    } else {
      FirstSplitAppend(segment, query, '?');
      SplitNoSep(segment, '?');
    }
  }

  /** The text before the last piece: empty, or ending in the separator. */
  lemma PrefixBeforeLast(s: string, sep: char) returns (prefix: string)
    ensures s == prefix + Last(Split(s, sep))
    ensures prefix == [] || Last(prefix) == sep
  {
    var parts := Split(s, sep);
    JoinSplit(s, sep);
    if |parts| == 1 {
      prefix := [];
    } else {
      JoinLast(parts, sep);
      prefix := Join(parts[..|parts| - 1], sep) + [sep];
    }
  }

  /** The text after the first piece: empty, or starting with the separator. */
  lemma SuffixAfterFirst(s: string, sep: char) returns (suffix: string)
    ensures s == Split(s, sep)[0] + suffix
    ensures suffix == [] || suffix[0] == sep
    ensures CharsFrom(suffix, s)
  {
    var pieces := Split(s, sep);
    JoinSplit(s, sep);
    suffix := if |pieces| == 1 then [] else [sep] + Join(pieces[1..], sep);
    forall ch | ch in suffix ensures ch in s {
      var i :| 0 <= i < |suffix| && suffix[i] == ch;
      assert s[|pieces[0]| + i] == ch;
    }
  }

  /** Every URL decomposes so: the derived segment really is the one after the last `/`. */
  lemma SegmentOfExists(url: string)
    ensures exists prefix, query :: SegmentOf(url, prefix, SafeSegment(url), query)
  {
    var prefix := PrefixBeforeLast(url, '/');
    var last := Last(Split(url, '/'));
    var query := SuffixAfterFirst(last, '?');
    assert url == prefix + SafeSegment(url) + query;
    assert SegmentOf(url, prefix, SafeSegment(url), query);
  }

  /** A query string without `/` does not change the segment. */
  lemma QueryIndependent(path: string, query: string)
    requires '/' !in query
    ensures SafeSegment(path + "?" + query) == SafeSegment(path)
  {
    var q := "?" + query;
    assert '/' !in q;
    assert path + "?" + query == path + q;
    LastSplitAppend(path, q, '/');
    var last := Last(Split(path, '/'));
    FirstSplitAppend(last, q, '?');
  }

  /** The identifier given at download time: the segment, else `ep_<timestamp>`. */
  function DownloadTimeId(audioUrl: string, nowMillis: nat): (r: string)
    ensures r != ""
    ensures r == SafeSegment(audioUrl) || r == "ep_" + DecimalString(nowMillis)
    ensures SafeSegment(audioUrl) != "" ==> r == SafeSegment(audioUrl)
  {
    if SafeSegment(audioUrl) != "" then SafeSegment(audioUrl) else "ep_" + DecimalString(nowMillis)
  }

  /** The identifier looked up when a row is drawn: the segment, else `''`. */
  function RenderTimeId(audioUrl: Option<string>): (r: string)
    ensures '/' !in r && '?' !in r
    ensures audioUrl.None? ==> r == ""
  {
    if audioUrl.None? then "" else
      var s := SafeSegment(audioUrl.value);
      SegmentOfExists(audioUrl.value);
      s
  }

  /** Notification payloads: an empty URL or an empty segment both give `ep_<now>`. */
  function NotificationId(audioUrl: string, nowMillis: nat): (r: string)
    ensures r != ""
  {
    if audioUrl != "" then OrElse(Some(SafeSegment(audioUrl)), "ep_" + DecimalString(nowMillis))
    else "ep_" + DecimalString(nowMillis)
  }

  /** Two downloads of one resource, at any times and with any queries, share their identifier. */
  lemma StableAcrossQueries(path: string, q1: string, q2: string, t1: nat, t2: nat)
    requires '/' !in q1 && '/' !in q2
    requires SafeSegment(path) != ""
    ensures DownloadTimeId(path + "?" + q1, t1) == DownloadTimeId(path + "?" + q2, t2) == SafeSegment(path)
  {
    QueryIndependent(path, q1);
    QueryIndependent(path, q2);
  }

  /** With a non-empty segment, the row looks up the identifier the download stored. */
  lemma RenderMatchesDownload(audioUrl: string, nowMillis: nat)
    requires SafeSegment(audioUrl) != ""
    ensures RenderTimeId(Some(audioUrl)) == DownloadTimeId(audioUrl, nowMillis)
  {
  }

  /** With an empty segment, the stored `ep_…` identifier is never the one looked up. */
  lemma FallbackNeverMatches(audioUrl: string, nowMillis: nat)
    requires SafeSegment(audioUrl) == ""
    ensures RenderTimeId(Some(audioUrl)) == ""
    ensures DownloadTimeId(audioUrl, nowMillis) != RenderTimeId(Some(audioUrl))
  {
  }

  /** The notification path's extra emptiness test changes nothing: it derives the download-time identifier. */
  lemma NotificationIdAgrees(audioUrl: string, nowMillis: nat)
    ensures NotificationId(audioUrl, nowMillis) == DownloadTimeId(audioUrl, nowMillis)
  {
    if audioUrl == "" {
      assert Split("", '/') == [""];
      assert Split("", '?') == [""];
    }
  }
}
