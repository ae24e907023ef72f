/**
 * The scheduled `check-new-episodes` function: build the newest episode
 * from the feed's first item, and when its audio URL differs from the
 * stored checkpoint, push a notification to everyone, save one record per
 * user, and move the checkpoint.
 *
 * The feed's regular expressions are not modelled: what each one captured
 * is an input.  The push service, the database and the clock are inputs
 * too; the database tables the function writes are the state.
 */
module CheckNewEpisodes {
  import opened Wrappers
  import opened Js

  // ---------------------------------------------------------------------
  // String.prototype.trim

  /** The characters `trim` removes: ECMAScript white space and line terminators. */
  predicate IsJsSpace(c: char) {
    var n := c as int;
    n == 0x9 || n == 0xA || n == 0xB || n == 0xC || n == 0xD || n == 0x20 || n == 0xA0 ||
    n == 0x1680 || (0x2000 <= n <= 0x200A) || n == 0x2028 || n == 0x2029 || n == 0x202F ||
    n == 0x205F || n == 0x3000 || n == 0xFEFF
  }

  predicate AllSpace(s: string) {
    forall i :: 0 <= i < |s| ==> IsJsSpace(s[i])
  }

  /** Neither end is white space. */
  predicate Trimmed(s: string) {
    s == [] || (!IsJsSpace(s[0]) && !IsJsSpace(s[|s| - 1]))
  }

  function TrimStart(s: string): (r: string)
    ensures |r| <= |s| && r == s[|s| - |r|..]
    ensures AllSpace(s[..|s| - |r|])
    ensures r == [] || !IsJsSpace(r[0])
  {
    if s != [] && IsJsSpace(s[0]) then TrimStart(s[1..]) else s
  }

  function TrimEnd(s: string): (r: string)
    ensures |r| <= |s| && r == s[..|r|]
    ensures AllSpace(s[|r|..])
    ensures r == [] || !IsJsSpace(r[|r| - 1])
  {
    if s != [] && IsJsSpace(s[|s| - 1]) then TrimEnd(s[..|s| - 1]) else s
  }

  /** `s.trim()`: the white space at both ends removed. */
  function Trim(s: string): (r: string)
    ensures Trimmed(r) && |r| <= |s|
  {
    var t := TrimStart(s);
    var r := TrimEnd(t);
    assert r != [] ==> r[0] == t[0];
    r
  }

  /** What `trim` removed is white space, at the two ends. */
  lemma TrimParts(s: string) returns (lead: string, trail: string)
    ensures AllSpace(lead) && AllSpace(trail)
    ensures s == lead + Trim(s) + trail
  {
    var t := TrimStart(s);
    lead := LeadingSpace(s);
    trail := TrailingSpace(t);
    Concat3(s, lead, t, TrimEnd(t), trail);
  }

  lemma LeadingSpace(s: string) returns (lead: string)
    ensures AllSpace(lead) && s == lead + TrimStart(s)
  {
    var t := TrimStart(s);
    lead := s[..|s| - |t|];
  }

  lemma TrailingSpace(t: string) returns (trail: string)
    ensures AllSpace(trail) && t == TrimEnd(t) + trail
  {
    var r := TrimEnd(t);
    trail := t[|r|..];
  }

  lemma Concat3(s: string, lead: string, t: string, r: string, trail: string)
    requires s == lead + t && t == r + trail
    ensures s == lead + r + trail
  {
  }

  lemma {:induction false} TrimStartOfSpaces(lead: string, m: string)
    requires AllSpace(lead) && (m == [] || !IsJsSpace(m[0]))
    ensures TrimStart(lead + m) == m
    decreases |lead|
  {
    if lead != [] {
      assert (lead + m)[0] == lead[0];
      assert (lead + m)[1..] == lead[1..] + m;
      TrimStartOfSpaces(lead[1..], m);
    } else {
      assert lead + m == m;
    }
  }

  lemma {:induction false} TrimEndOfSpaces(m: string, trail: string)
    requires AllSpace(trail) && (m == [] || !IsJsSpace(m[|m| - 1]))
    ensures TrimEnd(m + trail) == m
    decreases |trail|
  {
    if trail != [] {
      var s := m + trail;
      assert s[|s| - 1] == trail[|trail| - 1];
      assert s[..|s| - 1] == m + trail[..|trail| - 1];
      TrimEndOfSpaces(m, trail[..|trail| - 1]);
    } else {
      assert m + trail == m;
    }
  }

  /**
   * `trim` is characterised by what it keeps: whatever white space
   * surrounds a text with no white space at its ends, the text is what is
   * left.
   */
  lemma TrimKeepsCore(lead: string, m: string, trail: string)
    requires AllSpace(lead) && AllSpace(trail) && Trimmed(m)
    ensures Trim(lead + m + trail) == m
  {
    assert lead + m + trail == lead + (m + trail);
    if m == [] {
      TrimStartOfSpaces(lead + trail, []);
      assert lead + m + trail == (lead + trail) + [];
    } else {
      assert (m + trail)[0] == m[0];
      TrimStartOfSpaces(lead, m + trail);
      TrimEndOfSpaces(m, trail);
    }
  }

  /** Trimming twice is trimming once. */
  lemma TrimIdempotent(s: string)
    ensures Trim(Trim(s)) == Trim(s)
  {
    var r := Trim(s);
    assert TrimStart(r) == r;
    assert TrimEnd(r) == r;
  }

  // ---------------------------------------------------------------------
  // .replace(/<[^>]*>/g, '')

  function FirstIndexOf(s: string, c: char): (k: nat)
    requires c in s
    ensures k < |s| && s[k] == c && c !in s[..k]
  {
    if s[0] == c then 0 else
      var k := FirstIndexOf(s[1..], c);
      assert s[..k + 1] == [s[0]] + s[1..][..k];
      k + 1
  }

  /** No `<` is followed, anywhere later, by a `>`: nothing the pattern could match. */
  predicate NoTag(s: string) {
    forall i :: 0 <= i < |s| && s[i] == '<' ==> '>' !in s[i + 1..]
  }

  /**
   * Every `<…>` span removed, scanning left to right: a `<` starts a span
   * only when some `>` follows it, and the span ends at the first one.
   */
  function StripTags(s: string): (r: string)
    ensures |r| <= |s|
    ensures forall c :: c in r ==> c in s
    ensures NoTag(r)
    decreases |s|
  {
    if s == [] then []
    else if s[0] == '<' && '>' in s[1..] then
      var k := FirstIndexOf(s[1..], '>');
      var r := StripTags(s[k + 2..]);
      assert forall c :: c in s[k + 2..] ==> c in s;
      r
    else
      var rest := StripTags(s[1..]);
      assert forall c :: c in s[1..] ==> c in s;
      ConsNoTag(s[0], rest);
      [s[0]] + rest
  }

  lemma ConsNoTag(c: char, rest: string)
    requires NoTag(rest) && (c == '<' ==> '>' !in rest)
    ensures NoTag([c] + rest)
  {
    var r := [c] + rest;
    forall i, j | 0 <= i < j < |r| && r[i] == '<'
      ensures r[j] != '>'
    {
      if i == 0 {
        assert r[j] == rest[j - 1];
      } else {
        assert rest[j - 1] in rest[i - 1 + 1..];
      }
    }
    forall i | 0 <= i < |r| && r[i] == '<'
      ensures '>' !in r[i + 1..]
    {
    }
  }

  /** The first `c` after a prefix without one is found past that prefix. */
  lemma {:induction false} FirstIndexPastPrefix(a: string, b: string, c: char)
    requires c !in a && c in b
    ensures c in a + b && FirstIndexOf(a + b, c) == |a| + FirstIndexOf(b, c)
    decreases |a|
  {
    if a == [] {
      assert a + b == b;
    } else {
      assert (a + b)[0] == a[0];
      assert (a + b)[1..] == a[1..] + b;
      FirstIndexPastPrefix(a[1..], b, c);
    }
  }

  /** A span at the very start is removed whole, up to its first `>`. */
  lemma SpanAtStart(m: string, y: string)
    requires '>' !in m
    ensures StripTags("<" + m + ">" + y) == StripTags(y)
  {
    var s := "<" + m + ">" + y;
    var t := m + (">" + y);
    assert s == "<" + t && s[1..] == t;
    assert (">" + y)[0] == '>';
    FirstIndexPastPrefix(m, ">" + y, '>');
    assert s[|m| + 2..] == y;
  }

  /**
   * The text outside a span is kept, in order: text with no `<`, then one
   * `<…>` span, then anything, strips to that text followed by what the
   * rest strips to.
   */
  lemma {:induction false} KeepsTextOutsideTags(x: string, m: string, y: string)
    requires '<' !in x && '>' !in m
    ensures StripTags(x + "<" + m + ">" + y) == x + StripTags(y)
    decreases |x|
  {
    var tail := "<" + m + ">" + y;
    assert x + "<" + m + ">" + y == x + tail;
    if x == [] {
      assert x + tail == tail;
      SpanAtStart(m, y);
    } else {
      var s := x + tail;
      assert s[0] == x[0] && s[1..] == x[1..] + tail;
      assert x[1..] + tail == x[1..] + "<" + m + ">" + y;
      KeepsTextOutsideTags(x[1..], m, y);
      assert x == [x[0]] + x[1..];
    }
  }

  /** Text with nothing to strip is left as it is. */
  lemma {:induction false} NoTagUnchanged(s: string)
    requires NoTag(s)
    ensures StripTags(s) == s
    decreases |s|
  {
    if s != [] {
      assert NoTag(s[1..]) by {
        forall i | 0 <= i < |s[1..]| && s[1..][i] == '<'
          ensures '>' !in s[1..][i + 1..]
        {
          assert s[1..][i + 1..] == s[i + 2..];
        }
      }
      NoTagUnchanged(s[1..]);
      assert [s[0]] + s[1..] == s;
    }
  }

  /** Stripping twice is stripping once. */
  lemma StripTagsIdempotent(s: string)
    ensures StripTags(StripTags(s)) == StripTags(s)
  {
    NoTagUnchanged(StripTags(s));
  }

  // ---------------------------------------------------------------------
  // The newest episode

  datatype Episode = Episode(title: string, pubDate: string, audioUrl: string, description: string, image: string, duration: string)

  /**
   * What each expression matched in the first item, as its captured text;
   * `None` when it did not match.
   */
  datatype Captures = Captures(
    title: Option<string>,
    pubDate: Option<string>,
    audio: Option<string>,
    description: Option<string>,
    itunesImage: Option<string>,
    thumbnail: Option<string>,
    duration: Option<string>)

  const PlaceholderImage: string := "https://via.placeholder.com/150"

  /** `itunes:image` if it matched at all, even with an empty `href`; else `media:thumbnail`. */
  function ImageCapture(c: Captures): (r: Option<string>)
    ensures c.itunesImage.Some? ==> r == c.itunesImage
    ensures c.itunesImage.None? ==> r == c.thumbnail
  {
    if c.itunesImage.Some? then c.itunesImage else c.thumbnail
  }

  /** The episode built from the captures at time `nowIso`; `None` without a title or audio URL. */
  function BuildEpisode(c: Captures, nowIso: string): (r: Option<Episode>)
    ensures r.None? <==> c.title.None? || c.audio.None?
    ensures r.Some? ==>
      var e := r.value;
      e.title == Trim(c.title.value) && e.audioUrl == Trim(c.audio.value) &&
      e.pubDate == (if c.pubDate.Some? then Trim(c.pubDate.value) else nowIso) &&
      e.description == (if c.description.Some? then Trim(StripTags(c.description.value)) else "") &&
      e.image == (if ImageCapture(c).Some? then Trim(ImageCapture(c).value) else PlaceholderImage) &&
      e.duration == (if c.duration.Some? then Trim(c.duration.value) else "0:00")
  {
    if c.title.None? || c.audio.None? then None
    else
      var image := ImageCapture(c);
      Some(Episode(
        Trim(c.title.value),
        if c.pubDate.Some? then Trim(c.pubDate.value) else nowIso,
        Trim(c.audio.value),
        if c.description.Some? then Trim(StripTags(c.description.value)) else "",
        if image.Some? then Trim(image.value) else PlaceholderImage,
        if c.duration.Some? then Trim(c.duration.value) else "0:00"))
  }

  /** A middle part of text with no tag has no tag either. */
  lemma NoTagInfix(lead: string, m: string, trail: string)
    requires NoTag(lead + m + trail)
    ensures NoTag(m)
  {
    var s := lead + m + trail;
    forall i | 0 <= i < |m| && m[i] == '<'
      ensures '>' !in m[i + 1..]
    {
      assert s[|lead| + i] == m[i];
      forall j | i + 1 <= j < |m|
        ensures m[j] != '>'
      {
        assert m[j] == s[|lead| + j];
        assert s[|lead| + j] in s[|lead| + i + 1..];
      }
    }
  }

  /**
   * What a built episode guarantees: its captured text fields have no white
   * space at either end, and its description has no markup left.
   */
  lemma BuiltEpisodeIsClean(c: Captures, nowIso: string)
    requires BuildEpisode(c, nowIso).Some?
    ensures var e := BuildEpisode(c, nowIso).value;
      Trimmed(e.title) && Trimmed(e.audioUrl) && NoTag(e.description) && Trimmed(e.description) &&
      (c.duration.Some? ==> Trimmed(e.duration))
  {
    if c.description.Some? {
      var stripped := StripTags(c.description.value);
      var lead, trail := TrimParts(stripped);
      NoTagInfix(lead, Trim(stripped), trail);
    }
  }

  // ---------------------------------------------------------------------
  // The push and the per-user records

  /** The `data` a push and a stored notification both carry. */
  datatype PushData = PushData(
    kind: string,
    episode_title: string,
    episode_url: string,
    audioUrl: string,
    description: string,
    image: string,
    duration: string,
    pub_date: string)

  /** The notification sent to every device. */
  datatype Push = Push(heading: string, contents: string, data: PushData)

  /** A row of `user_notifications`. */
  datatype NotificationRecord = NotificationRecord(
    user_id: string,
    title: string,
    body: string,
    data: PushData,
    read: bool,
    created_at: string)

  const Heading: string := "\U{1F399}\U{FE0F} New Episode Available!"

  function DataFor(e: Episode): (r: PushData)
    ensures r.kind == "new_episode" && r.episode_title == e.title
    ensures r.episode_url == e.audioUrl && r.audioUrl == e.audioUrl
    ensures r.duration == (if e.duration != "" then e.duration else "0:00")
    ensures r.description == e.description && r.image == e.image && r.pub_date == e.pubDate
  {
    PushData("new_episode", e.title, e.audioUrl, e.audioUrl, e.description, e.image,
             OrElse(Some(e.duration), "0:00"), e.pubDate)
  }

  function PushFor(e: Episode): (r: Push)
    ensures r.heading == Heading && r.contents == e.title && r.data == DataFor(e)
  {
    Push(Heading, e.title, DataFor(e))
  }

  /** One unread record per user, in the order the users were listed. */
  function NotificationRecords(users: seq<string>, e: Episode, nowIso: string): (r: seq<NotificationRecord>)
    ensures |r| == |users|
    ensures forall i :: 0 <= i < |r| ==>
      r[i] == NotificationRecord(users[i], Heading, e.title, DataFor(e), false, nowIso)
  {
    seq(|users|, i requires 0 <= i < |users| =>
      NotificationRecord(users[i], Heading, e.title, DataFor(e), false, nowIso))
  }

  /**
   * Every user gets exactly one record, unread, that says what the push
   * said: the same heading, the episode title as its body and the same data.
   */
  lemma RecordsMatchPush(users: seq<string>, e: Episode, nowIso: string, u: string)
    requires u in users
    ensures var r := NotificationRecords(users, e, nowIso);
      var p := PushFor(e);
      (exists i :: 0 <= i < |r| && r[i].user_id == u) &&
      (forall n :: n in r && n.user_id == u ==>
         !n.read && n.title == p.heading && n.body == p.contents && n.data == p.data)
  {
    var r := NotificationRecords(users, e, nowIso);
    var i :| 0 <= i < |users| && users[i] == u;
    assert r[i].user_id == u;
  }

  /** What the `profiles` query gave: an error, no data, or the user identifiers. */
  datatype UsersQuery = QueryError | NoData | Users(ids: seq<string>)

  datatype SaveResult = SaveResult(success: bool, count: nat)

  /**
   * `saveNotificationForAllUsers`: the result, and the rows inserted (none
   * when the insert fails).
   */
  function SaveForAllUsers(users: UsersQuery, insertFails: bool, e: Episode, nowIso: string): (r: (SaveResult, seq<NotificationRecord>))
    ensures users.QueryError? ==> r == (SaveResult(false, 0), [])
    ensures users.NoData? || (users.Users? && users.ids == []) ==> r == (SaveResult(true, 0), [])
    ensures users.Users? && users.ids != [] && insertFails ==> r == (SaveResult(false, 0), [])
    ensures users.Users? && users.ids != [] && !insertFails ==>
      r == (SaveResult(true, |users.ids|), NotificationRecords(users.ids, e, nowIso))
    ensures r.0.success ==> r.0.count == |r.1|
  {
    match users
    case QueryError => (SaveResult(false, 0), [])
    case NoData => (SaveResult(true, 0), [])
    case Users(ids) =>
      if |ids| == 0 then (SaveResult(true, 0), [])
      else if insertFails then (SaveResult(false, 0), [])
      else (SaveResult(true, |ids|), NotificationRecords(ids, e, nowIso))
  }

  // ---------------------------------------------------------------------
  // The checkpoint

  /**
   * The comparison as written: the stored value goes through `|| null`, so
   * a stored empty string reads as no checkpoint at all.
   */
  predicate IsNewEpisodeAsWritten(stored: Option<string>, audioUrl: string)
    ensures IsNewEpisodeAsWritten(stored, audioUrl) <==> stored == Some("") || stored != Some(audioUrl)
  {
    Or(stored, None) != Some(audioUrl)
  }

  /** An episode is new unless the checkpoint holds its audio URL. */
  predicate IsNewEpisode(stored: Option<string>, audioUrl: string) {
    stored != Some(audioUrl)
  }

  /** The two agree on every stored value but the empty string. */
  lemma AsWrittenAgreesExceptEmpty(stored: Option<string>, audioUrl: string)
    requires stored != Some("")
    ensures IsNewEpisodeAsWritten(stored, audioUrl) <==> IsNewEpisode(stored, audioUrl)
  {
  }

  /**
   * As written, an episode whose audio URL is empty is new on every run,
   * even right after its own URL was stored as the checkpoint.
   */
  lemma EmptyUrlNeverSettlesAsWritten()
    ensures IsNewEpisodeAsWritten(Some(""), "")
  {
  }

  /** Corrected: once the checkpoint holds a URL, that episode is not new again. */
  lemma CheckpointSettles(audioUrl: string)
    ensures !IsNewEpisode(Some(audioUrl), audioUrl)
    ensures forall other :: other != audioUrl ==> IsNewEpisode(Some(audioUrl), other)
  {
  }

  /** The tables the function writes, and the pushes it sent. */
  datatype Backend = Backend(lastEpisodeUrl: Option<string>, notifications: seq<NotificationRecord>, pushes: seq<Push>)

  /** What one run is told by the world outside. */
  datatype World = World(
    feed: Option<Captures>,      // `None` when the feed could not be fetched
    nowIso: string,              // the clock while the feed is parsed
    savedIso: string,            // the clock when the records are built
    readFails: bool,             // the checkpoint read errs
    pushSucceeds: bool,
    users: UsersQuery,
    insertFails: bool,
    checkpointWriteFails: bool)

  datatype Response = Response(status: int, message: string, usersNotified: nat)

  /** The latest episode, if the feed gave one. */
  function Latest(w: World): (r: Option<Episode>)
    ensures r.None? <==> w.feed.None? || w.feed.value.title.None? || w.feed.value.audio.None?
    ensures r.Some? ==>
      r.value.title == Trim(w.feed.value.title.value) && r.value.audioUrl == Trim(w.feed.value.audio.value)
  {
    if w.feed.None? then None else BuildEpisode(w.feed.value, w.nowIso)
  }

  /** What a run sees as the checkpoint. */
  function StoredCheckpoint(b: Backend, w: World): Option<string> {
    if w.readFails then None else b.lastEpisodeUrl
  }

  /** One run: the response and the tables afterwards. */
  function Serve(b: Backend, w: World): (r: (Response, Backend))
    ensures Latest(w).None? ==> r == (Response(500, "Failed to fetch RSS feed", 0), b)
    ensures r.0.status == 200 || r.0.status == 500
    ensures r.1.lastEpisodeUrl == b.lastEpisodeUrl || r.1.lastEpisodeUrl == Some(Latest(w).value.audioUrl)
  {
    Handle(b, w, Latest(w))
  }

  /** The run once the feed has been read: `latest` is the episode it gave, if any. */
  function Handle(b: Backend, w: World, latest: Option<Episode>): (r: (Response, Backend))
    ensures latest.None? ==> r == (Response(500, "Failed to fetch RSS feed", 0), b)
    ensures r.0.status == 200 || r.0.status == 500
    ensures r.0.status == 500 <==>
      latest.None? || (IsNewEpisode(StoredCheckpoint(b, w), latest.value.audioUrl) && !w.pushSucceeds)
    ensures latest.Some? && !IsNewEpisode(StoredCheckpoint(b, w), latest.value.audioUrl) ==>
      r == (Response(200, "No new episodes", 0), b)
    ensures r.0.status == 500 ==> r.1.lastEpisodeUrl == b.lastEpisodeUrl && r.1.notifications == b.notifications
    ensures r.1.lastEpisodeUrl == b.lastEpisodeUrl || r.1.lastEpisodeUrl == Some(latest.value.audioUrl)
  {
    HandleBy(false, b, w, latest)
  }

  /** The same run with the checkpoint comparison as written. */
  function HandleAsWritten(b: Backend, w: World, latest: Option<Episode>): (r: (Response, Backend))
    ensures latest.None? ==> r == (Response(500, "Failed to fetch RSS feed", 0), b)
    ensures latest.Some? && StoredCheckpoint(b, w) == Some("") ==>
      r.1.pushes == b.pushes + [PushFor(latest.value)]
    ensures latest.Some? && StoredCheckpoint(b, w) == Some(latest.value.audioUrl) && latest.value.audioUrl != "" ==>
      r == (Response(200, "No new episodes", 0), b)
  {
    HandleBy(true, b, w, latest)
  }

  /** The new-episode test the run uses: as written, or corrected. */
  predicate IsNewBy(asWritten: bool, stored: Option<string>, audioUrl: string) {
    if asWritten then IsNewEpisodeAsWritten(stored, audioUrl) else IsNewEpisode(stored, audioUrl)
  }

  function HandleBy(asWritten: bool, b: Backend, w: World, latest: Option<Episode>): (Response, Backend) {
    match latest
    case None => (Response(500, "Failed to fetch RSS feed", 0), b)
    case Some(e) =>
      if !IsNewBy(asWritten, StoredCheckpoint(b, w), e.audioUrl) then
        (Response(200, "No new episodes", 0), b)
      else
        var pushed := b.pushes + [PushFor(e)];
        if !w.pushSucceeds then
          (Response(500, "Failed to send notification", 0), b.(pushes := pushed))
        else
          var (saved, rows) := SaveForAllUsers(w.users, w.insertFails, e, w.savedIso);
          var checkpoint := if w.checkpointWriteFails then b.lastEpisodeUrl else Some(e.audioUrl);
          (Response(200, "New episode detected and notification sent", saved.count),
           Backend(checkpoint, b.notifications + rows, pushed))
  }

  /**
   * The checkpoint moves only after a push that went out, and then to the
   * latest audio URL, whether or not the records were saved.
   */
  lemma CheckpointOnlyAfterPush(b: Backend, w: World, latest: Option<Episode>)
    ensures var (resp, b') := Handle(b, w, latest);
      b'.lastEpisodeUrl != b.lastEpisodeUrl ==>
        w.pushSucceeds && !w.checkpointWriteFails && latest.Some? &&
        b'.lastEpisodeUrl == Some(latest.value.audioUrl) &&
        |b'.pushes| == |b.pushes| + 1 && b'.pushes[|b.pushes|] == PushFor(latest.value)
    ensures var (resp, b') := Handle(b, w, latest);
      latest.Some? && w.pushSucceeds && !w.checkpointWriteFails &&
      IsNewEpisode(StoredCheckpoint(b, w), latest.value.audioUrl) ==>
        b'.lastEpisodeUrl == Some(latest.value.audioUrl)
  {
  }

  /** A push is attempted exactly when the feed gave an episode the checkpoint does not hold. */
  lemma PushIffNew(b: Backend, w: World, latest: Option<Episode>)
    ensures var (resp, b') := Handle(b, w, latest);
      (|b'.pushes| == |b.pushes| + 1) <==>
        latest.Some? && IsNewEpisode(StoredCheckpoint(b, w), latest.value.audioUrl)
    ensures var (resp, b') := Handle(b, w, latest);
      b'.pushes == b.pushes || b'.pushes == b.pushes + [PushFor(latest.value)]
  {
  }

  /**
   * A run that pushed and moved the checkpoint is not repeated: the next
   * run, reading the checkpoint and finding the same newest episode, sends
   * nothing and writes nothing.
   */
  lemma NotifiedOnce(b: Backend, w1: World, w2: World, latest: Option<Episode>)
    requires latest.Some? && w1.pushSucceeds && !w1.checkpointWriteFails
    requires IsNewEpisode(StoredCheckpoint(b, w1), latest.value.audioUrl)
    requires !w2.readFails
    ensures var b1 := Handle(b, w1, latest).1;
      Handle(b1, w2, latest) == (Response(200, "No new episodes", 0), b1)
  {
  }

  /**
   * The run as written and the corrected run differ only when the stored
   * checkpoint is the empty string.
   */
  lemma HandleAsWrittenAgrees(b: Backend, w: World, latest: Option<Episode>)
    requires StoredCheckpoint(b, w) != Some("")
    ensures HandleAsWritten(b, w, latest) == Handle(b, w, latest)
  {
    if latest.Some? {
      AsWrittenAgreesExceptEmpty(StoredCheckpoint(b, w), latest.value.audioUrl);
    }
  }

  /**
   * As written, an episode with an empty audio URL is never settled: after
   * a run that pushed it and stored `""` as the checkpoint, the next run
   * that finds the same episode pushes it again.
   */
  lemma EmptyUrlRepushedAsWritten(b: Backend, w1: World, w2: World, e: Episode)
    requires e.audioUrl == "" && w1.pushSucceeds && !w1.checkpointWriteFails && !w1.readFails
    requires IsNewEpisodeAsWritten(b.lastEpisodeUrl, "")
    requires !w2.readFails
    ensures var b1 := HandleAsWritten(b, w1, Some(e)).1;
      b1.lastEpisodeUrl == Some("") &&
      HandleAsWritten(b1, w2, Some(e)).1.pushes == b1.pushes + [PushFor(e)]
  {
    var b1 := HandleAsWritten(b, w1, Some(e)).1;
    assert b1.lastEpisodeUrl == Some("");
    EmptyUrlNeverSettlesAsWritten();
  }

  /** Each user is recorded once per pushed episode, and only when the push went out. */
  lemma RecordsOnlyWithPush(b: Backend, w: World, latest: Option<Episode>)
    ensures var (resp, b') := Handle(b, w, latest);
      |b'.notifications| > |b.notifications| ==>
        w.pushSucceeds && w.users.Users? && !w.insertFails && latest.Some? &&
        b'.notifications == b.notifications + NotificationRecords(w.users.ids, latest.value, w.savedIso) &&
        resp.usersNotified == |w.users.ids|
  {
  }

  /** The scheduled run against the live tables. */
  class EdgeFunction {
    var lastEpisodeUrl: Option<string>
    var notifications: seq<NotificationRecord>
    var pushes: seq<Push>

    function State(): Backend
      reads this
    {
      Backend(lastEpisodeUrl, notifications, pushes)
    }

    constructor (lastEpisodeUrl: Option<string>)
      ensures State() == Backend(lastEpisodeUrl, [], [])
    {
      this.lastEpisodeUrl := lastEpisodeUrl;
      notifications := [];
      pushes := [];
    }

    /** `serve`'s handler: read the feed, then handle what it gave. */
    method Run(w: World) returns (response: Response)
      modifies this
      ensures (response, State()) == Serve(old(State()), w)
    {
      var latest := Latest(w);
      response := Respond(w, latest);
    }

    /** Everything `serve` does once the feed has been read, step by step. */
    method Respond(w: World, latest: Option<Episode>) returns (response: Response)
      modifies this
      ensures (response, State()) == Handle(old(State()), w, latest)
    {
      if latest.None? {
        return Response(500, "Failed to fetch RSS feed", 0);
      }
      var e := latest.value;
      var stored := if w.readFails then None else lastEpisodeUrl;
      if !IsNewEpisode(stored, e.audioUrl) {
        return Response(200, "No new episodes", 0);
      }
      pushes := pushes + [PushFor(e)];
      if !w.pushSucceeds {
        return Response(500, "Failed to send notification", 0);
      }
      var (saved, rows) := SaveForAllUsers(w.users, w.insertFails, e, w.savedIso);
      notifications := notifications + rows;
      if !w.checkpointWriteFails {
        lastEpisodeUrl := Some(e.audioUrl);
      }
      response := Response(200, "New episode detected and notification sent", saved.count);
    }
  }
}
