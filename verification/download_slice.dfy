/**
 * The download slice of the Redux store: in-flight progress keyed by episode
 * identifier, the list of downloaded episodes (newest first), the cache size
 * and the last error.  `Reduce` is the reducer; `DownloadStore` is the draft
 * state the reducers change in place.
 */
module DownloadSlice {
  import opened Wrappers

  /** One progress report; the numbers are stored as reported. */
  datatype DownloadProgress = DownloadProgress(episodeId: string, progress: real, bytesWritten: int, totalBytes: int)

  /** A row of the download ledger. */
  datatype DownloadedEpisode = DownloadedEpisode(
    id: string,
    user_id: string,
    episode_id: string,
    local_path: string,
    file_size: int,
    downloaded_at: string)

  datatype DownloadState = DownloadState(
    activeDownloads: map<string, DownloadProgress>,
    downloadedEpisodes: seq<DownloadedEpisode>,
    totalCacheSize: int,
    error: Option<string>)

  const InitialState := DownloadState(map[], [], 0, None)

  datatype Action =
    | SetDownloadProgress(report: DownloadProgress)
    | RemoveDownloadProgress(episodeId: string)
    | SetDownloadedEpisodes(list: seq<DownloadedEpisode>)
    | AddDownloadedEpisode(episode: DownloadedEpisode)
    | RemoveDownloadedEpisode(episodeId: string)
    | ClearAllDownloads
    | SetTotalCacheSize(size: int)
    | SetDownloadError(message: Option<string>)

  /** `list.filter(ep => ep.episode_id !== episodeId)`. */
  function WithoutEpisode(list: seq<DownloadedEpisode>, episodeId: string): (r: seq<DownloadedEpisode>)
    ensures |r| <= |list|
    ensures forall d :: d in r <==> d in list && d.episode_id != episodeId
  {
    if list == [] then []
    else if list[0].episode_id == episodeId then WithoutEpisode(list[1..], episodeId)
    else [list[0]] + WithoutEpisode(list[1..], episodeId)
  }

  /** The filter decides entry by entry and keeps order: it distributes over concatenation. */
  lemma {:induction false} WithoutEpisodeAppend(a: seq<DownloadedEpisode>, b: seq<DownloadedEpisode>, episodeId: string)
    ensures WithoutEpisode(a + b, episodeId) == WithoutEpisode(a, episodeId) + WithoutEpisode(b, episodeId)
  {
    if a == [] {
      assert a + b == b;
    } else {
      assert (a + b)[0] == a[0];
      assert (a + b)[1..] == a[1..] + b;
      WithoutEpisodeAppend(a[1..], b, episodeId);
    }
  }

  /** A list without a matching entry comes back unchanged. */
  lemma {:induction false} WithoutAbsentEpisode(list: seq<DownloadedEpisode>, episodeId: string)
    requires forall i :: 0 <= i < |list| ==> list[i].episode_id != episodeId
    ensures WithoutEpisode(list, episodeId) == list
  {
    if list != [] {
      WithoutAbsentEpisode(list[1..], episodeId);
    }
  }

  /** Removing twice is removing once. */
  lemma {:induction false} WithoutEpisodeIdempotent(list: seq<DownloadedEpisode>, episodeId: string)
    ensures WithoutEpisode(WithoutEpisode(list, episodeId), episodeId) == WithoutEpisode(list, episodeId)
  {
    var r := WithoutEpisode(list, episodeId);
    forall i | 0 <= i < |r| ensures r[i].episode_id != episodeId {
      assert r[i] in r;
    }
    WithoutAbsentEpisode(r, episodeId);
  }

  /**
   * The reducer.  Each field is written only by its own actions; progress
   * is keyed by episode, and a cleared ledger has no size.
   */
  function Reduce(s: DownloadState, a: Action): (r: DownloadState)
    ensures a.SetDownloadProgress? ==>
      a.report.episodeId in r.activeDownloads && r.activeDownloads[a.report.episodeId] == a.report &&
      forall id :: id != a.report.episodeId ==> (id in r.activeDownloads <==> id in s.activeDownloads)
    ensures a.RemoveDownloadProgress? ==>
      a.episodeId !in r.activeDownloads &&
      forall id :: id != a.episodeId ==> (id in r.activeDownloads <==> id in s.activeDownloads)
    ensures a.AddDownloadedEpisode? ==>
      |r.downloadedEpisodes| == |s.downloadedEpisodes| + 1 &&
      r.downloadedEpisodes[0] == a.episode && r.downloadedEpisodes[1..] == s.downloadedEpisodes
    ensures a.RemoveDownloadedEpisode? ==> forall d :: d in r.downloadedEpisodes <==> d in s.downloadedEpisodes && d.episode_id != a.episodeId
    ensures a.ClearAllDownloads? ==> r.downloadedEpisodes == [] && r.totalCacheSize == 0
    ensures r.activeDownloads != s.activeDownloads ==> a.SetDownloadProgress? || a.RemoveDownloadProgress?
    ensures r.downloadedEpisodes != s.downloadedEpisodes ==>
      a.SetDownloadedEpisodes? || a.AddDownloadedEpisode? || a.RemoveDownloadedEpisode? || a.ClearAllDownloads?
    ensures r.totalCacheSize != s.totalCacheSize ==> a.SetTotalCacheSize? || a.ClearAllDownloads?
    ensures r.error != s.error ==> a.SetDownloadError?
  {
    match a
    case SetDownloadProgress(p) => s.(activeDownloads := s.activeDownloads[p.episodeId := p])
    case RemoveDownloadProgress(id) => s.(activeDownloads := s.activeDownloads - {id})
    case SetDownloadedEpisodes(list) => s.(downloadedEpisodes := list)
    case AddDownloadedEpisode(d) => s.(downloadedEpisodes := [d] + s.downloadedEpisodes)
    case RemoveDownloadedEpisode(id) => s.(downloadedEpisodes := WithoutEpisode(s.downloadedEpisodes, id))
    case ClearAllDownloads => s.(downloadedEpisodes := [], totalCacheSize := 0)
    case SetTotalCacheSize(n) => s.(totalCacheSize := n)
    case SetDownloadError(e) => s.(error := e)
  }

  /** Removing a progress entry undoes setting it, whatever was there before. */
  lemma ProgressSetThenRemoved(s: DownloadState, p: DownloadProgress)
    ensures Reduce(Reduce(s, SetDownloadProgress(p)), RemoveDownloadProgress(p.episodeId)).activeDownloads
         == s.activeDownloads - {p.episodeId}
  {
  }

  /** Removing an episode right after adding it is the same as removing it from the old list. */
  lemma {:induction false} AddThenRemove(s: DownloadState, d: DownloadedEpisode)
    ensures Reduce(Reduce(s, AddDownloadedEpisode(d)), RemoveDownloadedEpisode(d.episode_id))
         == Reduce(s, RemoveDownloadedEpisode(d.episode_id))
  {
    assert [d] + s.downloadedEpisodes == [d] + s.downloadedEpisodes;
    assert ([d] + s.downloadedEpisodes)[1..] == s.downloadedEpisodes;
  }

  /** Adding never deduplicates: an episode already listed is listed twice. */
  lemma AddKeepsDuplicates(s: DownloadState, d: DownloadedEpisode)
    requires d in s.downloadedEpisodes
    ensures multiset(Reduce(s, AddDownloadedEpisode(d)).downloadedEpisodes)[d]
         == multiset(s.downloadedEpisodes)[d] + 1
  {
  }

  class DownloadStore {
    var activeDownloads: map<string, DownloadProgress>
    var downloadedEpisodes: seq<DownloadedEpisode>
    var totalCacheSize: int
    var error: Option<string>

    function State(): DownloadState
      reads this
    {
      DownloadState(activeDownloads, downloadedEpisodes, totalCacheSize, error)
    }

    /** `initialState`. */
    constructor ()
      ensures State() == InitialState
    {
      activeDownloads := map[];
      downloadedEpisodes := [];
      totalCacheSize := 0;
      error := None;
    }

    method SetDownloadProgress(report: DownloadProgress)
      modifies this
      ensures State() == Reduce(old(State()), Action.SetDownloadProgress(report))
      ensures report.episodeId in activeDownloads && activeDownloads[report.episodeId] == report
      ensures forall k :: k != report.episodeId ==>
        (k in activeDownloads <==> k in old(activeDownloads)) &&
        (k in activeDownloads ==> activeDownloads[k] == old(activeDownloads)[k])
    {
      activeDownloads := activeDownloads[report.episodeId := report];
    }

    method RemoveDownloadProgress(episodeId: string)
      modifies this
      ensures State() == Reduce(old(State()), Action.RemoveDownloadProgress(episodeId))
      ensures activeDownloads == old(activeDownloads) - {episodeId}
      ensures episodeId !in old(activeDownloads) ==> State() == old(State())
    {
      activeDownloads := activeDownloads - {episodeId};
    }

    method SetDownloadedEpisodes(list: seq<DownloadedEpisode>)
      modifies this
      ensures State() == Reduce(old(State()), Action.SetDownloadedEpisodes(list))
      ensures State() == old(State()).(downloadedEpisodes := list)
    {
      downloadedEpisodes := list;
    }

    /** `unshift`: the new entry goes first. */
    method AddDownloadedEpisode(episode: DownloadedEpisode)
      modifies this
      ensures State() == Reduce(old(State()), Action.AddDownloadedEpisode(episode))
      ensures |downloadedEpisodes| == |old(downloadedEpisodes)| + 1
      ensures downloadedEpisodes[0] == episode && downloadedEpisodes[1..] == old(downloadedEpisodes)
    {
      downloadedEpisodes := [episode] + downloadedEpisodes;
    }

    method RemoveDownloadedEpisode(episodeId: string)
      modifies this
      ensures State() == Reduce(old(State()), Action.RemoveDownloadedEpisode(episodeId))
      ensures forall d :: d in downloadedEpisodes <==> d in old(downloadedEpisodes) && d.episode_id != episodeId
      ensures activeDownloads == old(activeDownloads) && totalCacheSize == old(totalCacheSize) && error == old(error)
    {
      downloadedEpisodes := WithoutEpisode(downloadedEpisodes, episodeId);
    }

    method ClearAllDownloads()
      modifies this
      ensures State() == Reduce(old(State()), Action.ClearAllDownloads)
      ensures downloadedEpisodes == [] && totalCacheSize == 0
      ensures activeDownloads == old(activeDownloads) && error == old(error)
    {
      downloadedEpisodes := [];
      totalCacheSize := 0;
    }

    method SetTotalCacheSize(size: int)
      modifies this
      ensures State() == Reduce(old(State()), Action.SetTotalCacheSize(size))
      ensures State() == old(State()).(totalCacheSize := size)
    {
      totalCacheSize := size;
    }

    method SetDownloadError(message: Option<string>)
      modifies this
      ensures State() == Reduce(old(State()), Action.SetDownloadError(message))
      ensures State() == old(State()).(error := message)
    {
      error := message;
    }
  }
}
