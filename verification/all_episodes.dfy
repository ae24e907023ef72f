/**
 * The "All Episodes" screen's download bookkeeping: an in-flight set and a
 * progress map keyed by audio URL, and a downloaded set keyed by the safe
 * episode identifier, which a row is looked up by when it is drawn.
 */
module AllEpisodes {
  import opened Wrappers
  import opened Js
  import opened EpisodeIdentity
  import opened Collaborators
  import DownloadSlice

  datatype Episode = Episode(title: string, description: string, pubDate: string, audioUrl: Option<string>, image: string)

  /** What one row shows about downloading. */
  datatype RowView = RowView(downloading: bool, progress: real, isDownloaded: bool, showsDownloadButton: bool)

  function Metadata(e: Episode, audioUrl: string): map<string, Option<string>> {
    map["title" := Some(e.title), "description" := Some(e.description), "image_url" := Some(e.image),
        "pub_date" := Some(e.pubDate), "audio_url" := Some(audioUrl)]
  }

  /** The three awaited calls of a download, all about the safe identifier. */
  function StepChain(userId: string, e: Episode, safeId: string, audioUrl: string): (r: seq<ServiceCall<Episode>>)
    ensures |r| == 3
    ensures KindOf(r[0]) == Upsert && KindOf(r[1]) == Download && KindOf(r[2]) == CacheMetadata
    ensures r[0].id == r[1].episodeId == r[2].episodeId == safeId && r[1].userId == userId
  {
    [UpsertEpisode(e, safeId),
     DownloadAudio(userId, safeId, audioUrl, e.title),
     CacheEpisodeMetadata(safeId, Metadata(e, audioUrl))]
  }

  lemma ChainPrefix(userId: string, e: Episode, safeId: string, audioUrl: string, throws: set<StepKind>)
    ensures var chain := StepChain(userId, e, safeId, audioUrl);
      CallsUntilFailure(chain, throws) ==
        if Upsert in throws then chain[..1]
        else if Download in throws then chain[..2]
        else chain
  {
    var chain := StepChain(userId, e, safeId, audioUrl);
    assert chain[1..][1..][1..] == [];
    assert chain[1..][1..] == [chain[2]];
  }

  /** `renderEpisode`: the row of an episode, looked up by URL and by render-time identifier. */
  function Row(e: Episode, downloading: set<string>, progress: map<string, real>, downloaded: set<string>): (r: RowView)
    ensures r.isDownloaded <==> RenderTimeId(e.audioUrl) in downloaded
    ensures r.downloading <==> e.audioUrl.GetOr("") in downloading
    ensures e.audioUrl.GetOr("") !in progress ==> r.progress == 0.0
    ensures e.audioUrl.GetOr("") in progress ==> r.progress == progress[e.audioUrl.GetOr("")]
    ensures r.showsDownloadButton <==> !r.isDownloaded
  {
    var key := e.audioUrl.GetOr("");
    var isDownloaded := RenderTimeId(e.audioUrl) in downloaded;
    RowView(key in downloading, if key in progress then progress[key] else 0.0, isDownloaded, !isDownloaded)
  }

  /**
   * Once an episode's download is recorded, its row shows it as downloaded
   * exactly when its URL has a non-empty last segment: the `ep_<time>`
   * fallback recorded at download time never equals the empty identifier
   * the row is looked up by.
   */
  lemma RowAfterDownload(e: Episode, nowMillis: nat, downloading: set<string>, progress: map<string, real>, downloaded: set<string>)
    requires Truthy(e.audioUrl)
    requires "" !in downloaded
    ensures var id := DownloadTimeId(e.audioUrl.value, nowMillis);
      Row(e, downloading, progress, downloaded + {id}).isDownloaded <==> SafeSegment(e.audioUrl.value) != ""
  {
    var url := e.audioUrl.value;
    if SafeSegment(url) != "" {
      RenderMatchesDownload(url, nowMillis);
    } else {
      FallbackNeverMatches(url, nowMillis);
    }
  }

  /** The screen's state. */
  class EpisodeList {
    var user: Option<string>
    var downloading: set<string>
    var progress: map<string, real>
    var downloaded: set<string>

    constructor (user: Option<string>)
      ensures this.user == user && downloading == {} && progress == map[] && downloaded == {}
    {
      this.user := user;
      downloading := {};
      progress := map[];
      downloaded := {};
    }

    /** `checkDownloads`: with a user, the downloaded set becomes the ledger's episode identifiers. */
    method CheckDownloads(ledger: seq<DownloadSlice.DownloadedEpisode>)
      modifies this
      ensures user == old(user) && downloading == old(downloading) && progress == old(progress)
      ensures !Truthy(user) ==> downloaded == old(downloaded)
      ensures Truthy(user) ==> forall id :: id in downloaded <==> exists d :: d in ledger && d.episode_id == id
    {
      if Truthy(user) {
        downloaded := set d | d in ledger :: d.episode_id;
      }
    }

    /**
     * `handleDownload`.  `reports` are the transfer's progress reports,
     * `throws` the calls that reject, `nowMillis` the clock.  Answers the
     * calls awaited and the alert titles shown.
     */
    method HandleDownload(e: Episode, nowMillis: nat, reports: seq<TransferProgress>, throws: set<StepKind>)
      returns (calls: seq<ServiceCall<Episode>>, alerts: seq<string>)
      modifies this
      ensures user == old(user)
      ensures !Truthy(e.audioUrl) || !Truthy(user) ==>
        calls == [] && alerts == ["Error"] &&
        downloading == old(downloading) && progress == old(progress) && downloaded == old(downloaded)
      ensures Truthy(e.audioUrl) && Truthy(user) ==>
        var url := e.audioUrl.value;
        var id := DownloadTimeId(url, nowMillis);
        var ok := Upsert !in throws && Download !in throws && CacheMetadata !in throws;
        calls == CallsUntilFailure(StepChain(user.value, e, id, url), throws) &&
        downloading == old(downloading) - {url} &&
        progress == old(progress) - {url} &&
        downloaded == (if ok then old(downloaded) + {id} else old(downloaded)) &&
        alerts == [if ok then "Success" else "Download Failed"]
    {
      if !Truthy(e.audioUrl) || !Truthy(user) {
        return [], ["Error"];
      }
      var url := e.audioUrl.value;
      downloading := downloading + {url};
      var id := DownloadTimeId(url, nowMillis);
      var chain := StepChain(user.value, e, id, url);
      ChainPrefix(user.value, e, id, url, throws);
      calls := [chain[0]];
      if Upsert in throws {
        alerts := ["Download Failed"];
      } else {
        calls := calls + [chain[1]];
        var i := 0;
        while i < |reports|
          invariant 0 <= i <= |reports|
          invariant progress - {url} == old(progress) - {url}
          invariant downloaded == old(downloaded)
          invariant user == old(user) && downloading == old(downloading) + {url}
        {
          progress := progress[url := reports[i].progress];
          i := i + 1;
        }
        if Download in throws {
          alerts := ["Download Failed"];
        } else {
          calls := calls + [chain[2]];
          if CacheMetadata in throws {
            alerts := ["Download Failed"];
          } else {
            alerts := ["Success"];
            downloaded := downloaded + {id};
          }
        }
      }
      downloading := downloading - {url};
      progress := progress - {url};
    }
  }
}
