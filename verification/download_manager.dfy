/**
 * `DownloadManager.downloadEpisode`: validate the input, then await a fixed
 * chain of service calls (catalog upsert, file transfer, metadata cache,
 * library entry), tell the caller, and answer with the episode identifier,
 * or `false` at the first failure.  The run is recorded as a trace of
 * service calls, progress callbacks, the completion callback and alerts.
 */
module DownloadManager {
  import opened Wrappers
  import opened Js
  import opened Collaborators

  datatype Episode = Episode(
    id: Option<string>,
    title: string,
    description: Option<string>,
    image: Option<string>,
    pubDate: Option<string>,
    audioUrl: Option<string>,
    audio_url: Option<string>)

  /** Which of the optional callbacks the caller passed. */
  datatype Callbacks = Callbacks(onProgress: bool, onComplete: bool)

  /**
   * What a run did: the service calls in the order they were awaited, the
   * values handed to `onProgress`, the identifier handed to `onComplete`,
   * and the titles of the alerts shown.
   */
  datatype Run = Run(calls: seq<ServiceCall<Episode>>, forwarded: seq<real>, completed: Option<string>, alerts: seq<string>)

  /** `false`, or the episode identifier. */
  datatype Outcome = Failed | Downloaded(episodeId: string)

  /** `episode.audioUrl || episode.audio_url`. */
  function AudioUrlOf(e: Episode): (r: Option<string>)
    ensures Truthy(r) <==> Truthy(e.audioUrl) || Truthy(e.audio_url)
    ensures Truthy(e.audioUrl) ==> r == e.audioUrl
  {
    Or(e.audioUrl, e.audio_url)
  }

  function Metadata(e: Episode, audioUrl: string): map<string, Option<string>> {
    map["title" := Some(e.title), "description" := e.description, "image" := e.image,
        "pubDate" := e.pubDate, "audioUrl" := Some(audioUrl)]
  }

  /** The four awaited calls, all about one episode identifier. */
  function StepChain(userId: string, e: Episode, episodeId: string, audioUrl: string): (r: seq<ServiceCall<Episode>>)
    ensures |r| == 4
    ensures KindOf(r[0]) == Upsert && KindOf(r[1]) == Download
    ensures KindOf(r[2]) == CacheMetadata && KindOf(r[3]) == Library
    ensures r[0].id == r[1].episodeId == r[2].episodeId == r[3].id == episodeId
    ensures r[1].userId == r[3].userId == userId && r[3].status == "downloaded"
  {
    [UpsertEpisode(e, episodeId),
     DownloadAudio(userId, episodeId, audioUrl, e.title),
     CacheEpisodeMetadata(episodeId, Metadata(e, audioUrl)),
     AddToLibrary(userId, e, episodeId, "downloaded")]
  }

  /** Every kind of call is in the chain, so it completes exactly when nothing rejects. */
  lemma NoKindRejects(throws: set<StepKind>)
    requires Upsert !in throws && Download !in throws && CacheMetadata !in throws && Library !in throws
    ensures throws == {}
  {
    forall k ensures k !in throws {
      match k {
        case Upsert =>
        case Download =>
        case CacheMetadata =>
        case Library =>
      }
    }
  }

  /** The calls a run makes: the chain up to the first kind that rejects. */
  lemma ChainPrefix(userId: string, e: Episode, episodeId: string, audioUrl: string, throws: set<StepKind>)
    ensures var chain := StepChain(userId, e, episodeId, audioUrl);
      CallsUntilFailure(chain, throws) ==
        if Upsert in throws then chain[..1]
        else if Download in throws then chain[..2]
        else if CacheMetadata in throws then chain[..3]
        else chain
  {
    var chain := StepChain(userId, e, episodeId, audioUrl);
    assert chain[1..][1..][1..][1..] == [];
    assert chain[1..][1..][1..] == [chain[3]];
    assert chain[1..][1..] == [chain[2], chain[3]];
  }

  /** The progress callback: `progress.progress`, unchanged, for each report. */
  function Percentages(reports: seq<TransferProgress>): (r: seq<real>)
    ensures |r| == |reports|
    ensures forall i :: 0 <= i < |r| ==> r[i] == reports[i].progress
  {
    seq(|reports|, i requires 0 <= i < |reports| => reports[i].progress)
  }

  predicate Valid(userId: string, e: Episode) {
    Truthy(AudioUrlOf(e)) && userId != ""
  }

  method DownloadEpisode(
    userId: string,
    episode: Episode,
    callbacks: Callbacks,
    episodeIdFromUrl: string -> string,
    reports: seq<TransferProgress>,
    throws: set<StepKind>)
    returns (result: Outcome, run: Run)
    // a missing audio URL or a missing user: one alert and no call
    ensures !Truthy(AudioUrlOf(episode)) ==> result == Failed && run == Run([], [], None, ["Error"])
    ensures userId == "" ==> result == Failed && run == Run([], [], None, ["Error"])
    // otherwise the chain runs in order up to the first rejection, about the derived identifier
    ensures Valid(userId, episode) ==>
      var url := AudioUrlOf(episode).value;
      run.calls == CallsUntilFailure(StepChain(userId, episode, episodeIdFromUrl(url), url), throws)
    // progress is forwarded unchanged, once the transfer has started
    ensures run.forwarded == (if Valid(userId, episode) && callbacks.onProgress && Upsert !in throws then Percentages(reports) else [])
    // success exactly when nothing rejects: it answers with the identifier and tells `onComplete`
    ensures result.Downloaded? <==> Valid(userId, episode) && throws == {}
    ensures result.Downloaded? ==> result.episodeId == episodeIdFromUrl(AudioUrlOf(episode).value)
    ensures result.Downloaded? ==> run.alerts == [] && run.completed == (if callbacks.onComplete then Some(result.episodeId) else None)
    ensures result.Failed? ==> run.completed == None && |run.alerts| == 1
  {
    var audio := AudioUrlOf(episode);
    if !Truthy(audio) {
      return Failed, Run([], [], None, ["Error"]);
    }
    if userId == "" {
      return Failed, Run([], [], None, ["Error"]);
    }
    var url := audio.value;
    var episodeId := episodeIdFromUrl(url);
    var chain := StepChain(userId, episode, episodeId, url);
    ChainPrefix(userId, episode, episodeId, url, throws);
    var calls: seq<ServiceCall<Episode>> := [];
    var forwarded: seq<real> := [];
    var completed: Option<string> := None;
    var alerts: seq<string> := [];
    result := Failed;

    calls := calls + [chain[0]];
    if Upsert in throws {
      alerts := ["Download Failed"];
    } else {
      calls := calls + [chain[1]];
      if callbacks.onProgress {
        forwarded := Percentages(reports);
      }
      if Download in throws {
        alerts := ["Download Failed"];
      } else {
        calls := calls + [chain[2]];
        if CacheMetadata in throws {
          alerts := ["Download Failed"];
        } else {
          calls := calls + [chain[3]];
          if Library in throws {
            alerts := ["Download Failed"];
          } else {
            NoKindRejects(throws);
            if callbacks.onComplete {
              completed := Some(episodeId);
            }
            result := Downloaded(episodeId);
          }
        }
      }
    }
    run := Run(calls, forwarded, completed, alerts);
  }
}
