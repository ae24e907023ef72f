/**
 * The per-episode download button: what it draws (a check, a spinner or a
 * download arrow), when it is disabled, and what a tap does, in priority
 * order: ask to log in, offer to delete, offer to cancel, or start.
 *
 * The download store is the shared Redux slice; `activeDownload` is whether
 * the store holds a progress entry for this episode.  The user's answer to
 * a confirmation dialog is an input, and so is whether the file service
 * rejects.
 */
module DownloadButton {
  import opened Wrappers
  import opened Js
  import opened Collaborators
  import opened DownloadSlice

  /** Which branch a tap takes. */
  datatype Flow = LoginPrompt | DeleteFlow | CancelFlow | StartFlow

  /** What the button draws. */
  datatype Content = Spinner | Glyph(name: string)

  /** `getIcon`: `None` asks for a spinner instead. */
  function IconName(isDownloaded: bool, isDownloading: bool, active: bool): (r: Option<string>)
    ensures isDownloaded ==> r == Some("circle-check")
    ensures r.None? <==> !isDownloaded && (isDownloading || active)
    ensures !isDownloaded && !isDownloading && !active ==> r == Some("circle-down")
  {
    if isDownloaded then Some("circle-check")
    else if isDownloading || active then None
    else Some("circle-down")
  }

  /** The spinner: while a download is starting or running, unless the episode is already here. */
  predicate ShowsSpinner(isDownloaded: bool, isDownloading: bool, active: bool)
    ensures isDownloaded ==> !ShowsSpinner(isDownloaded, isDownloading, active)
    ensures !isDownloaded && active ==> ShowsSpinner(isDownloaded, isDownloading, active)
    ensures !isDownloaded && isDownloading ==> ShowsSpinner(isDownloaded, isDownloading, active)
    ensures !isDownloading && !active ==> !ShowsSpinner(isDownloaded, isDownloading, active)
  {
    (isDownloading || active) && !isDownloaded
  }

  /**
   * The button ignores taps only between a start and the first progress
   * report: an idle button can start, and a running download can be cancelled.
   */
  predicate Disabled(isDownloading: bool, active: bool)
    ensures !isDownloading ==> !Disabled(isDownloading, active)
    ensures active ==> !Disabled(isDownloading, active)
    ensures isDownloading && !active ==> Disabled(isDownloading, active)
  {
    isDownloading && !active
  }

  /** What is drawn: the spinner, or the icon `getIcon` names. */
  function ContentOf(isDownloaded: bool, isDownloading: bool, active: bool): Option<Content> {
    if ShowsSpinner(isDownloaded, isDownloading, active) then Some(Spinner)
    else match IconName(isDownloaded, isDownloading, active)
      case Some(name) => Some(Glyph(name))
      case None => None
  }

  /**
   * The spinner condition and `getIcon` agree: the spinner is drawn exactly
   * when there is no icon, so the button is never blank, and a downloaded
   * episode always shows its check.
   */
  lemma SpinnerExactlyWhenNoIcon(isDownloaded: bool, isDownloading: bool, active: bool)
    ensures ShowsSpinner(isDownloaded, isDownloading, active) <==> IconName(isDownloaded, isDownloading, active).None?
    ensures ContentOf(isDownloaded, isDownloading, active).Some?
    ensures isDownloaded ==> ContentOf(isDownloaded, isDownloading, active) == Some(Glyph("circle-check"))
    ensures !isDownloaded && !isDownloading && !active ==> ContentOf(isDownloaded, isDownloading, active) == Some(Glyph("circle-down"))
  {
  }

  /** The branch a tap takes, first match wins. */
  function TapFlow(user: Option<string>, isDownloaded: bool, isDownloading: bool): (r: Flow)
    ensures r == LoginPrompt <==> !Truthy(user)
    ensures r == DeleteFlow <==> Truthy(user) && isDownloaded
    ensures r == CancelFlow <==> Truthy(user) && !isDownloaded && isDownloading
    ensures r == StartFlow <==> Truthy(user) && !isDownloaded && !isDownloading
  {
    if !Truthy(user) then LoginPrompt
    else if isDownloaded then DeleteFlow
    else if isDownloading then CancelFlow
    else StartFlow
  }

  /**
   * A tap can reach the cancel dialog only while the store shows progress
   * for the episode: without it a downloading button is disabled.
   */
  lemma CancelNeedsActiveEntry(user: Option<string>, isDownloaded: bool, isDownloading: bool, active: bool)
    requires !Disabled(isDownloading, active)
    requires TapFlow(user, isDownloaded, isDownloading) == CancelFlow
    ensures active && ShowsSpinner(isDownloaded, isDownloading, active)
  {
  }

  /** The store entry a progress report becomes: the fraction scaled to a percentage. */
  function ProgressEntry(episodeId: string, p: TransferProgress): (r: DownloadProgress)
    ensures r.episodeId == episodeId && r.progress == p.progress * 100.0
    ensures r.bytesWritten == p.bytesWritten && r.totalBytes == p.contentLength
  {
    DownloadProgress(episodeId, p.progress * 100.0, p.bytesWritten, p.contentLength)
  }

  class Button {
    const episodeId: string
    const audioUrl: string
    const episodeTitle: string
    const store: DownloadStore
    var user: Option<string>
    var isDownloaded: bool
    var isDownloading: bool

    constructor (episodeId: string, audioUrl: string, episodeTitle: string, store: DownloadStore, user: Option<string>)
      ensures this.episodeId == episodeId && this.audioUrl == audioUrl && this.episodeTitle == episodeTitle
      ensures this.store == store && this.user == user
      ensures !isDownloaded && !isDownloading
    {
      this.episodeId := episodeId;
      this.audioUrl := audioUrl;
      this.episodeTitle := episodeTitle;
      this.store := store;
      this.user := user;
      isDownloaded := false;
      isDownloading := false;
    }

    /** `checkDownloadStatus`: with a user, the flag takes the ledger's answer. */
    method CheckDownloadStatus(inLedger: bool)
      modifies this
      ensures user == old(user) && isDownloading == old(isDownloading)
      ensures isDownloaded == (if Truthy(user) then inLedger else old(isDownloaded))
    {
      if Truthy(user) {
        isDownloaded := inLedger;
      }
    }

    /**
     * A tap on the button (`handleDownload` up to its first `await`, plus
     * the dialog's answer).  `confirmed` is the answer to the delete or
     * cancel dialog and `rejects` whether the service call it makes
     * rejects.  A start only raises `isDownloading`: the transfer is still
     * pending when the tap returns, and `OnProgress` and `FinishDownload`
     * model what happens when it reports and settles, so another tap can
     * come in between.  Answers the branch taken and the alert titles shown.
     */
    method HandleDownload(confirmed: bool, rejects: bool) returns (flow: Flow, alerts: seq<string>)
      modifies this, store
      ensures flow == TapFlow(old(user), old(isDownloaded), old(isDownloading))
      ensures user == old(user)
      ensures store.totalCacheSize == old(store.totalCacheSize) && store.error == old(store.error)
      // no user: a prompt and nothing else
      ensures flow == LoginPrompt ==>
        alerts == ["Login Required"] && store.State() == old(store.State()) &&
        isDownloaded == old(isDownloaded) && isDownloading == old(isDownloading)
      // delete: only on confirmation and a successful delete does the episode leave the list
      ensures flow == DeleteFlow ==>
        isDownloading == old(isDownloading) && store.activeDownloads == old(store.activeDownloads) &&
        if confirmed && !rejects then
          !isDownloaded && alerts == ["Delete Download", "Success"] &&
          store.downloadedEpisodes == WithoutEpisode(old(store.downloadedEpisodes), episodeId)
        else
          isDownloaded && store.downloadedEpisodes == old(store.downloadedEpisodes) &&
          alerts == (if confirmed then ["Delete Download", "Error"] else ["Delete Download"])
      // cancel: on confirmation and a settled cancel the progress entry goes and the flag clears
      ensures flow == CancelFlow ==>
        alerts == ["Cancel Download"] && !isDownloaded &&
        store.downloadedEpisodes == old(store.downloadedEpisodes) &&
        if confirmed && !rejects then
          !isDownloading && store.activeDownloads == old(store.activeDownloads) - {episodeId}
        else
          isDownloading && store.activeDownloads == old(store.activeDownloads)
      // start: the transfer is under way and nothing else has happened yet
      ensures flow == StartFlow ==>
        alerts == [] && isDownloading && !isDownloaded && store.State() == old(store.State())
    {
      flow := TapFlow(user, isDownloaded, isDownloading);
      if flow == LoginPrompt {
        alerts := ["Login Required"];
      } else if flow == DeleteFlow {
        alerts := ["Delete Download"];
        if confirmed {
          if rejects {
            alerts := alerts + ["Error"];
          } else {
            store.RemoveDownloadedEpisode(episodeId);
            isDownloaded := false;
            alerts := alerts + ["Success"];
          }
        }
      } else if flow == CancelFlow {
        alerts := ["Cancel Download"];
        if confirmed && !rejects {
          store.RemoveDownloadProgress(episodeId);
          isDownloading := false;
        }
      } else {
        isDownloading := true;
        alerts := [];
      }
    }

    /** The transfer's progress callback: the store's entry for the episode becomes the report. */
    method OnProgress(p: TransferProgress)
      modifies store
      ensures episodeId in store.activeDownloads && store.activeDownloads[episodeId] == ProgressEntry(episodeId, p)
      ensures store.activeDownloads - {episodeId} == old(store.activeDownloads) - {episodeId}
      ensures store.downloadedEpisodes == old(store.downloadedEpisodes)
      ensures store.totalCacheSize == old(store.totalCacheSize) && store.error == old(store.error)
    {
      store.SetDownloadProgress(ProgressEntry(episodeId, p));
    }

    /**
     * The started transfer settles.  `rejects` says whether the transfer or
     * the ledger read after it rejected, `ledgerEntry` what that read gave.
     * Either way the progress entry goes and `isDownloading` clears; only
     * success marks the episode downloaded and puts the ledger row first.
     */
    method FinishDownload(rejects: bool, ledgerEntry: Option<DownloadedEpisode>) returns (alerts: seq<string>)
      modifies this, store
      ensures user == old(user) && !isDownloading
      ensures store.activeDownloads == old(store.activeDownloads) - {episodeId}
      ensures store.totalCacheSize == old(store.totalCacheSize) && store.error == old(store.error)
      ensures rejects ==>
        isDownloaded == old(isDownloaded) && alerts == ["Download Failed"] &&
        store.downloadedEpisodes == old(store.downloadedEpisodes)
      ensures !rejects ==>
        isDownloaded && alerts == ["Success"] &&
        store.downloadedEpisodes == (if ledgerEntry.Some? then [ledgerEntry.value] + old(store.downloadedEpisodes)
                                     else old(store.downloadedEpisodes))
    {
      if rejects {
        store.RemoveDownloadProgress(episodeId);
        isDownloading := false;
        alerts := ["Download Failed"];
      } else {
        if ledgerEntry.Some? {
          store.AddDownloadedEpisode(ledgerEntry.value);
        }
        store.RemoveDownloadProgress(episodeId);
        isDownloading := false;
        isDownloaded := true;
        alerts := ["Success"];
      }
    }
  }

  /**
   * A download can be cancelled while it runs: once the transfer has
   * reported progress the button is enabled again, a tap reaches the cancel
   * dialog, and a confirmed cancel clears the entry before the transfer
   * settles; when the cancelled transfer then rejects, the failure alert
   * follows.
   */
  method CancelDuringDownload() returns (cancel: Flow, enabled: bool, afterwards: seq<string>)
    ensures cancel == CancelFlow && enabled && afterwards == ["Download Failed"]
  {
    var store := new DownloadStore();
    var button := new Button("ep1", "https://example.com/ep1.mp3", "Episode 1", store, Some("user1"));
    var start, _ := button.HandleDownload(false, false);
    assert start == StartFlow;
    button.OnProgress(TransferProgress(0.5, 10, 20));
    enabled := !Disabled(button.isDownloading, "ep1" in store.activeDownloads);
    var cancelAlerts;
    cancel, cancelAlerts := button.HandleDownload(true, false);
    afterwards := button.FinishDownload(true, None);
    assert "ep1" !in store.activeDownloads && !button.isDownloading;
  }
}
