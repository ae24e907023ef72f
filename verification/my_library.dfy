/**
 * The "My Library" screen: the downloads tab joins every ledger record with
 * its episode (remote row, else cached metadata, else a placeholder), the
 * liked tab shows the library rows, and a tap on "Play" hands the whole
 * active list to the player.
 *
 * The remote `episodes` table and the metadata cache are functions of the
 * episode identifier; the ledger and the liked rows are inputs.
 */
module MyLibrary {
  import opened Wrappers
  import opened Js

  /** A row of the `episodes` table, or cached metadata standing in for one. */
  datatype EpisodeRow = EpisodeRow(
    id: Option<string>,
    title: Option<string>,
    description: Option<string>,
    audio_url: Option<string>,
    image_url: Option<string>,
    pub_date: Option<string>)

  /** A ledger record of a file on the device. */
  datatype DownloadRecord = DownloadRecord(
    id: string,
    user_id: string,
    episode_id: string,
    local_path: Option<string>,
    file_size: int,
    downloaded_at: string)

  /** A list entry: the record's own fields plus `episode`. */
  datatype Item = Item(record: DownloadRecord, episode: Option<EpisodeRow>)

  /** What the remote lookup of one episode gave. */
  datatype Lookup = Found(row: EpisodeRow) | NotFound | Threw

  datatype Tab = Liked | Downloads

  /** One entry of the list handed to the player. */
  datatype PlayItem = PlayItem(title: string, audioUrl: string, image: string, pubDate: string, description: string)

  const PlaceholderImage: string := "https://via.placeholder.com/300x300.png?text=Podcast"

  /** The episode shown for a download that is neither remote nor cached. */
  function Placeholder(episodeId: string): (r: EpisodeRow)
    ensures r.id == Some(episodeId) && r.title == Some("Unknown Episode")
    ensures r.image_url == Some("") && r.pub_date == Some("")
    ensures r.audio_url == None && r.description == None
  {
    EpisodeRow(Some(episodeId), Some("Unknown Episode"), None, None, Some(""), Some(""))
  }

  /** One ledger record joined with its episode. */
  function Reconcile(record: DownloadRecord, remote: Lookup, cached: Option<EpisodeRow>): (r: Item)
    ensures r.record == record && r.episode.Some?
    ensures remote.Found? ==> r.episode == Some(remote.row)
    ensures !remote.Found? && cached.Some? ==> r.episode == cached
    ensures !remote.Found? && cached.None? ==> r.episode == Some(Placeholder(record.episode_id))
  {
    if remote.Found? then Item(record, Some(remote.row))
    else if cached.Some? then Item(record, cached)
    else Item(record, Some(Placeholder(record.episode_id)))
  }

  /** The downloads tab: the ledger, in order, each record joined on its own. */
  function ReconcileAll(
    records: seq<DownloadRecord>,
    remote: string -> Lookup,
    cache: string -> Option<EpisodeRow>): (r: seq<Item>)
    ensures |r| == |records|
    ensures forall i :: 0 <= i < |r| ==>
      r[i] == Reconcile(records[i], remote(records[i].episode_id), cache(records[i].episode_id))
  {
    seq(|records|, i requires 0 <= i < |records| =>
      Reconcile(records[i], remote(records[i].episode_id), cache(records[i].episode_id)))
  }

  /**
   * A lookup that throws is treated exactly like one that finds nothing, and
   * only for the entries of that episode: every other entry is unchanged.
   */
  lemma ThrowFallsThroughForThatRowOnly(
    records: seq<DownloadRecord>,
    remote: string -> Lookup,
    cache: string -> Option<EpisodeRow>,
    failing: string)
    requires remote(failing) == NotFound
    ensures var remote' := (id: string) => if id == failing then Threw else remote(id);
      ReconcileAll(records, remote', cache) == ReconcileAll(records, remote, cache)
  {
    var remote' := (id: string) => if id == failing then Threw else remote(id);
    var a := ReconcileAll(records, remote', cache);
    var b := ReconcileAll(records, remote, cache);
    forall i | 0 <= i < |records|
      ensures a[i] == b[i]
    {
      if records[i].episode_id == failing {
        assert remote'(failing) == Threw;
      }
    }
  }

  /** The player entry for a list entry. */
  function PlayItemOf(item: Item, tab: Tab): (r: PlayItem)
    ensures tab == Downloads && Truthy(item.record.local_path) ==> r.audioUrl == item.record.local_path.value
    ensures !(tab == Downloads && Truthy(item.record.local_path)) ==>
      r.audioUrl == (if item.episode.Some? then OrElse(item.episode.value.audio_url, "") else "")
    ensures r.title != "" && r.image != ""
    ensures item.episode.None? ==> r.title == "Unknown" && r.image == PlaceholderImage && r.pubDate == "" && r.description == ""
    ensures item.episode.Some? ==>
      var e := item.episode.value;
      (Truthy(e.title) ==> Some(r.title) == e.title) && (!Truthy(e.title) ==> r.title == "Unknown") &&
      (Truthy(e.image_url) ==> Some(r.image) == e.image_url) && (!Truthy(e.image_url) ==> r.image == PlaceholderImage) &&
      (Truthy(e.pub_date) ==> Some(r.pubDate) == e.pub_date) && (!Truthy(e.pub_date) ==> r.pubDate == "") &&
      (Truthy(e.description) ==> Some(r.description) == e.description) && (!Truthy(e.description) ==> r.description == "")
  {
    var audioUrl :=
      if tab == Downloads && Truthy(item.record.local_path) then item.record.local_path.value
      else if item.episode.Some? then OrElse(item.episode.value.audio_url, "")
      else "";
    match item.episode
    case None => PlayItem("Unknown", audioUrl, PlaceholderImage, "", "")
    case Some(e) =>
      PlayItem(OrElse(e.title, "Unknown"), audioUrl, OrElse(e.image_url, PlaceholderImage),
               OrElse(e.pub_date, ""), OrElse(e.description, ""))
  }

  /** `navigation.navigate("Player", {episodes, index})`. */
  datatype PlayerRoute = PlayerRoute(episodes: seq<PlayItem>, index: int)

  /** A tap on "Play": the whole active list, in order, and the tapped index unchanged. */
  function HandlePlay(items: seq<Item>, tab: Tab, index: int): (r: PlayerRoute)
    ensures |r.episodes| == |items| && r.index == index
    ensures forall i :: 0 <= i < |items| ==> r.episodes[i] == PlayItemOf(items[i], tab)
  {
    PlayerRoute(seq(|items|, i requires 0 <= i < |items| => PlayItemOf(items[i], tab)), index)
  }

  /**
   * A downloaded file plays from the device whatever the remote table or
   * the cache say, and an episode known to neither still plays, as
   * "Unknown Episode" with the placeholder artwork.
   */
  lemma DownloadsPlayFromDevice(
    records: seq<DownloadRecord>,
    remote: string -> Lookup,
    cache: string -> Option<EpisodeRow>,
    index: int,
    i: int)
    requires 0 <= i < |records|
    ensures var route := HandlePlay(ReconcileAll(records, remote, cache), Downloads, index);
      var p := route.episodes[i];
      (Truthy(records[i].local_path) ==> p.audioUrl == records[i].local_path.value) &&
      (!remote(records[i].episode_id).Found? && cache(records[i].episode_id).None? ==>
         p.title == "Unknown Episode" && p.image == PlaceholderImage && p.pubDate == "" && p.description == "" &&
         p.audioUrl == OrElse(records[i].local_path, ""))
  {
    var items := ReconcileAll(records, remote, cache);
    var item := items[i];
    assert item == Reconcile(records[i], remote(records[i].episode_id), cache(records[i].episode_id));
  }

  /**
   * The screen's state.  `user` is the signed-in user's identifier as the
   * store holds it, and `activeTab` the selected tab.
   */
  class LibraryScreen {
    var user: Option<string>
    var activeTab: Tab
    var libraryItems: seq<Item>
    var downloadedItems: seq<Item>
    var loading: bool
    var refreshing: bool

    constructor (user: Option<string>)
      ensures this.user == user && activeTab == Liked
      ensures libraryItems == [] && downloadedItems == []
      ensures loading && !refreshing
    {
      this.user := user;
      activeTab := Liked;
      libraryItems := [];
      downloadedItems := [];
      loading := true;
      refreshing := false;
    }

    method SelectTab(tab: Tab)
      modifies this
      ensures activeTab == tab
      ensures user == old(user) && libraryItems == old(libraryItems) && downloadedItems == old(downloadedItems)
      ensures loading == old(loading) && refreshing == old(refreshing)
    {
      activeTab := tab;
    }

    /**
     * `handlePlay`: the list handed to the player is the one the active tab
     * shows, every entry of it, in order.
     */
    function Play(index: int): (r: PlayerRoute)
      reads this
      ensures r.index == index
      ensures activeTab == Liked ==>
        |r.episodes| == |libraryItems| &&
        forall i :: 0 <= i < |libraryItems| ==> r.episodes[i] == PlayItemOf(libraryItems[i], Liked)
      ensures activeTab == Downloads ==>
        |r.episodes| == |downloadedItems| &&
        forall i :: 0 <= i < |downloadedItems| ==> r.episodes[i] == PlayItemOf(downloadedItems[i], Downloads)
    {
      HandlePlay(if activeTab == Liked then libraryItems else downloadedItems, activeTab, index)
    }

    /**
     * `fetchLibrary` as written.  `records` is the ledger, `liked` the
     * library rows (`None` for a null answer) and `listThrows` says whether
     * the list query rejected.  With no user the early return skips the
     * `finally`, so `refreshing` keeps its value.
     */
    method FetchLibraryAsWritten(
      records: seq<DownloadRecord>,
      remote: string -> Lookup,
      cache: string -> Option<EpisodeRow>,
      liked: Option<seq<Item>>,
      listThrows: bool)
      modifies this
      ensures user == old(user) && activeTab == old(activeTab) && !loading
      ensures !Truthy(user) ==> libraryItems == [] && downloadedItems == [] && refreshing == old(refreshing)
      ensures Truthy(user) ==> !refreshing
      ensures Truthy(user) && listThrows ==> libraryItems == [] && downloadedItems == []
      ensures Truthy(user) && !listThrows && activeTab == Downloads ==>
        downloadedItems == ReconcileAll(records, remote, cache) && libraryItems == old(libraryItems)
      ensures Truthy(user) && !listThrows && activeTab == Liked ==>
        libraryItems == liked.GetOr([]) && downloadedItems == old(downloadedItems)
    {
      if !Truthy(user) {
        libraryItems := [];
        downloadedItems := [];
        loading := false;
        return;
      }
      loading := true;
      if listThrows {
        libraryItems := [];
        downloadedItems := [];
      } else if activeTab == Downloads {
        downloadedItems := ReconcileAll(records, remote, cache);
      } else {
        libraryItems := liked.GetOr([]);
      }
      loading := false;
      refreshing := false;
    }

    /** `fetchLibrary` with the signed-out path also ending the refresh. */
    method FetchLibrary(
      records: seq<DownloadRecord>,
      remote: string -> Lookup,
      cache: string -> Option<EpisodeRow>,
      liked: Option<seq<Item>>,
      listThrows: bool)
      modifies this
      ensures user == old(user) && activeTab == old(activeTab) && !loading && !refreshing
      ensures !Truthy(user) ==> libraryItems == [] && downloadedItems == []
      ensures Truthy(user) && listThrows ==> libraryItems == [] && downloadedItems == []
      ensures Truthy(user) && !listThrows && activeTab == Downloads ==>
        downloadedItems == ReconcileAll(records, remote, cache) && libraryItems == old(libraryItems)
      ensures Truthy(user) && !listThrows && activeTab == Liked ==>
        libraryItems == liked.GetOr([]) && downloadedItems == old(downloadedItems)
    {
      FetchLibraryAsWritten(records, remote, cache, liked, listThrows);
      refreshing := false;
    }

    /** Pull-to-refresh and the header button, as written. */
    method OnRefreshAsWritten(
      records: seq<DownloadRecord>,
      remote: string -> Lookup,
      cache: string -> Option<EpisodeRow>,
      liked: Option<seq<Item>>,
      listThrows: bool)
      modifies this
      ensures user == old(user) && activeTab == old(activeTab) && !loading
      ensures refreshing <==> !Truthy(user)
      ensures !Truthy(user) ==> libraryItems == [] && downloadedItems == []
      ensures Truthy(user) && listThrows ==> libraryItems == [] && downloadedItems == []
      ensures Truthy(user) && !listThrows && activeTab == Downloads ==>
        downloadedItems == ReconcileAll(records, remote, cache) && libraryItems == old(libraryItems)
      ensures Truthy(user) && !listThrows && activeTab == Liked ==>
        libraryItems == liked.GetOr([]) && downloadedItems == old(downloadedItems)
    {
      refreshing := true;
      FetchLibraryAsWritten(records, remote, cache, liked, listThrows);
    }

    /** Pull-to-refresh and the header button: the indicator always ends. */
    method OnRefresh(
      records: seq<DownloadRecord>,
      remote: string -> Lookup,
      cache: string -> Option<EpisodeRow>,
      liked: Option<seq<Item>>,
      listThrows: bool)
      modifies this
      ensures user == old(user) && activeTab == old(activeTab) && !loading && !refreshing
      ensures !Truthy(user) ==> libraryItems == [] && downloadedItems == []
      ensures Truthy(user) && listThrows ==> libraryItems == [] && downloadedItems == []
      ensures Truthy(user) && !listThrows && activeTab == Downloads ==>
        downloadedItems == ReconcileAll(records, remote, cache) && libraryItems == old(libraryItems)
      ensures Truthy(user) && !listThrows && activeTab == Liked ==>
        libraryItems == liked.GetOr([]) && downloadedItems == old(downloadedItems)
    {
      refreshing := true;
      FetchLibrary(records, remote, cache, liked, listThrows);
    }

    /** The activity indicator replaces the list while loading, unless a refresh shows its own. */
    predicate ShowsSpinner()
      reads this
      ensures refreshing ==> !ShowsSpinner()
      ensures !loading ==> !ShowsSpinner()
      ensures loading && !refreshing ==> ShowsSpinner()
    {
      loading && !refreshing
    }
  }

  /**
   * Signed out, a refresh as written leaves the refresh indicator spinning:
   * nothing clears it until a fetch with a user runs.
   */
  method LoggedOutRefreshSticks() returns (stuck: bool)
    ensures stuck
  {
    var screen := new LibraryScreen(None);
    screen.OnRefreshAsWritten([], _ => NotFound, _ => None, None, false);
    stuck := screen.refreshing && !screen.ShowsSpinner() && screen.libraryItems == [];
  }

  /** With the corrected fetch, the same refresh ends with the indicator off. */
  method LoggedOutRefreshEnds() returns (ended: bool)
    ensures ended
  {
    var screen := new LibraryScreen(None);
    screen.OnRefresh([], _ => NotFound, _ => None, None, false);
    ended := !screen.refreshing && screen.libraryItems == [] && screen.downloadedItems == [];
  }
}
