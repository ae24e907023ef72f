/**
 * The player slice of the Redux store.  `Reduce` is the slice's reducer as a
 * value-level function (what `playerReducer(state, action)` returns); the
 * class `Player` is the draft state the reducers assign field by field.
 */
module PlayerSlice {
  import opened Wrappers

  datatype Episode = Episode(
    title: string,
    description: Option<string>,
    pubDate: Option<string>,
    audioUrl: Option<string>,
    image: string,
    id: Option<string>)

  datatype PlayerState = PlayerState(
    currentEpisode: Option<Episode>,
    episodes: seq<Episode>,
    currentIndex: int,
    isPlaying: bool,
    isLiked: bool,
    isDownloaded: bool)

  const InitialState := PlayerState(None, [], 0, false, false, false)

  datatype Action =
    | SetCurrentEpisode(episode: Option<Episode>)
    | SetPlaylist(list: seq<Episode>, index: int)
    | SetPlaybackState(playing: bool)
    | SetCurrentIndex(index: int)
    | SetLikeStatus(liked: bool)
    | SetDownloadStatus(downloaded: bool)
    | ClearPlayer

  /** `episodes[index] || null`: an episode object is truthy, any other index reads `undefined`. */
  function EpisodeAt(episodes: seq<Episode>, index: int): (r: Option<Episode>)
    ensures r.Some? <==> 0 <= index < |episodes|
    ensures r.Some? ==> r.value == episodes[index]
  {
    if 0 <= index < |episodes| then Some(episodes[index]) else None
  }

  /**
   * The reducer.  Each field is written only by its own actions, and
   * `clearPlayer` restores the initial state.
   */
  function Reduce(s: PlayerState, a: Action): (r: PlayerState)
    ensures a.ClearPlayer? ==> r == InitialState
    ensures a.SetPlaylist? || a.SetCurrentIndex? ==> r.currentEpisode == EpisodeAt(r.episodes, r.currentIndex)
    ensures r.currentEpisode != s.currentEpisode ==>
      a.SetCurrentEpisode? || a.SetPlaylist? || a.SetCurrentIndex? || a.ClearPlayer?
    ensures r.episodes != s.episodes ==> a.SetPlaylist? || a.ClearPlayer?
    ensures r.currentIndex != s.currentIndex ==> a.SetPlaylist? || a.SetCurrentIndex? || a.ClearPlayer?
    ensures r.isPlaying != s.isPlaying ==> a.SetPlaybackState? || a.ClearPlayer?
    ensures r.isLiked != s.isLiked ==> a.SetLikeStatus? || a.ClearPlayer?
    ensures r.isDownloaded != s.isDownloaded ==> a.SetDownloadStatus? || a.ClearPlayer?
  {
    match a
    case SetCurrentEpisode(e) => s.(currentEpisode := e)
    case SetPlaylist(list, i) => s.(episodes := list, currentIndex := i, currentEpisode := EpisodeAt(list, i))
    case SetPlaybackState(p) => s.(isPlaying := p)
    case SetCurrentIndex(i) => s.(currentIndex := i, currentEpisode := EpisodeAt(s.episodes, i))
    case SetLikeStatus(l) => s.(isLiked := l)
    case SetDownloadStatus(d) => s.(isDownloaded := d)
    case ClearPlayer => InitialState
  }

  /** The current episode is the one the index selects in the playlist. */
  ghost predicate Consistent(s: PlayerState) {
    s.currentEpisode == EpisodeAt(s.episodes, s.currentIndex)
  }

  /** Every action but `setCurrentEpisode` keeps the current episode in step with the playlist. */
  lemma ReducePreservesConsistency(s: PlayerState, a: Action)
    requires Consistent(s) && !a.SetCurrentEpisode?
    ensures Consistent(Reduce(s, a))
  {
  }

  /** `setPlaylist`, `setCurrentIndex` and `clearPlayer` establish it from any state. */
  lemma SelectionActionsEstablishConsistency(s: PlayerState, a: Action)
    requires a.SetPlaylist? || a.SetCurrentIndex? || a.ClearPlayer?
    ensures Consistent(Reduce(s, a))
  {
  }

  /** `setCurrentEpisode` stores its payload verbatim, even one outside the playlist. */
  lemma SetCurrentEpisodeIgnoresPlaylist(s: PlayerState, e: Episode)
    requires e !in s.episodes
    ensures Reduce(s, SetCurrentEpisode(Some(e))).currentEpisode == Some(e)
    ensures !Consistent(Reduce(s, SetCurrentEpisode(Some(e))))
  {
  }

  /** Moving the index after loading a playlist is the same as loading it at that index. */
  lemma PlaylistThenIndex(s: PlayerState, list: seq<Episode>, i: int, j: int)
    ensures Reduce(Reduce(s, SetPlaylist(list, i)), SetCurrentIndex(j)) == Reduce(s, SetPlaylist(list, j))
  {
  }

  /** `clearPlayer` forgets everything and is idempotent. */
  lemma ClearPlayerIdempotent(s: PlayerState)
    ensures Reduce(s, ClearPlayer) == InitialState
    ensures Reduce(Reduce(s, ClearPlayer), ClearPlayer) == Reduce(s, ClearPlayer)
  {
  }

  /** The cases of the slice's test file: playback goes both ways, the episode is stored as given. */
  lemma SliceTestCases(e: Episode)
    ensures !InitialState.isPlaying && InitialState.currentEpisode == None && InitialState.episodes == []
    ensures Reduce(InitialState, SetPlaybackState(true)).isPlaying
    ensures !Reduce(InitialState.(isPlaying := true), SetPlaybackState(false)).isPlaying
    ensures Reduce(InitialState, SetCurrentEpisode(Some(e))).currentEpisode == Some(e)
  {
  }

  class Player {
    var currentEpisode: Option<Episode>
    var episodes: seq<Episode>
    var currentIndex: int
    var isPlaying: bool
    var isLiked: bool
    var isDownloaded: bool

    function State(): PlayerState
      reads this
    {
      PlayerState(currentEpisode, episodes, currentIndex, isPlaying, isLiked, isDownloaded)
    }

    /** `initialState`. */
    constructor ()
      ensures State() == InitialState
      ensures !isPlaying && currentEpisode == None && episodes == [] && currentIndex == 0
      ensures !isLiked && !isDownloaded
    {
      currentEpisode := None;
      episodes := [];
      currentIndex := 0;
      isPlaying := false;
      isLiked := false;
      isDownloaded := false;
    }

    method SetCurrentEpisode(e: Option<Episode>)
      modifies this
      ensures State() == Reduce(old(State()), Action.SetCurrentEpisode(e))
      ensures currentEpisode == e && episodes == old(episodes) && currentIndex == old(currentIndex)
    {
      currentEpisode := e;
    }

    method SetPlaylist(list: seq<Episode>, index: int)
      modifies this
      ensures State() == Reduce(old(State()), Action.SetPlaylist(list, index))
      ensures episodes == list && currentIndex == index
      ensures currentEpisode.Some? <==> 0 <= index < |list|
      ensures currentEpisode.Some? ==> currentEpisode.value == list[index]
      ensures isPlaying == old(isPlaying) && isLiked == old(isLiked) && isDownloaded == old(isDownloaded)
    {
      episodes := list;
      currentIndex := index;
      currentEpisode := EpisodeAt(list, index);
    }

    method SetPlaybackState(playing: bool)
      modifies this
      ensures State() == Reduce(old(State()), Action.SetPlaybackState(playing))
      ensures isPlaying == playing && State() == old(State()).(isPlaying := playing)
    {
      isPlaying := playing;
    }

    method SetCurrentIndex(index: int)
      modifies this
      ensures State() == Reduce(old(State()), Action.SetCurrentIndex(index))
      ensures currentIndex == index && episodes == old(episodes)
      ensures currentEpisode == EpisodeAt(episodes, index)
      ensures !(0 <= index < |episodes|) ==> currentEpisode == None
    {
      currentIndex := index;
      currentEpisode := EpisodeAt(episodes, index);
    }

    method SetLikeStatus(liked: bool)
      modifies this
      ensures State() == Reduce(old(State()), Action.SetLikeStatus(liked))
      ensures State() == old(State()).(isLiked := liked)
    {
      isLiked := liked;
    }

    method SetDownloadStatus(downloaded: bool)
      modifies this
      ensures State() == Reduce(old(State()), Action.SetDownloadStatus(downloaded))
      ensures State() == old(State()).(isDownloaded := downloaded)
    {
      isDownloaded := downloaded;
    }

    method ClearPlayer()
      modifies this
      ensures State() == Reduce(old(State()), Action.ClearPlayer)
      ensures State() == InitialState
    {
      currentEpisode := None;
      episodes := [];
      currentIndex := 0;
      isPlaying := false;
      isLiked := false;
      isDownloaded := false;
    }
  }
}
