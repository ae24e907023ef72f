/**
 * The push-notification listeners: every notification received, opened or
 * shown in the foreground, is stored with default title and body, saved for
 * the signed-in user, and an opened one routes either to the player or to
 * the notifications list.
 *
 * The notification store's `addNotification` reducer and the database save
 * are not part of this model: the listener records what it dispatched and
 * what it asked to save, in order.  The clock is a parameter.
 */
module NotificationService {
  import opened Wrappers
  import opened Js
  import opened EpisodeIdentity

  /** The `additionalData` a backend push carries. */
  datatype NotificationData = NotificationData(
    kind: Option<string>,
    episode_url: Option<string>,
    audioUrl: Option<string>,
    episode_title: Option<string>,
    title: Option<string>,
    description: Option<string>,
    image: Option<string>)

  /** A notification as the push SDK hands it over. */
  datatype Received = Received(notificationId: string, title: Option<string>, body: Option<string>, additionalData: Option<NotificationData>)

  /** The record dispatched to the store and saved. */
  datatype Stored = Stored(id: string, title: string, body: string, data: Option<NotificationData>)

  /** The episode `navigateToPlayer` builds. */
  datatype PlayerEpisode = PlayerEpisode(id: string, title: string, description: string, audioUrl: string, image: string, pubDate: string)

  /** A navigation request: a route and, optionally, the nested screen. */
  datatype Route = Route(name: string, screen: Option<string>)

  const PlaceholderImage: string := "https://via.placeholder.com/150"

  /** The record kept of a notification: title and body default, the rest verbatim. */
  function ToStored(n: Received): (r: Stored)
    ensures r.id == n.notificationId && r.data == n.additionalData
    ensures r.title != ""
    ensures Truthy(n.title) ==> Some(r.title) == n.title
    ensures !Truthy(n.title) ==> r.title == "New Notification"
    ensures Truthy(n.body) ==> Some(r.body) == n.body
    ensures !Truthy(n.body) ==> r.body == ""
  {
    Stored(n.notificationId, OrElse(n.title, "New Notification"), OrElse(n.body, ""), n.additionalData)
  }

  /** An opened notification goes to the player when it announces an episode or carries its URL. */
  predicate RoutesToPlayer(data: Option<NotificationData>)
    ensures RoutesToPlayer(data) ==> data.Some?
    ensures data.Some? && data.value.kind == Some("new_episode") ==> RoutesToPlayer(data)
    ensures data.Some? && Truthy(data.value.episode_url) ==> RoutesToPlayer(data)
    ensures data.Some? && data.value.kind != Some("new_episode") && !Truthy(data.value.episode_url) ==> !RoutesToPlayer(data)
  {
    data.Some? && (data.value.kind == Some("new_episode") || Truthy(data.value.episode_url))
  }

  /** `episode_url || audioUrl || ''`. */
  function AudioUrlOf(data: NotificationData): (r: string)
    ensures Truthy(data.episode_url) ==> Some(r) == data.episode_url
    ensures !Truthy(data.episode_url) && Truthy(data.audioUrl) ==> Some(r) == data.audioUrl
    ensures !Truthy(data.episode_url) && !Truthy(data.audioUrl) ==> r == ""
  {
    OrElse(Or(data.episode_url, data.audioUrl), "")
  }

  /** The episode built from a payload at time `nowMillis` (ISO form `nowIso`). */
  function EpisodeFor(data: NotificationData, nowMillis: nat, nowIso: string): (r: PlayerEpisode)
    ensures r.audioUrl == AudioUrlOf(data) && r.pubDate == nowIso
    ensures r.id != "" && r.title != "" && r.image != ""
    ensures Truthy(data.episode_title) ==> Some(r.title) == data.episode_title
    ensures !Truthy(data.episode_title) && Truthy(data.title) ==> Some(r.title) == data.title
    ensures !Truthy(data.episode_title) && !Truthy(data.title) ==> r.title == "New Episode"
    ensures Truthy(data.description) ==> Some(r.description) == data.description
    ensures !Truthy(data.description) ==> r.description == ""
    ensures Truthy(data.image) ==> Some(r.image) == data.image
    ensures !Truthy(data.image) ==> r.image == PlaceholderImage
  {
    var audioUrl := AudioUrlOf(data);
    PlayerEpisode(
      NotificationId(audioUrl, nowMillis),
      OrElse(Or(data.episode_title, data.title), "New Episode"),
      OrElse(data.description, ""),
      audioUrl,
      OrElse(data.image, PlaceholderImage),
      nowIso)
  }

  /**
   * The identifier a notification gives an episode is the one a download
   * of the same URL gives it: the URL's last segment without its query, so
   * two pushes of one file with different query strings agree.
   */
  lemma EpisodeIdMatchesDownload(data: NotificationData, nowMillis: nat, nowIso: string)
    ensures EpisodeFor(data, nowMillis, nowIso).id == DownloadTimeId(AudioUrlOf(data), nowMillis)
    ensures SafeSegment(AudioUrlOf(data)) != "" ==> EpisodeFor(data, nowMillis, nowIso).id == SafeSegment(AudioUrlOf(data))
  {
    NotificationIdAgrees(AudioUrlOf(data), nowMillis);
  }

  /** Identifier stability for notification payloads whose URLs differ only in a query. */
  lemma PushesOfOneFileAgree(d1: NotificationData, d2: NotificationData, path: string, q1: string, q2: string, t1: nat, t2: nat, iso: string)
    requires '/' !in q1 && '/' !in q2 && SafeSegment(path) != ""
    requires AudioUrlOf(d1) == path + "?" + q1 && AudioUrlOf(d2) == path + "?" + q2
    ensures EpisodeFor(d1, t1, iso).id == EpisodeFor(d2, t2, iso).id == SafeSegment(path)
  {
    EpisodeIdMatchesDownload(d1, t1, iso);
    EpisodeIdMatchesDownload(d2, t2, iso);
    StableAcrossQueries(path, q1, q2, t1, t2);
  }

  /** The listeners and what they have done so far. */
  class Listener {
    var dispatched: seq<Stored>
    var saved: seq<(string, Stored)>
    var navigations: seq<Route>

    constructor ()
      ensures dispatched == [] && saved == [] && navigations == []
    {
      dispatched := [];
      saved := [];
      navigations := [];
    }

    /**
     * Store the notification, and save it when someone is signed in.  This
     * is all of `foregroundWillDisplay`, and the first half of `click`.
     */
    method Record(n: Received, userId: Option<string>)
      modifies this
      ensures dispatched == old(dispatched) + [ToStored(n)]
      ensures saved == if Truthy(userId) then old(saved) + [(userId.value, ToStored(n))] else old(saved)
      ensures navigations == old(navigations)
    {
      var stored := ToStored(n);
      dispatched := dispatched + [stored];
      if Truthy(userId) {
        saved := saved + [(userId.value, stored)];
      }
    }

    /**
     * `navigateToPlayer`: nothing unless navigation is ready; otherwise the
     * episode is built and the app goes to `Root`, without the episode.
     */
    method NavigateToPlayer(data: NotificationData, ready: bool, nowMillis: nat, nowIso: string)
      returns (built: Option<PlayerEpisode>)
      modifies this
      ensures !ready ==> built == None && navigations == old(navigations)
      ensures ready ==> built == Some(EpisodeFor(data, nowMillis, nowIso)) && navigations == old(navigations) + [Route("Root", None)]
      ensures dispatched == old(dispatched) && saved == old(saved)
    {
      if !ready {
        return None;
      }
      built := Some(EpisodeFor(data, nowMillis, nowIso));
      navigations := navigations + [Route("Root", None)];
    }

    /** The `click` listener: record, then route. */
    method OnClick(n: Received, userId: Option<string>, ready: bool, nowMillis: nat, nowIso: string)
      returns (built: Option<PlayerEpisode>)
      modifies this
      ensures dispatched == old(dispatched) + [ToStored(n)]
      ensures saved == if Truthy(userId) then old(saved) + [(userId.value, ToStored(n))] else old(saved)
      ensures RoutesToPlayer(n.additionalData) && ready ==>
        built == Some(EpisodeFor(n.additionalData.value, nowMillis, nowIso)) && navigations == old(navigations) + [Route("Root", None)]
      ensures !RoutesToPlayer(n.additionalData) && ready ==>
        built == None && navigations == old(navigations) + [Route("Root", Some("Notifications"))]
      ensures !ready ==> built == None && navigations == old(navigations)
    {
      Record(n, userId);
      if RoutesToPlayer(n.additionalData) {
        built := NavigateToPlayer(n.additionalData.value, ready, nowMillis, nowIso);
      } else {
        built := None;
        if ready {
          navigations := navigations + [Route("Root", Some("Notifications"))];
        }
      }
    }
  }
}
