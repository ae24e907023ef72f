/**
 * `dispatchUserLogin`: the signed-in user record is built from the auth
 * user and, once it has been read, the user's profile row.  Profile fields
 * win over the auth user's metadata, and an empty string counts as absent.
 */
module AuthHelpers {
  import opened Wrappers
  import opened Js

  /** The auth provider's user: metadata values may be missing or null. */
  datatype AuthUser = AuthUser(id: string, email: Option<string>, user_metadata: Option<map<string, Option<string>>>)

  /** The `profiles` row. */
  datatype Profile = Profile(display_name: Option<string>, avatar_url: Option<string>)

  /** The record `setLoggedIn` receives. */
  datatype LoggedInUser = LoggedInUser(
    id: string,
    email: Option<string>,
    display_name: Option<string>,
    avatar_url: Option<string>,
    user_metadata: map<string, Option<string>>)

  /** `user.user_metadata?.<key>`. */
  function Meta(user: AuthUser, key: string): Option<string> {
    if user.user_metadata.Some? && key in user.user_metadata.value then user.user_metadata.value[key] else None
  }

  /** `profileData?.<field>`. */
  function ProfileDisplayName(profile: Option<Profile>): Option<string> {
    if profile.Some? then profile.value.display_name else None
  }

  function ProfileAvatar(profile: Option<Profile>): Option<string> {
    if profile.Some? then profile.value.avatar_url else None
  }

  function DispatchUserLogin(user: AuthUser, profile: Option<Profile>): (r: LoggedInUser)
    ensures r.id == user.id && r.email == user.email
    // display name: profile, else metadata `display_name`, else metadata `name`
    ensures Truthy(ProfileDisplayName(profile)) ==> r.display_name == ProfileDisplayName(profile)
    ensures !Truthy(ProfileDisplayName(profile)) && Truthy(Meta(user, "display_name")) ==> r.display_name == Meta(user, "display_name")
    ensures !Truthy(ProfileDisplayName(profile)) && !Truthy(Meta(user, "display_name")) ==> r.display_name == Meta(user, "name")
    // avatar: profile, else metadata
    ensures Truthy(ProfileAvatar(profile)) ==> r.avatar_url == ProfileAvatar(profile)
    ensures !Truthy(ProfileAvatar(profile)) ==> r.avatar_url == Meta(user, "avatar_url")
    // metadata: every original key kept, `avatar_url` replaced by the chosen avatar
    ensures "avatar_url" in r.user_metadata && r.user_metadata["avatar_url"] == r.avatar_url
    ensures forall k :: k != "avatar_url" ==>
      (k in r.user_metadata <==> user.user_metadata.Some? && k in user.user_metadata.value) &&
      (k in r.user_metadata ==> r.user_metadata[k] == Meta(user, k))
  {
    var avatar := Or(ProfileAvatar(profile), Meta(user, "avatar_url"));
    var original := if user.user_metadata.Some? then user.user_metadata.value else map[];
    LoggedInUser(
      user.id,
      user.email,
      Or(Or(ProfileDisplayName(profile), Meta(user, "display_name")), Meta(user, "name")),
      avatar,
      original["avatar_url" := avatar])
  }

  /**
   * A profile whose fields are empty or missing changes nothing: the record
   * is the one built from the auth user alone.
   */
  lemma EmptyProfileIsNoProfile(user: AuthUser, profile: Profile)
    requires !Truthy(profile.display_name) && !Truthy(profile.avatar_url)
    ensures DispatchUserLogin(user, Some(profile)) == DispatchUserLogin(user, None)
  {
  }

  /**
   * The later dispatch with the profile, as `loadUserProfile` makes it,
   * keeps identity and email and only ever fills in or replaces the name
   * and avatar with the profile's own.
   */
  lemma ProfileRefinesFirstDispatch(user: AuthUser, profile: Profile)
    ensures var first := DispatchUserLogin(user, None);
      var second := DispatchUserLogin(user, Some(profile));
      second.id == first.id && second.email == first.email &&
      (second.display_name == first.display_name || second.display_name == profile.display_name) &&
      (second.avatar_url == first.avatar_url || second.avatar_url == profile.avatar_url) &&
      (forall k :: k != "avatar_url" && k in first.user_metadata ==>
         k in second.user_metadata && second.user_metadata[k] == first.user_metadata[k])
  {
  }
}
