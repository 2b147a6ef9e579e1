/**
 * The profile card: the follow button, which moves the follower count after
 * the backend call returns, and the profile shown when none was loaded.
 */
module Profile {
  import opened Wrappers
  import opened Backend
  import opened Forms

  datatype UserProfile = UserProfile(
    uid: string, username: string, bio: string, followers: int, following: int,
    posts: int, photoURL: string, isVerified: bool)

  /** The two cells the follow button changes. */
  datatype FollowState = FollowState(isFollowing: bool, followers: int)

  /** Followers other than the viewer. */
  function OtherFollowers(s: FollowState): int {
    s.followers - if s.isFollowing then 1 else 0
  }

  /**
   * One press of the follow button. The reply's success flag is never read:
   * any reply that returns applies the change, and only a thrown call leaves
   * the state as it was.
   */
  function Toggle(s: FollowState, reply: Reply<()>): (r: FollowState)
    ensures reply.Thrown? ==> r == s
    ensures !reply.Thrown? ==> r.isFollowing == !s.isFollowing
    ensures OtherFollowers(r) == OtherFollowers(s)
  {
    if reply.Thrown? then s
    else if s.isFollowing then FollowState(false, s.followers - 1)
    else FollowState(true, s.followers + 1)
  }

  /** An unfollow takes exactly one follower off, a follow adds exactly one. */
  lemma ToggleMovesByOne(s: FollowState, reply: Reply<()>)
    requires !reply.Thrown?
    ensures Toggle(s, reply).followers == s.followers + (if s.isFollowing then -1 else 1)
  {
  }

  /** Following and then unfollowing, both calls returning, gives back the original state. */
  lemma ToggleTwice(s: FollowState, first: Reply<()>, second: Reply<()>)
    requires !first.Thrown? && !second.Thrown?
    ensures Toggle(Toggle(s, first), second) == s
  {
  }

  /** `user?.displayName || user?.email?.split('@')[0] || 'User'`. */
  function FallbackUsername(user: Option<User>): (name: string)
    ensures name != ""
    ensures user.Some? && Truthy(user.value.displayName) ==> name == user.value.displayName.value
    ensures user.None? ==> name == "User"
    ensures user.Some? && !Truthy(user.value.displayName) && user.value.email.Some? && EmailPrefix(user.value.email.value) != "" ==>
      name == EmailPrefix(user.value.email.value)
    ensures user.Some? && !Truthy(user.value.displayName) && (user.value.email.None? || EmailPrefix(user.value.email.value) == "") ==>
      name == "User"
  {
    if user.Some? && Truthy(user.value.displayName) then user.value.displayName.value
    else if user.Some? && user.value.email.Some? && EmailPrefix(user.value.email.value) != "" then EmailPrefix(user.value.email.value)
    else "User"
  }

  /** Without a display name the email's local part is used, and an address starting with '@' falls back to 'User'. */
  lemma FallbackUsernameExamples(uid: string)
    ensures FallbackUsername(Some(User(uid, None, Some("jane@x.com"), None))) == "jane"
    ensures FallbackUsername(Some(User(uid, Some(""), Some("@x.com"), None))) == "User"
  {
    assert EmailPrefix("@x.com") == "";
    assert EmailPrefix("jane@x.com") == "jane" by {
      assert "jane@x.com"[1..] == "ane@x.com";
      assert "ane@x.com"[1..] == "ne@x.com";
      assert "ne@x.com"[1..] == "e@x.com";
      assert "e@x.com"[1..] == "@x.com";
    }
  }

  /** `user?.uid` inside a template: the text 'undefined' when there is no user. */
  function UidText(user: Option<User>): string {
    if user.Some? then user.value.uid else "undefined"
  }

  /** The profile shown when none has been loaded; it carries no uid of its own. */
  function FallbackProfile(user: Option<User>): (p: UserProfile)
    ensures p.username == FallbackUsername(user) && p.username != ""
    ensures p.followers == 1234 && p.following == 567 && p.posts == 42 && !p.isVerified
    ensures user.Some? && Truthy(user.value.photoURL) ==> p.photoURL == user.value.photoURL.value
    ensures !(user.Some? && Truthy(user.value.photoURL)) ==> p.photoURL == "https://picsum.photos/100/100?random=" + UidText(user)
  {
    UserProfile(
      "", FallbackUsername(user), "Welcome to Instagram Clone! \U{F0}\U{178}\U{201C}\U{B8}", 1234, 567, 42,
      if user.Some? && Truthy(user.value.photoURL) then user.value.photoURL.value
      else "https://picsum.photos/100/100?random=" + UidText(user),
      false)
  }

  class ProfileCard {
    const user: Option<User>
    var userProfile: Option<UserProfile>
    var isFollowing: bool
    var loading: bool

    constructor (u: Option<User>)
      ensures user == u && userProfile == None && !isFollowing && loading
    {
      user, userProfile, isFollowing, loading := u, None, false, true;
    }

    /** The profile on screen: the loaded one, else the fallback. */
    function Shown(): UserProfile
      reads this
    {
      if userProfile.Some? then userProfile.value else FallbackProfile(user)
    }

    /** `loadUserProfile`: with a signed-in user, keep a successful result and stop loading. */
    method LoadUserProfile(reply: Reply<UserProfile>)
      modifies this`userProfile, this`loading
      ensures user.None? ==> userProfile == old(userProfile) && loading == old(loading)
      ensures user.Some? && reply.Success? ==> userProfile == Some(reply.value) && !loading
      ensures user.Some? && reply.Failure? ==> userProfile == old(userProfile) && !loading
      ensures user.Some? && reply.Thrown? ==> userProfile == old(userProfile) && loading == old(loading)
    {
      if user.Some? {
        if reply.Thrown? {
          return;
        }
        if reply.Success? {
          userProfile := Some(reply.value);
        }
        loading := false;
      }
    }

    /**
     * `handleFollowToggle`: nothing without a user and a loaded profile;
     * otherwise the follow state moves as `Toggle` says, a thrown call shows
     * an alert, and loading is off at the end on both paths.
     */
    method HandleFollowToggle(reply: Reply<()>) returns (alert: Option<Alert>)
      modifies this`userProfile, this`isFollowing, this`loading
      ensures user.None? || old(userProfile).None? ==>
        userProfile == old(userProfile) && isFollowing == old(isFollowing) && loading == old(loading) && alert == None
      ensures user.Some? && old(userProfile).Some? ==>
        && userProfile.Some?
        && FollowState(isFollowing, userProfile.value.followers)
           == Toggle(FollowState(old(isFollowing), old(userProfile).value.followers), reply)
        && userProfile.value == old(userProfile).value.(followers := userProfile.value.followers)
        && !loading
        && (alert.Some? <==> reply.Thrown?)
    {
      alert := None;
      if user.None? || userProfile.None? {
        return;
      }
      loading := true;
      if !reply.Thrown? {
        var p := userProfile.value;
        if isFollowing {
          isFollowing := false;
          userProfile := Some(p.(followers := p.followers - 1));
        } else {
          isFollowing := true;
          userProfile := Some(p.(followers := p.followers + 1));
        }
      } else {
        alert := Some(Alert("Error", "Failed to update follow status"));
      }
      loading := false;
    }
  }
}
