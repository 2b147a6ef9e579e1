/**
 * The engagement reducers of the feed: like, save and story-viewed. Each maps
 * over the list and changes only the entries whose id matches. `handleLike`
 * has the same body in the home screen and in the app shell, so it is defined
 * once here.
 */
module Feed {

  /**
   * A feed post. The home screen's posts have no `isSaved` field; for them it
   * stays false and no handler of that screen reads or writes it.
   */
  datatype Post = Post(
    id: int, username: string, userImage: string, postImage: string,
    caption: string, timeAgo: string, likes: int, isLiked: bool, isSaved: bool)

  datatype Story = Story(id: int, username: string, userImage: string, isViewed: bool, isOwnStory: bool)

  /** The like counter without the viewer's own like. */
  function LikesByOthers(p: Post): int {
    p.likes - if p.isLiked then 1 else 0
  }

  /**
   * `handleLike(id)`: the matching posts flip `isLiked` and move `likes` with
   * it, so the likes by others stay what they were; nothing else changes.
   */
  function ToggleLike(posts: seq<Post>, id: int): (r: seq<Post>)
    ensures |r| == |posts|
    ensures forall i :: 0 <= i < |posts| ==> r[i] == posts[i].(isLiked := r[i].isLiked, likes := r[i].likes)
    ensures forall i :: 0 <= i < |posts| ==> r[i].isLiked == (posts[i].isLiked != (posts[i].id == id))
    ensures forall i :: 0 <= i < |posts| ==> LikesByOthers(r[i]) == LikesByOthers(posts[i])
  {
    seq(|posts|, i requires 0 <= i < |posts| =>
      var p := posts[i];
      if p.id == id then p.(isLiked := !p.isLiked, likes := if p.isLiked then p.likes - 1 else p.likes + 1) else p)
  }

  /** `handleSave(id)`: the matching posts flip `isSaved`; nothing else changes. */
  function ToggleSave(posts: seq<Post>, id: int): (r: seq<Post>)
    ensures |r| == |posts|
    ensures forall i :: 0 <= i < |posts| ==> r[i] == posts[i].(isSaved := r[i].isSaved)
    ensures forall i :: 0 <= i < |posts| ==> r[i].isSaved == (posts[i].isSaved != (posts[i].id == id))
  {
    seq(|posts|, i requires 0 <= i < |posts| =>
      var p := posts[i];
      if p.id == id then p.(isSaved := !p.isSaved) else p)
  }

  /** `handleStoryPress(id)`: the matching stories become viewed; nothing else changes. */
  function MarkViewed(stories: seq<Story>, id: int): (r: seq<Story>)
    ensures |r| == |stories|
    ensures forall i :: 0 <= i < |stories| ==> r[i] == stories[i].(isViewed := r[i].isViewed)
    ensures forall i :: 0 <= i < |stories| ==> r[i].isViewed == (stories[i].isViewed || stories[i].id == id)
  {
    seq(|stories|, i requires 0 <= i < |stories| =>
      if stories[i].id == id then stories[i].(isViewed := true) else stories[i])
  }

  /** No post's like counter is below what the viewer's own like accounts for. */
  predicate CountersSound(posts: seq<Post>) {
    forall i :: 0 <= i < |posts| ==> LikesByOthers(posts[i]) >= 0
  }

  /** A liked post's counter drops by one, an unliked one's rises by one. */
  lemma ToggleLikeMovesCounterByOne(posts: seq<Post>, id: int, i: int)
    requires 0 <= i < |posts| && posts[i].id == id
    ensures ToggleLike(posts, id)[i].likes == posts[i].likes + (if posts[i].isLiked then -1 else 1)
  {
  }

  /** Liking twice gives back the original list. */
  lemma ToggleLikeTwice(posts: seq<Post>, id: int)
    ensures ToggleLike(ToggleLike(posts, id), id) == posts
  {
    var r := ToggleLike(ToggleLike(posts, id), id);
    forall i | 0 <= i < |posts| ensures r[i] == posts[i] {
    }
  }

  /** Saving twice gives back the original list. */
  lemma ToggleSaveTwice(posts: seq<Post>, id: int)
    ensures ToggleSave(ToggleSave(posts, id), id) == posts
  {
  }

  /** An id that no post carries leaves the list as it is. */
  lemma UnknownIdIsNoOp(posts: seq<Post>, stories: seq<Story>, id: int)
    requires forall i :: 0 <= i < |posts| ==> posts[i].id != id
    requires forall i :: 0 <= i < |stories| ==> stories[i].id != id
    ensures ToggleLike(posts, id) == posts
    ensures ToggleSave(posts, id) == posts
    ensures MarkViewed(stories, id) == stories
  {
  }

  /** Like and save touch different fields, so their order does not matter. */
  lemma LikeSaveCommute(posts: seq<Post>, likeId: int, saveId: int)
    ensures ToggleSave(ToggleLike(posts, likeId), saveId) == ToggleLike(ToggleSave(posts, saveId), likeId)
  {
  }

  /** Sound counters stay sound under both handlers, so no like counter becomes negative. */
  lemma HandlersKeepCountersSound(posts: seq<Post>, id: int)
    requires CountersSound(posts)
    ensures CountersSound(ToggleLike(posts, id)) && CountersSound(ToggleSave(posts, id))
    ensures forall i :: 0 <= i < |posts| ==> ToggleLike(posts, id)[i].likes >= 0
  {
  }

  /** Viewing a story twice is the same as viewing it once. */
  lemma MarkViewedIdempotent(stories: seq<Story>, id: int)
    ensures MarkViewed(MarkViewed(stories, id), id) == MarkViewed(stories, id)
  {
  }

  /** Liking an unliked post with 10 likes gives a liked post with 11. */
  lemma LikeExample(p: Post)
    requires p.id == 1 && !p.isLiked && p.likes == 10
    ensures ToggleLike([p], 1) == [p.(isLiked := true, likes := 11)]
  {
  }
}

/** The home screen: the feed and the story strip. */
module Home {
  import opened Feed

  class HomeScreen {
    var posts: seq<Post>
    var stories: seq<Story>

    constructor (seedPosts: seq<Post>, seedStories: seq<Story>)
      ensures posts == seedPosts && stories == seedStories
    {
      posts, stories := seedPosts, seedStories;
    }

    method HandleLike(postId: int)
      modifies this`posts
      ensures posts == ToggleLike(old(posts), postId)
    {
      posts := ToggleLike(posts, postId);
    }

    method HandleStoryPress(storyId: int)
      modifies this`stories
      ensures stories == MarkViewed(old(stories), storyId)
    {
      stories := MarkViewed(stories, storyId);
    }
  }
}
