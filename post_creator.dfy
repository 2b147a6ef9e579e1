/**
 * Hashtag and mention extraction from a caption: the global regular-expression
 * matches of `#[a-zA-Z0-9_]+` and `@[a-zA-Z0-9_]+`, lower-cased.
 */
module Captions {
  import opened Text

  /** The length of the run of word characters at the start of s. */
  function WordRun(s: string): (n: nat)
    ensures n <= |s|
    ensures forall i :: 0 <= i < n ==> IsWordChar(s[i])
    ensures n < |s| ==> !IsWordChar(s[n])
  {
    if s != [] && IsWordChar(s[0]) then 1 + WordRun(s[1..]) else 0
  }

  /** A match of `<sigil>[a-zA-Z0-9_]+` begins at the start of s. */
  predicate StartsToken(s: string, sigil: char) {
    |s| >= 2 && s[0] == sigil && IsWordChar(s[1])
  }

  /** t is a sigil followed by one or more word characters. */
  predicate IsToken(t: string, sigil: char) {
    |t| >= 2 && t[0] == sigil && forall j :: 1 <= j < |t| ==> IsWordChar(t[j])
  }

  /** The text matched at the start of s: the sigil and the whole run of word characters after it. */
  function TokenAt(s: string, sigil: char): (t: string)
    requires StartsToken(s, sigil)
    ensures IsToken(t, sigil)
    ensures |t| <= |s| && t == s[..|t|]
    ensures |t| == |s| || !IsWordChar(s[|t|])
  {
    s[..1 + WordRun(s[1..])]
  }

  /**
   * `text.match(/<sigil>[a-zA-Z0-9_]+/g) || []`: the regular-expression engine
   * tries each position from the left and, after a match, resumes right after it.
   */
  function Matches(s: string, sigil: char): (r: seq<string>)
    ensures forall i :: 0 <= i < |r| ==> IsToken(r[i], sigil)
    decreases |s|
  {
    if s == [] then []
    else if StartsToken(s, sigil) then
      var n := |TokenAt(s, sigil)|;
      [s[..n]] + Matches(s[n..], sigil)
    else Matches(s[1..], sigil)
  }

  /**
   * The reference reading of the matches: every position of the text that
   * starts a token contributes that token, in position order.
   */
  ghost function TokensByPosition(s: string, sigil: char): seq<string>
    decreases |s|
  {
    if s == [] then []
    else (if StartsToken(s, sigil) then [TokenAt(s, sigil)] else []) + TokensByPosition(s[1..], sigil)
  }

  /** Positions inside a run of word characters start no token. */
  lemma {:induction false} SkipWordChars(s: string, sigil: char, k: nat)
    requires !IsWordChar(sigil)
    requires k <= |s|
    requires forall i :: 0 <= i < k ==> IsWordChar(s[i])
    ensures TokensByPosition(s, sigil) == TokensByPosition(s[k..], sigil)
    decreases k
  {
    if k > 0 {
      assert !StartsToken(s, sigil);
      SkipWordChars(s[1..], sigil, k - 1);
      assert s[1..][k - 1..] == s[k..];
    }
  }

  /**
   * The scan misses no token and invents none: the matches are exactly the
   * tokens at the positions where one starts, in left-to-right order, each
   * maximal, duplicates kept, with no word boundary needed before the sigil.
   */
  lemma {:induction false} MatchesAreTokensByPosition(s: string, sigil: char)
    requires !IsWordChar(sigil)
    ensures Matches(s, sigil) == TokensByPosition(s, sigil)
    decreases |s|
  {
    if s == [] {
    } else if StartsToken(s, sigil) {
      var n := |TokenAt(s, sigil)|;
      SkipWordChars(s[1..], sigil, n - 1);
      assert s[1..][n - 1..] == s[n..];
      MatchesAreTokensByPosition(s[n..], sigil);
    } else {
      MatchesAreTokensByPosition(s[1..], sigil);
    }
  }

  /** '#' followed by one or more characters of `[a-z0-9_]`. */
  predicate IsHashtag(t: string) {
    |t| >= 2 && t[0] == '#' && forall j :: 1 <= j < |t| ==> IsWordChar(t[j]) && !IsAsciiUpper(t[j])
  }

  /** One or more characters of `[a-z0-9_]`. */
  predicate IsMentionName(m: string) {
    |m| >= 1 && forall j :: 0 <= j < |m| ==> IsWordChar(m[j]) && !IsAsciiUpper(m[j])
  }

  /** `extractHashtags`: every '#' match, lower-cased, in order. */
  function ExtractHashtags(text: string): (tags: seq<string>)
    ensures |tags| == |Matches(text, '#')|
    ensures forall i :: 0 <= i < |tags| ==> IsHashtag(tags[i])
    ensures forall i :: 0 <= i < |tags| ==> tags[i] == Lower(Matches(text, '#')[i])
  {
    var m := Matches(text, '#');
    seq(|m|, i requires 0 <= i < |m| => Lower(m[i]))
  }

  /** `extractMentions`: every '@' match without its '@', lower-cased, in order. */
  function ExtractMentions(text: string): (names: seq<string>)
    ensures |names| == |Matches(text, '@')|
    ensures forall i :: 0 <= i < |names| ==> IsMentionName(names[i])
    ensures forall i :: 0 <= i < |names| ==> names[i] == Lower(Matches(text, '@')[i][1..])
  {
    var m := Matches(text, '@');
    seq(|m|, i requires 0 <= i < |m| => Lower(m[i][1..]))
  }

  /** Repeated hashtags are all kept: `#a #a` yields two entries. */
  lemma DuplicateHashtagsKept()
    ensures ExtractHashtags("#a #a") == ["#a", "#a"]
  {
    assert WordRun(" #a") == 0 && WordRun("a #a") == 1;
    assert TokenAt("#a #a", '#') == "#a" && "#a #a"[2..] == " #a";
    assert Matches("#a #a", '#') == ["#a"] + Matches(" #a", '#');
    assert " #a"[1..] == "#a";
    assert Matches(" #a", '#') == Matches("#a", '#');
    assert WordRun("a") == 1;
    assert TokenAt("#a", '#') == "#a" && "#a"[2..] == "";
    assert Matches("#a", '#') == ["#a"];
    LowerOfLowerCase("#a");
  }

  /** No separator is needed before a tag, and the tag stops at the first non-word character. */
  lemma HashtagNeedsNoBoundary()
    ensures ExtractHashtags("a#x y") == ["#x"]
  {
    assert "a#x y"[1..] == "#x y";
    assert Matches("a#x y", '#') == Matches("#x y", '#');
    assert WordRun(" y") == 0 && WordRun("x y") == 1;
    assert TokenAt("#x y", '#') == "#x" && "#x y"[2..] == " y";
    assert Matches("#x y", '#') == ["#x"] + Matches(" y", '#');
    assert " y"[1..] == "y" && "y"[1..] == "";
    assert Matches(" y", '#') == [];
    LowerOfLowerCase("#x");
  }

  /** In `##x` the first '#' starts no tag; the second does. */
  lemma DoubleSigil()
    ensures ExtractHashtags("##x") == ["#x"]
  {
    assert "##x"[1..] == "#x";
    assert Matches("##x", '#') == Matches("#x", '#');
    assert WordRun("x") == 1;
    assert TokenAt("#x", '#') == "#x" && "#x"[2..] == "";
    assert Matches("#x", '#') == ["#x"];
    LowerOfLowerCase("#x");
  }

  /** Hashtags are lower-cased. */
  lemma HashtagLowerCased()
    ensures ExtractHashtags("#Sun!") == ["#sun"]
  {
    assert WordRun("!") == 0 && WordRun("n!") == 1 && WordRun("un!") == 2 && WordRun("Sun!") == 3;
    assert TokenAt("#Sun!", '#') == "#Sun" && "#Sun!"[4..] == "!";
    assert Matches("#Sun!", '#') == ["#Sun"] + Matches("!", '#');
    assert "!"[1..] == "";
    assert Matches("!", '#') == [];
    assert Lower("#Sun") == "#sun";
  }

  /** Mentions lose their '@' and are lower-cased. */
  lemma MentionDropsSigil()
    ensures ExtractMentions("@Al") == ["al"]
  {
    assert WordRun("l") == 1 && WordRun("Al") == 2;
    assert TokenAt("@Al", '@') == "@Al" && "@Al"[3..] == "";
    assert Matches("@Al", '@') == ["@Al"];
    assert "@Al"[1..] == "Al";
    assert Lower("Al") == "al";
  }

  /** Text with no match gives the empty list, not a missing value. */
  lemma NoMentionGivesEmpty()
    ensures ExtractMentions("@ x") == []
  {
    assert "@ x"[1..] == " x" && " x"[1..] == "x" && "x"[1..] == "";
    assert Matches("@ x", '@') == [];
  }
}

/**
 * The new-post form: the checks run before a post is created, the post record
 * handed to the backend, and the hashtag suggestions.
 */
module PostCreator {
  import opened Wrappers
  import opened Text
  import opened Backend
  import opened Captions
  import opened Forms

  /** The picked image or video. */
  datatype Media = Media(uri: string)

  /** The record handed to the backend's `createPost`. */
  datatype PostData = PostData(
    userId: string,
    username: string,
    userImage: string,
    postImage: string,
    caption: string,
    location: string,
    hashtags: seq<string>,
    mentions: seq<string>,
    taggedUsers: seq<string>,
    likes: int,
    comments: seq<string>,
    saves: int,
    createdAt: string)

  /** Why the form refuses to create a post. */
  datatype CreateError = NoMedia | NoCaption {
    function Message(): string {
      match this
      case NoMedia => "Please select an image or video"
      case NoCaption => "Please add a caption"
    }
  }

  /** The checks of `handleCreatePost`, in order: media first, then a caption that is not blank. */
  function CheckPost(media: Option<Media>, caption: string): (r: Option<CreateError>)
    ensures r == Some(NoMedia) <==> media.None?
    ensures r == Some(NoCaption) <==> media.Some? && AllWhitespace(caption)
    ensures r == None <==> media.Some? && !AllWhitespace(caption)
  {
    if media.None? then Some(NoMedia)
    else if IsBlank(caption) then Some(NoCaption)
    else None
  }

  /**
   * The post record. Reading `user.email` when the user has neither a display
   * name nor an email throws inside the `try`, which gives None here.
   */
  function BuildPost(user: User, media: Media, caption: string, location: string,
                     taggedUsers: seq<string>, now: string): (r: Option<PostData>)
    ensures r.None? <==> !Truthy(user.displayName) && user.email.None?
    ensures r.Some? ==> var p := r.value;
      && p.userId == user.uid && p.postImage == media.uri
      && p.caption == Trim(caption) && p.location == Trim(location)
      && p.hashtags == ExtractHashtags(caption) && p.mentions == ExtractMentions(caption)
      && p.taggedUsers == taggedUsers
      && p.likes == 0 && p.saves == 0 && p.comments == [] && p.createdAt == now
    ensures r.Some? && Truthy(user.displayName) ==> r.value.username == user.displayName.value
    ensures r.Some? && !Truthy(user.displayName) ==>
      r.value.username == EmailPrefix(user.email.value) && '@' !in r.value.username
    ensures r.Some? && Truthy(user.photoURL) ==> r.value.userImage == user.photoURL.value
    ensures r.Some? && !Truthy(user.photoURL) ==> r.value.userImage == "https://picsum.photos/50/50?random=" + user.uid
  {
    if !Truthy(user.displayName) && user.email.None? then None
    else
      var username := if Truthy(user.displayName) then user.displayName.value else EmailPrefix(user.email.value);
      var userImage := if Truthy(user.photoURL) then user.photoURL.value
                       else "https://picsum.photos/50/50?random=" + user.uid;
      Some(PostData(user.uid, username, userImage, media.uri, Trim(caption), Trim(location),
                    ExtractHashtags(caption), ExtractMentions(caption), taggedUsers,
                    0, [], 0, now))
  }

  /** The hashtags offered under the caption. */
  const SuggestedTags: seq<string> := ["#instagram", "#photo", "#love", "#instagood", "#photooftheday", "#beautiful"]

  /** Pressing a suggested tag: append `' ' + tag` unless the caption already contains it. */
  function AppendSuggestion(caption: string, tag: string): (r: string)
    ensures Contains(r, tag)
    ensures caption <= r
    ensures Contains(caption, tag) <==> r == caption
  {
    if Contains(caption, tag) then caption
    else
      ContainsIffOccurs(tag, tag);
      assert OccursAt(tag, tag, 0);
      ContainsExtendLeft(caption + " ", tag, tag);
      caption + " " + tag
  }

  /** Pressing the same suggestion twice appends it once. */
  lemma AppendSuggestionIdempotent(caption: string, tag: string)
    ensures AppendSuggestion(AppendSuggestion(caption, tag), tag) == AppendSuggestion(caption, tag)
  {
  }

  /** '#photo' is found inside '#photooftheday', so after the latter the former adds nothing. */
  lemma PhotoInsidePhotoOfTheDay(caption: string)
    requires Contains(caption, "#photooftheday")
    ensures AppendSuggestion(caption, "#photo") == caption
  {
    ContainsIffOccurs(caption, "#photooftheday");
    var i :| OccursAt(caption, "#photooftheday", i);
    assert caption[i..i + 6] == caption[i..i + 14][..6] == "#photo";
    assert OccursAt(caption, "#photo", i);
    ContainsIffOccurs(caption, "#photo");
  }

  /** The alert closing a submission that passed the checks, given whether the record could be built. */
  function SubmitAlert(built: bool, reply: Reply<()>): Alert {
    if !built then Alert("Error", "Failed to create post")
    else match reply
      case Success(_) => Alert("Success", "Post created successfully!")
      case Failure(e) => Alert("Error", e)
      case Thrown => Alert("Error", "Failed to create post")
  }

  /** The state of the new-post form. */
  class PostForm {
    var selectedMedia: Option<Media>
    var caption: string
    var location: string
    var taggedUsers: seq<string>
    var loading: bool
    /** Every record handed to the backend's `createPost`, oldest first. */
    var submitted: seq<PostData>
    /** How often `onPostCreated` and `onClose` have been called. */
    var closedCount: nat

    constructor ()
      ensures selectedMedia == None && caption == "" && location == "" && taggedUsers == []
      ensures !loading && submitted == [] && closedCount == 0
    {
      selectedMedia, caption, location, taggedUsers := None, "", "", [];
      loading, submitted, closedCount := false, [], 0;
    }

    /** The share button is disabled while loading, without media or with a blank caption. */
    predicate SubmitDisabled()
      reads this
    {
      loading || selectedMedia.None? || IsBlank(caption)
    }

    /** The suggestions appear once the caption contains a '#'. */
    predicate SuggestionsVisible()
      reads this
    {
      Contains(caption, "#")
    }

    /**
     * `handleCreatePost`: the checks, then (with `loading` set) the record,
     * one `createPost` call whose reply is `reply`, and the closing alert.
     */
    method HandleCreatePost(user: User, now: string, reply: Reply<()>) returns (alert: Alert)
      modifies this`loading, this`submitted, this`closedCount
      ensures selectedMedia == old(selectedMedia) && caption == old(caption)
      ensures location == old(location) && taggedUsers == old(taggedUsers)
      ensures CheckPost(old(selectedMedia), old(caption)).Some? ==>
        && alert == Alert("Error", CheckPost(old(selectedMedia), old(caption)).value.Message())
        && loading == old(loading) && submitted == old(submitted) && closedCount == old(closedCount)
      ensures CheckPost(old(selectedMedia), old(caption)).None? ==>
        var post := BuildPost(user, old(selectedMedia).value, old(caption), old(location), old(taggedUsers), now);
        && !loading
        && submitted == old(submitted) + (if post.Some? then [post.value] else [])
        && closedCount == old(closedCount) + (if post.Some? && reply.Success? then 1 else 0)
        && alert == SubmitAlert(post.Some?, reply)
    {
      var check := CheckPost(selectedMedia, caption);
      if check.Some? {
        alert := Alert("Error", check.value.Message());
        return;
      }
      loading := true;
      var post := BuildPost(user, selectedMedia.value, caption, location, taggedUsers, now);
      if post.Some? {
        submitted := submitted + [post.value];
        if reply.Success? {
          closedCount := closedCount + 1;
        }
      }
      alert := SubmitAlert(post.Some?, reply);
      loading := false;
    }

    /** Pressing one of the suggested hashtags. */
    method PressSuggestion(k: nat)
      requires k < |SuggestedTags|
      requires SuggestionsVisible()
      modifies this`caption
      ensures caption == AppendSuggestion(old(caption), SuggestedTags[k])
    {
      if !Contains(caption, SuggestedTags[k]) {
        caption := caption + " " + SuggestedTags[k];
      }
    }
  }

  /** When the share button is enabled, the checks of `handleCreatePost` pass. */
  lemma EnabledSubmitPassesChecks(form: PostForm)
    requires !form.SubmitDisabled()
    ensures CheckPost(form.selectedMedia, form.caption) == None
  {
  }
}
