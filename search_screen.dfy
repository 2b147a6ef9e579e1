/**
 * The search screen: case-insensitive filtering of the mock images and users,
 * the trending-tag list, and the list of recent searches.
 */
module Search {
  import opened Text
  import opened Seqs

  datatype Image = Image(id: int, uri: string, likes: int, user: string, caption: string, tags: seq<string>)

  datatype UserEntry = UserEntry(id: int, username: string, fullName: string, image: string, followers: string)

  /** The lower-cased caption, or some lower-cased tag, contains the lower-cased query. */
  predicate ImageMatches(img: Image, lowerQuery: string) {
    || Contains(Lower(img.caption), lowerQuery)
    || exists i | 0 <= i < |img.tags| :: Contains(Lower(img.tags[i]), lowerQuery)
  }

  /** The lower-cased user name or full name contains the lower-cased query. */
  predicate UserMatches(u: UserEntry, lowerQuery: string) {
    Contains(Lower(u.username), lowerQuery) || Contains(Lower(u.fullName), lowerQuery)
  }

  /** The image results of `handleSearch`: everything for an empty query, else the matching images. */
  function SearchImages(images: seq<Image>, text: string): (r: seq<Image>)
    ensures text == "" ==> r == images
    ensures forall i :: 0 <= i < |r| ==> r[i] in images
    ensures text != "" ==> forall i :: 0 <= i < |r| ==> ImageMatches(r[i], Lower(text))
    ensures forall i :: 0 <= i < |images| && ImageMatches(images[i], Lower(text)) ==> images[i] in r
  {
    if text == "" then images else Filter(img => ImageMatches(img, Lower(text)), images)
  }

  /** The user results of `handleSearch`: everyone for an empty query, else the matching users. */
  function SearchUsers(users: seq<UserEntry>, text: string): (r: seq<UserEntry>)
    ensures text == "" ==> r == users
    ensures forall i :: 0 <= i < |r| ==> r[i] in users
    ensures text != "" ==> forall i :: 0 <= i < |r| ==> UserMatches(r[i], Lower(text))
    ensures forall i :: 0 <= i < |users| && UserMatches(users[i], Lower(text)) ==> users[i] in r
  {
    if text == "" then users else Filter(u => UserMatches(u, Lower(text)), users)
  }

  /** Searching only removes results: both lists keep the relative order of the full lists. */
  lemma SearchPreservesOrder(images: seq<Image>, users: seq<UserEntry>, text: string)
    ensures IsSubsequence(SearchImages(images, text), images)
    ensures IsSubsequence(SearchUsers(users, text), users)
  {
    if text == "" {
      SubsequenceOfSelf(images);
      SubsequenceOfSelf(users);
    } else {
      FilterIsSubsequence(img => ImageMatches(img, Lower(text)), images);
      FilterIsSubsequence(u => UserMatches(u, Lower(text)), users);
    }
  }

  /**
   * The separate branch for the empty query is consistent with the filter:
   * every text contains the empty string, so filtering with it keeps everything.
   */
  lemma EmptyQueryFilterKeepsAll(images: seq<Image>, users: seq<UserEntry>)
    ensures Filter(img => ImageMatches(img, Lower("")), images) == images
    ensures Filter(u => UserMatches(u, Lower("")), users) == users
  {
    assert Lower("") == "";
    forall i | 0 <= i < |images| ensures ImageMatches(images[i], "") {
      assert Contains(Lower(images[i].caption), "");
    }
    forall i | 0 <= i < |users| ensures UserMatches(users[i], "") {
      assert Contains(Lower(users[i].username), "");
    }
    FilterKeepsAll(img => ImageMatches(img, Lower("")), images);
    FilterKeepsAll(u => UserMatches(u, Lower("")), users);
  }

  /** The tags offered on the tags tab. */
  const TrendingTags: seq<string> :=
    ["#nature", "#photography", "#travel", "#food", "#art", "#love", "#instagood", "#fashion", "#beautiful", "#happy"]

  /** The tags tab: the trending tags containing the lower-cased query (the tags themselves are not lowered). */
  function TagResults(searchText: string): (r: seq<string>)
    ensures forall i :: 0 <= i < |r| ==> r[i] in TrendingTags && Contains(r[i], Lower(searchText))
    ensures forall i :: 0 <= i < |TrendingTags| && Contains(TrendingTags[i], Lower(searchText)) ==> TrendingTags[i] in r
  {
    Filter(tag => Contains(tag, Lower(searchText)), TrendingTags)
  }

  /** How many recent searches are kept. */
  const MaxRecent := 5

  /**
   * `addRecentSearch`: the item first, then the earlier entries without its
   * other copies, cut to the first five.
   */
  function AddRecent(prev: seq<string>, item: string): (r: seq<string>)
    ensures 1 <= |r| <= MaxRecent
    ensures r[0] == item
    ensures forall i :: 1 <= i < |r| ==> r[i] != item
    ensures r[1..] <= Filter(s => s != item, prev)
    ensures |r| == if 1 + |Filter(s => s != item, prev)| < MaxRecent then 1 + |Filter(s => s != item, prev)| else MaxRecent
  {
    var all := [item] + Filter(s => s != item, prev);
    if |all| < MaxRecent then all else all[..MaxRecent]
  }

  /** Recording the same search twice in a row is the same as recording it once. */
  lemma {:induction false} AddRecentIdempotent(prev: seq<string>, item: string)
    ensures AddRecent(AddRecent(prev, item), item) == AddRecent(prev, item)
  {
    var r := AddRecent(prev, item);
    FilterKeepsAll(s => s != item, r[1..]);
    assert r == [r[0]] + r[1..];
    FilterConcat(s => s != item, [r[0]], r[1..]);
    assert Filter(s => s != item, [r[0]]) == [];
    assert Filter(s => s != item, r) == r[1..];
  }

  /** A recent-search list without repeats stays without repeats. */
  lemma AddRecentKeepsDistinct(prev: seq<string>, item: string)
    requires Distinct(prev)
    ensures Distinct(AddRecent(prev, item))
  {
    FilterDistinct(s => s != item, prev);
  }

  /** The state of the search screen. */
  class SearchScreen {
    const mockImages: seq<Image>
    const mockUsers: seq<UserEntry>
    var searchText: string
    var filteredImages: seq<Image>
    var filteredUsers: seq<UserEntry>
    var loading: bool
    var recentSearches: seq<string>

    constructor (images: seq<Image>, users: seq<UserEntry>)
      ensures mockImages == images && mockUsers == users
      ensures searchText == "" && filteredImages == images && filteredUsers == users && !loading
      ensures recentSearches == ["#nature", "john_doe", "#travel"]
    {
      mockImages, mockUsers := images, users;
      searchText, filteredImages, filteredUsers, loading := "", images, users, false;
      recentSearches := ["#nature", "john_doe", "#travel"];
    }

    /** `handleSearch`: record the query, then (after the simulated delay) the filtered lists. */
    method HandleSearch(text: string)
      modifies this
      ensures searchText == text && !loading
      ensures filteredImages == SearchImages(mockImages, text)
      ensures filteredUsers == SearchUsers(mockUsers, text)
      ensures recentSearches == old(recentSearches)
    {
      searchText := text;
      loading := true;
      if text == "" {
        filteredImages := mockImages;
        filteredUsers := mockUsers;
      } else {
        var lowerText := Lower(text);
        filteredImages := Filter(img => ImageMatches(img, lowerText), mockImages);
        filteredUsers := Filter(u => UserMatches(u, lowerText), mockUsers);
      }
      loading := false;
    }

    /** `clearSearch`: empty query and the full lists again. */
    method ClearSearch()
      modifies this
      ensures searchText == "" && filteredImages == mockImages && filteredUsers == mockUsers
      ensures loading == old(loading) && recentSearches == old(recentSearches)
    {
      searchText := "";
      filteredImages := mockImages;
      filteredUsers := mockUsers;
    }

    method AddRecentSearch(item: string)
      modifies this`recentSearches
      ensures recentSearches == AddRecent(old(recentSearches), item)
    {
      var all := [item] + Filter(s => s != item, recentSearches);
      recentSearches := if |all| < MaxRecent then all else all[..MaxRecent];
    }
  }
}
