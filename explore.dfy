/**
 * The explore feed: an infinite-scroll loader that replaces the list on the
 * first load, appends only unseen posts on later loads, infers the end of
 * the feed from a short page, and filters the loaded posts by tag.
 */
module Explore {
  import opened Wrappers
  import opened Http
  import opened PostService
  import Text

  /** The "all" entry of the tag filter. */
  const AllTag := "전체"
  const PageSize := 10
  const LoginRequiredMessage := "로그인이 필요합니다."
  const LoadFailedMessage := "게시글을 불러오는데 실패했습니다."

  /** The ids present in a list of posts. */
  function Ids(posts: seq<Post>): set<string> {
    set p | p in posts :: p.id
  }

  /** No id occurs twice. */
  predicate DistinctIds(posts: seq<Post>) {
    forall i, j :: 0 <= i < j < |posts| ==> posts[i].id != posts[j].id
  }

  /** `page.filter(post => !seen.has(post.id))`. */
  function NewPosts(page: seq<Post>, seen: set<string>): (r: seq<Post>)
    ensures |r| <= |page|
    ensures forall p :: p in r ==> p in page && p.id !in seen
    ensures forall p :: p in page && p.id !in seen ==> p in r
  {
    if page == [] then []
    else (if page[0].id in seen then [] else [page[0]]) + NewPosts(page[1..], seen)
  }

  /**
   * A later load: the old list, then the page's posts whose id the old list
   * does not hold, in page order.
   */
  function AppendUnique(prev: seq<Post>, page: seq<Post>): (r: seq<Post>)
    ensures |prev| <= |r| <= |prev| + |page|
    ensures r[..|prev|] == prev
    ensures forall p :: p in r[|prev|..] ==> p in page && p.id !in Ids(prev)

  {
    var r := prev + NewPosts(page, Ids(prev));
    assert r[..|prev|] == prev;
    assert r[|prev|..] == NewPosts(page, Ids(prev));
    r
  }

  /** Every id seen so far or just fetched is in the list afterwards, and no other. */
  lemma AppendUniqueIds(prev: seq<Post>, page: seq<Post>)
    ensures Ids(AppendUnique(prev, page)) == Ids(prev) + Ids(page)
  {
    var r := AppendUnique(prev, page);
    var unseen := NewPosts(page, Ids(prev));
    assert r == prev + unseen;
    forall id | id in Ids(page) ensures id in Ids(r) {
      var p :| p in page && p.id == id;
      if id !in Ids(prev) {
        assert p in unseen;
        assert p in r;
      }
    }
  }

  /** Filtering page by page is filtering the whole: new posts keep their page order. */
  lemma {:induction false} NewPostsOfConcat(a: seq<Post>, b: seq<Post>, seen: set<string>)
    ensures NewPosts(a + b, seen) == NewPosts(a, seen) + NewPosts(b, seen)
  {
    if a != [] {
      assert (a + b)[0] == a[0];
      assert (a + b)[1..] == a[1..] + b;
      NewPostsOfConcat(a[1..], b, seen);
    } else {
      assert a + b == b;
    }
  }

  lemma {:induction false} NewPostsDistinct(page: seq<Post>, seen: set<string>)
    requires DistinctIds(page)
    ensures DistinctIds(NewPosts(page, seen))
  {
    if page != [] {
      var rest := NewPosts(page[1..], seen);
      NewPostsDistinct(page[1..], seen);
      forall p | p in rest ensures p.id != page[0].id {
        var j :| 0 <= j < |page[1..]| && page[1..][j] == p;
        assert page[j + 1] == p;
      }
      var head := if page[0].id in seen then [] else [page[0]];
      var r := head + rest;
      forall i, j | 0 <= i < j < |r| ensures r[i].id != r[j].id {
        if head != [] && i == 0 {
          assert r[j] == rest[j - 1];
          assert r[j] in rest;
        } else {
          assert r[i] == rest[i - |head|] && r[j] == rest[j - |head|];
        }
      }
    }
  }

  /** No duplicate is introduced: if the old list and the page each have distinct ids, so does the result. */
  lemma AppendUniqueDistinct(prev: seq<Post>, page: seq<Post>)
    requires DistinctIds(prev) && DistinctIds(page)
    ensures DistinctIds(AppendUnique(prev, page))
  {
    var unseen := NewPosts(page, Ids(prev));
    NewPostsDistinct(page, Ids(prev));
    var r := prev + unseen;
    forall i, j | 0 <= i < j < |r| ensures r[i].id != r[j].id {
      if j >= |prev| && i < |prev| {
        assert r[j] == unseen[j - |prev|];
        assert r[j] in unseen;
        assert r[i] in prev;
      } else if i >= |prev| {
        assert r[i] == unseen[i - |prev|] && r[j] == unseen[j - |prev|];
      }
    }
  }

  /** The feed after a first page and any number of later pages, each appended with dedup. */
  function Accumulate(feed: seq<Post>, pages: seq<seq<Post>>): seq<Post>
    decreases |pages|
  {
    if pages == [] then feed else Accumulate(AppendUnique(feed, pages[0]), pages[1..])
  }

  /**
   * However the pages overlap, as long as each page is free of repeats the
   * feed holds every id once, and what was shown stays in place.
   */
  lemma {:induction false} AccumulateDistinct(feed: seq<Post>, pages: seq<seq<Post>>)
    requires DistinctIds(feed)
    requires forall i :: 0 <= i < |pages| ==> DistinctIds(pages[i])
    ensures DistinctIds(Accumulate(feed, pages))
    ensures |Accumulate(feed, pages)| >= |feed| && Accumulate(feed, pages)[..|feed|] == feed
    decreases |pages|
  {
    if pages != [] {
      var next := AppendUnique(feed, pages[0]);
      AppendUniqueDistinct(feed, pages[0]);
      AccumulateDistinct(next, pages[1..]);
      var r := Accumulate(feed, pages);
      assert r[..|next|][..|feed|] == r[..|feed|];
    }
  }

  /** Duplicates inside one page are not removed. */
  lemma DuplicatesInPageKept(p: Post)
    ensures AppendUnique([], [p, p]) == [p, p]
  {
    assert NewPosts([p], {}) == [p];
  }

  lemma {:induction false} NewPostsAllUnseen(page: seq<Post>, seen: set<string>)
    requires forall p :: p in page ==> p.id !in seen
    ensures NewPosts(page, seen) == page
  {
    if page != [] {
      assert page[0] in page;
      NewPostsAllUnseen(page[1..], seen);
    }
  }

  // -------------------------------------------------------------------
  // Tag filter.

  /** Some tag of the post equals `tag` up to letter case. */
  predicate HasTag(p: Post, tag: string) {
    exists i :: 0 <= i < |p.tags| && Text.ToLower(p.tags[i]) == Text.ToLower(tag)
  }

  function TagMatches(posts: seq<Post>, tag: string): (r: seq<Post>)
    ensures |r| <= |posts|
    ensures forall p :: p in r <==> p in posts && HasTag(p, tag)
  {
    if posts == [] then []
    else (if HasTag(posts[0], tag) then [posts[0]] else []) + TagMatches(posts[1..], tag)
  }

  /** `filteredPosts`: every post for the "all" tag, else the tag's posts. */
  function FilteredPosts(posts: seq<Post>, selectedTag: string): (r: seq<Post>)
    ensures selectedTag == AllTag ==> r == posts
    ensures selectedTag != AllTag ==> forall p :: p in r <==> p in posts && HasTag(p, selectedTag)
  {
    if selectedTag == AllTag then posts else TagMatches(posts, selectedTag)
  }

  /** The filter keeps the feed's order: filtering a concatenation concatenates the filtered parts. */
  lemma {:induction false} TagMatchesOfConcat(a: seq<Post>, b: seq<Post>, tag: string)
    ensures TagMatches(a + b, tag) == TagMatches(a, tag) + TagMatches(b, tag)
  {
    if a != [] {
      assert (a + b)[0] == a[0];
      assert (a + b)[1..] == a[1..] + b;
      TagMatchesOfConcat(a[1..], b, tag);
    } else {
      assert a + b == b;
    }
  }

  // -------------------------------------------------------------------
  // Errors and the scroll guard.

  /** Load errors: 401 first, then a server message, then the generic text. */
  function LoadErrorMessage(e: RequestError): (r: string)
    ensures HasStatus(e, 401) ==> r == LoginRequiredMessage
    ensures !HasStatus(e, 401) && HasMessage(e) ==> r == Message(e)
    ensures !HasStatus(e, 401) && !HasMessage(e) ==> r == LoadFailedMessage
  {
    if HasStatus(e, 401) then LoginRequiredMessage
    else if HasMessage(e) then Message(e)
    else LoadFailedMessage
  }

  /** The sentinel asks for the next page only while this holds. */
  predicate ShouldLoadMore(isIntersecting: bool, hasNextPage: bool, isLoading: bool, selectedTag: string)
    ensures selectedTag != AllTag ==> !ShouldLoadMore(isIntersecting, hasNextPage, isLoading, selectedTag)
    ensures isLoading || !hasNextPage ==> !ShouldLoadMore(isIntersecting, hasNextPage, isLoading, selectedTag)
  {
    isIntersecting && hasNextPage && !isLoading && selectedTag == AllTag
  }

  // -------------------------------------------------------------------
  // The loader's state.

  class FeedLoader {
    var posts: seq<Post>
    var selectedTag: string
    var isLoading: bool
    var error: Option<string>
    var currentPage: int
    var hasNextPage: bool

    constructor ()
      ensures posts == [] && selectedTag == AllTag && !isLoading && error == None
      ensures currentPage == 1 && hasNextPage
    {
      posts := [];
      selectedTag := AllTag;
      isLoading := false;
      error := None;
      currentPage := 1;
      hasNextPage := true;
    }

    /**
     * `loadPosts(page, isFirstLoad)`; `response` is what `GET /posts` answers.
     * A call while a load is in flight is dropped.
     */
    method LoadPosts(page: int, isFirstLoad: bool, response: Result<ListBody, RequestError>)
      modifies this
      ensures old(isLoading) ==> unchanged(this)
      ensures !old(isLoading) ==> !isLoading && selectedTag == old(selectedTag)
      ensures !old(isLoading) && response.Success? ==>
        var fetched := FetchPosts(response.value, page, PageSize);
        && posts == (if isFirstLoad then fetched else AppendUnique(old(posts), fetched))
        && hasNextPage == (|fetched| == PageSize)
        && currentPage == page
        && error == None
      ensures !old(isLoading) && response.Failure? ==>
        && posts == old(posts) && currentPage == old(currentPage) && hasNextPage == old(hasNextPage)
        && error == Some(LoadErrorMessage(response.error))
      ensures (!old(isLoading) && response.Success? && DistinctIds(FetchPosts(response.value, page, PageSize))
        && (isFirstLoad || DistinctIds(old(posts)))) ==> DistinctIds(posts)
    {
      if isLoading {
        return;
      }
      isLoading := true;
      error := None;
      match response {
        case Success(body) =>
          var newPosts := FetchPosts(body, page, PageSize);
          if isFirstLoad {
            posts := newPosts;
          } else {
            AppendUniqueDistinctWhen(posts, newPosts);
            posts := AppendUnique(posts, newPosts);
          }
          hasNextPage := |newPosts| == PageSize;
          currentPage := page;
        case Failure(e) =>
          error := Some(LoadErrorMessage(e));
      }
      isLoading := false;
    }

    /** The sentinel became visible (or not); loads the next page when the guard allows. */
    method OnIntersect(isIntersecting: bool, response: Result<ListBody, RequestError>)
      modifies this
      ensures !ShouldLoadMore(isIntersecting, old(hasNextPage), old(isLoading), old(selectedTag)) ==> unchanged(this)
      ensures ShouldLoadMore(isIntersecting, old(hasNextPage), old(isLoading), old(selectedTag)) && response.Success? ==>
        var fetched := FetchPosts(response.value, old(currentPage) + 1, PageSize);
        && posts == AppendUnique(old(posts), fetched)
        && currentPage == old(currentPage) + 1
        && hasNextPage == (|fetched| == PageSize)
        && !isLoading && error == None && selectedTag == old(selectedTag)
      ensures ShouldLoadMore(isIntersecting, old(hasNextPage), old(isLoading), old(selectedTag)) && response.Failure? ==>
        && posts == old(posts) && currentPage == old(currentPage) && hasNextPage
        && !isLoading && error == Some(LoadErrorMessage(response.error)) && selectedTag == old(selectedTag)
    {
      if ShouldLoadMore(isIntersecting, hasNextPage, isLoading, selectedTag) {
        LoadPosts(currentPage + 1, false, response);
      }
    }

    /** Choosing a tag only changes the filter; nothing is fetched. */
    method HandleTagChange(tag: string)
      modifies this`selectedTag
      ensures selectedTag == tag
    {
      selectedTag := tag;
    }

    /** The retry button: start over from an empty list and page 1. */
    method HandleRetry(response: Result<ListBody, RequestError>)
      modifies this
      ensures old(isLoading) ==>
        posts == [] && currentPage == 1 && hasNextPage && isLoading
        && error == old(error) && selectedTag == old(selectedTag)
      ensures !old(isLoading) && response.Success? ==>
        var fetched := FetchPosts(response.value, 1, PageSize);
        posts == fetched && currentPage == 1 && hasNextPage == (|fetched| == PageSize)
        && !isLoading && error == None && selectedTag == old(selectedTag)
      ensures !old(isLoading) && response.Failure? ==>
        posts == [] && currentPage == 1 && hasNextPage
        && !isLoading && error == Some(LoadErrorMessage(response.error)) && selectedTag == old(selectedTag)
    {
      posts := [];
      currentPage := 1;
      hasNextPage := true;
      LoadPosts(1, true, response);
    }
  }

  lemma AppendUniqueDistinctWhen(prev: seq<Post>, page: seq<Post>)
    ensures DistinctIds(prev) && DistinctIds(page) ==> DistinctIds(AppendUnique(prev, page))
  {
    if DistinctIds(prev) && DistinctIds(page) {
      AppendUniqueDistinct(prev, page);
    }
  }

  // -------------------------------------------------------------------
  // The feed against the server's list.

  /** The list after a first load of page 1 and continuation loads of pages 2..k. */
  function FeedAfter(body: ListBody, k: nat): seq<Post>
    requires k >= 1
  {
    if k == 1 then FetchPosts(body, 1, PageSize)
    else AppendUnique(FeedAfter(body, k - 1), FetchPosts(body, k, PageSize))
  }

  /**
   * When the server's ids are distinct, the feed after k loads is exactly
   * the first k pages: nothing skipped, nothing repeated, server order.
   */
  lemma {:induction false} FeedIsServerPrefix(body: ListBody, k: nat)
    requires k >= 1
    requires DistinctIds(AllPosts(body))
    ensures FeedAfter(body, k) == AllPosts(body)[..Min(StartIndex(k + 1, PageSize), |AllPosts(body)|)]
  {
    if k > 1 {
      FeedIsServerPrefix(body, k - 1);
      assert k - 1 + 1 == k;
    }
    FeedStep(body, k);
    StartIndexStep(k, PageSize);
  }

  /** One load step of FeedIsServerPrefix: the next page extends the prefix read so far. */
  lemma FeedStep(body: ListBody, k: nat)
    requires k >= 1
    requires DistinctIds(AllPosts(body))
    requires k > 1 ==> FeedAfter(body, k - 1) == AllPosts(body)[..Min(StartIndex(k, PageSize), |AllPosts(body)|)]
    ensures FeedAfter(body, k) == AllPosts(body)[..Min(StartIndex(k, PageSize) + PageSize, |AllPosts(body)|)]
  {
    var all := AllPosts(body);
    var start := StartIndex(k, PageSize);
    var b := Min(start, |all|);
    var c := Min(start + PageSize, |all|);
    var page := FetchPosts(body, k, PageSize);
    assert page == all[b..c] by {
      PageIsWindow(body, k, PageSize);
    }
    if k == 1 {
      assert b == 0;
      assert all[0..c] == all[..c];
    } else {
      assert AppendUnique(all[..b], all[b..c]) == all[..c] by {
        AppendWindow(all, b, c);
      }
    }
  }

  /** Appending the next window of a list with distinct ids to its prefix extends the prefix. */
  lemma AppendWindow(all: seq<Post>, b: nat, c: nat)
    requires DistinctIds(all) && b <= c <= |all|
    ensures AppendUnique(all[..b], all[b..c]) == all[..c]
  {
    var prev, window := all[..b], all[b..c];
    assert NewPosts(window, Ids(prev)) == window by {
      WindowUnseen(all, b, c);
      NewPostsAllUnseen(window, Ids(prev));
    }
    assert AppendUnique(prev, window) == prev + window;
    assert prev + window == all[..c];
  }

  /** In a list with distinct ids, a window holds no id of the part before it. */
  lemma WindowUnseen(all: seq<Post>, b: nat, c: nat)
    requires DistinctIds(all) && b <= c <= |all|
    ensures forall p :: p in all[b..c] ==> p.id !in Ids(all[..b])
  {
    forall p | p in all[b..c] ensures p.id !in Ids(all[..b]) {
      var j :| 0 <= j < c - b && all[b..c][j] == p;
      assert all[b + j] == p;
    }
  }

  /**
   * A short page ends the feed: the loader stops asking, and every later
   * page would have been empty, so nothing is missed.
   */
  lemma ShortPageEndsFeed(body: ListBody, p: int, q: int, isIntersecting: bool, isLoading: bool)
    requires 1 <= p < q
    requires |FetchPosts(body, p, PageSize)| < PageSize
    ensures !ShouldLoadMore(isIntersecting, |FetchPosts(body, p, PageSize)| == PageSize, isLoading, AllTag)
    ensures FetchPosts(body, q, PageSize) == []
  {
    ShortPageIsLast(body, PageSize, p, q);
  }
}
