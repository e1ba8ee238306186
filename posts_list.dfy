/**
 * The posts list: a case-insensitive search over titles and excerpts, and
 * the message shown when nothing is listed.
 */
module PostsList {
  import opened Base
  import opened Strings
  import opened Lists
  import opened Content

  /** A post is listed when its lower-cased title or excerpt contains the lower-cased query. */
  predicate Matches(post: Post, query: string) {
    Contains(Lower(post.title), Lower(query)) || Contains(Lower(post.excerpt), Lower(query))
  }

  function MatchesQuery(query: string): Post -> bool {
    (p: Post) => Matches(p, query)
  }

  /**
   * `filteredPosts`: exactly the posts that match, each as often as it was
   * listed, in their original relative order.
   */
  function FilteredPosts(posts: seq<Post>, query: string): (r: seq<Post>)
    ensures IsSubsequence(r, posts)
    ensures forall i :: 0 <= i < |r| ==> Matches(r[i], query)
    ensures forall p :: multiset(r)[p] == if Matches(p, query) then multiset(posts)[p] else 0
  {
    FilterIsSubsequence(posts, MatchesQuery(query));
    forall p ensures multiset(Filter(posts, MatchesQuery(query)))[p] == if Matches(p, query) then multiset(posts)[p] else 0 {
      FilterCount(posts, MatchesQuery(query), p);
    }
    Filter(posts, MatchesQuery(query))
  }

  /** The matching test is a substring occurrence, spelled out by position. */
  lemma MatchesAt(post: Post, query: string)
    ensures Matches(post, query) <==>
      (exists i :: OccursAt(Lower(post.title), Lower(query), i)) ||
      (exists i :: OccursAt(Lower(post.excerpt), Lower(query), i))
  {
    ContainsAt(Lower(post.title), Lower(query));
    ContainsAt(Lower(post.excerpt), Lower(query));
  }

  /** An empty query lists every post. */
  lemma EmptyQueryKeepsAll(posts: seq<Post>)
    ensures FilteredPosts(posts, "") == posts
  {
    forall i | 0 <= i < |posts| ensures MatchesQuery("")(posts[i]) {
      ContainsEmpty(Lower(posts[i].title));
    }
    FilterKeepsAll(posts, MatchesQuery(""));
  }

  /** Searching the search result again with the same query changes nothing. */
  lemma FilterTwice(posts: seq<Post>, query: string)
    ensures FilteredPosts(FilteredPosts(posts, query), query) == FilteredPosts(posts, query)
  {
    FilterIdempotent(posts, MatchesQuery(query));
  }

  /** The query's letter case does not matter. */
  lemma QueryCaseIgnored(posts: seq<Post>, query: string)
    ensures FilteredPosts(posts, Lower(query)) == FilteredPosts(posts, query)
  {
    assert Lower(Lower(query)) == Lower(query);
    FilterSameTest(posts, MatchesQuery(Lower(query)), MatchesQuery(query));
  }

  const NoMatchHint: string := "Try adjusting your search"
  const NoPostsHint: string := "Create your first post to get started"

  /** The hint under "No posts found", shown only when nothing is listed. */
  function EmptyListHint(filtered: seq<Post>, query: string): (hint: Option<string>)
    ensures hint.Some? <==> filtered == []
    ensures hint.Some? ==> (hint.value == NoMatchHint <==> query != "")
    ensures hint.Some? ==> (hint.value == NoPostsHint <==> query == "")
  {
    if filtered != [] then None
    else if query != "" then Some(NoMatchHint)
    else Some(NoPostsHint)
  }
}
