/**
 * The post document model shared by every screen: a post and its ordered,
 * typed content blocks, the title and slug fallbacks applied when a post is
 * saved, and the ordering of blocks by their `order` rank.
 */
module Content {
  import opened Base
  import opened Strings

  /** The four kinds of content block; the payload's meaning depends on it. */
  datatype BlockKind = Text | Image | Video | Quote

  /** One content item of a post. `order` is its display rank. */
  datatype ContentBlock = ContentBlock(id: string, kind: BlockKind, content: string, order: int)

  datatype Status = Draft | Published | Scheduled

  /** A blog post with its content blocks, as the dashboard caches it. */
  datatype Post = Post(
    id: string,
    title: string,
    slug: string,
    excerpt: string,
    status: Status,
    author: string,
    publishedAt: Option<string>,
    updatedAt: string,
    contentBlocks: seq<ContentBlock>)

  const UntitledTitle: string := "Untitled Post"
  const UntitledSlug: string := "untitled"

  /** `title || "Untitled Post"`. */
  function TitleOrDefault(title: string): (r: string)
    ensures r != ""
    ensures title != "" ==> r == title
  {
    if title != "" then title else UntitledTitle
  }

  /** `title.toLowerCase().replace(/\s+/g, "-")`. */
  function SlugFromTitle(title: string): string {
    DashRuns(Lower(title))
  }

  /** `slug || title.toLowerCase().replace(/\s+/g, "-") || "untitled"`. */
  function SlugOrDerived(slug: string, title: string): (r: string)
    ensures r != ""
    ensures slug != "" ==> r == slug
  {
    if slug != "" then slug
    else if SlugFromTitle(title) != "" then SlugFromTitle(title)
    else UntitledSlug
  }

  /**
   * A blank slug with a non-empty title is derived from the title: the
   * "untitled" fallback never applies, and the derived slug holds no
   * whitespace and no upper-case ASCII letter.
   */
  lemma DerivedSlug(title: string)
    requires title != ""
    ensures SlugOrDerived("", title) == SlugFromTitle(title)
    ensures NoSpace(SlugOrDerived("", title))
    ensures forall i :: 0 <= i < |SlugOrDerived("", title)| ==> !('A' <= SlugOrDerived("", title)[i] <= 'Z')
  {
    DashRunsShape(Lower(title));
    DashRunsKeepsCase(Lower(title));
  }

  /** Replacing whitespace runs introduces no upper-case letter. */
  lemma {:induction false} DashRunsKeepsCase(s: string)
    requires forall i :: 0 <= i < |s| ==> !('A' <= s[i] <= 'Z')
    ensures forall i :: 0 <= i < |DashRuns(s)| ==> !('A' <= DashRuns(s)[i] <= 'Z')
  {
    if s != [] {
      var tail := if IsSpace(s[0]) then DropSpaces(s[1..]) else s[1..];
      DashRunsKeepsCase(tail);
    }
  }

  /**
   * The fallbacks look only at the empty string: a title made only of
   * whitespace is kept as the title and yields the slug "-".
   */
  lemma WhitespaceTitle(title: string)
    requires title != [] && forall i :: 0 <= i < |title| ==> IsSpace(title[i])
    ensures TitleOrDefault(title) == title
    ensures SlugOrDerived("", title) == "-"
  {
    LowerKeepsSpaces(title);
    DashRunsOfSpaces(title);
  }

  /** Applying the fallbacks to an already saved title and slug changes nothing. */
  lemma FallbacksIdempotent(slug: string, title: string)
    ensures TitleOrDefault(TitleOrDefault(title)) == TitleOrDefault(title)
    ensures SlugOrDerived(SlugOrDerived(slug, title), TitleOrDefault(title)) == SlugOrDerived(slug, title)
  {
  }

  /** The blocks appear in ascending `order`. */
  predicate SortedByOrder(s: seq<ContentBlock>) {
    forall i, j :: 0 <= i < j < |s| ==> s[i].order <= s[j].order
  }

  /** Inserts `b` before the first block with a larger `order`. */
  function InsertByOrder(b: ContentBlock, s: seq<ContentBlock>): (r: seq<ContentBlock>)
    ensures |r| == |s| + 1
    ensures multiset(r) == multiset(s) + multiset{b}
    ensures r[0] == b || (s != [] && r[0] == s[0])
  {
    if s == [] || b.order <= s[0].order then [b] + s
    else
      assert s == [s[0]] + s[1..];
      [s[0]] + InsertByOrder(b, s[1..])
  }

  /** Inserting into a sequence in ascending `order` keeps it in ascending `order`. */
  lemma {:induction false} InsertKeepsSorted(b: ContentBlock, s: seq<ContentBlock>)
    requires SortedByOrder(s)
    ensures SortedByOrder(InsertByOrder(b, s))
  {
    if s != [] && b.order > s[0].order {
      var rest := InsertByOrder(b, s[1..]);
      InsertKeepsSorted(b, s[1..]);
      var r := [s[0]] + rest;
      assert s[0].order <= rest[0].order;
      forall i, j | 0 <= i < j < |r| ensures r[i].order <= r[j].order {
        if i == 0 && j > 1 {
          assert rest[0].order <= rest[j - 1].order;
        }
      }
    }
  }

  /**
   * `blocks.sort((a, b) => a.order - b.order)` on a fresh array: the same
   * blocks, in ascending `order`.
   */
  function SortByOrder(s: seq<ContentBlock>): (r: seq<ContentBlock>)
    ensures SortedByOrder(r)
    ensures multiset(r) == multiset(s)
    ensures |r| == |s|
  {
    if s == [] then []
    else
      assert s == [s[0]] + s[1..];
      InsertKeepsSorted(s[0], SortByOrder(s[1..]));
      InsertByOrder(s[0], SortByOrder(s[1..]))
  }

  /** Sorting a sequence that is already in ascending `order` leaves it as it is. */
  lemma {:induction false} SortOfSorted(s: seq<ContentBlock>)
    requires SortedByOrder(s)
    ensures SortByOrder(s) == s
  {
    if s != [] {
      SortOfSorted(s[1..]);
      assert s == [s[0]] + s[1..];
    }
  }
}
