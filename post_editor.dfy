/**
 * The post editor: edits one post's content blocks in memory and builds the
 * post record handed to the dashboard's save handler.
 */
module PostEditor {
  import opened Base
  import opened Strings
  import opened Lists
  import opened Content

  /** The placeholder text of a new text block. */
  const TextPlaceholder: string := "<p>Start typing...</p>"

  /**
   * `handleAddBlock`: appends one block of the given kind at the end, ranked
   * after all existing blocks. `freshId` stands for `Date.now().toString()`.
   * The handler's parameter type admits only text, image and video blocks.
   */
  function AddBlock(blocks: seq<ContentBlock>, kind: BlockKind, freshId: string): (r: seq<ContentBlock>)
    requires kind != Quote
    ensures |r| == |blocks| + 1
    ensures r[..|blocks|] == blocks
    ensures r[|blocks|].id == freshId && r[|blocks|].kind == kind
    ensures r[|blocks|].order == |blocks|
    ensures r[|blocks|].content == if kind == Text then TextPlaceholder else ""
  {
    blocks + [ContentBlock(freshId, kind, if kind == Text then TextPlaceholder else "", |blocks|)]
  }

  /**
   * `handleUpdateBlock`: every block with the id gets the new content; ids,
   * kinds and ranks, and every other block, stay as they were.
   */
  function UpdateBlock(blocks: seq<ContentBlock>, id: string, content: string): (r: seq<ContentBlock>)
    ensures |r| == |blocks|
    ensures forall i :: 0 <= i < |r| ==>
      r[i].id == blocks[i].id && r[i].kind == blocks[i].kind && r[i].order == blocks[i].order
    ensures forall i :: 0 <= i < |r| ==>
      r[i].content == if blocks[i].id == id then content else blocks[i].content
  {
    seq(|blocks|, i requires 0 <= i < |blocks| =>
      if blocks[i].id == id then blocks[i].(content := content) else blocks[i])
  }

  /** Updating a block id that is not present changes nothing. */
  lemma UpdateUnknownId(blocks: seq<ContentBlock>, id: string, content: string)
    requires forall i :: 0 <= i < |blocks| ==> blocks[i].id != id
    ensures UpdateBlock(blocks, id, content) == blocks
  {
  }

  /** The test `block.id !== id` of `handleDeleteBlock`. */
  function IdIsNot(id: string): ContentBlock -> bool {
    (b: ContentBlock) => b.id != id
  }

  /**
   * `handleDeleteBlock`: removes every block with the id; the survivors keep
   * their relative order and their old `order` values (nothing is renumbered).
   */
  function DeleteBlock(blocks: seq<ContentBlock>, id: string): (r: seq<ContentBlock>)
    ensures forall i :: 0 <= i < |r| ==> r[i].id != id
    ensures IsSubsequence(r, blocks)
    ensures forall b :: multiset(r)[b] == if b.id != id then multiset(blocks)[b] else 0
  {
    FilterIsSubsequence(blocks, IdIsNot(id));
    forall b ensures multiset(Filter(blocks, IdIsNot(id)))[b] == if b.id != id then multiset(blocks)[b] else 0 {
      FilterCount(blocks, IdIsNot(id), b);
    }
    Filter(blocks, IdIsNot(id))
  }

  /** Deleting a block id that is not present changes nothing. */
  lemma DeleteUnknownId(blocks: seq<ContentBlock>, id: string)
    requires forall i :: 0 <= i < |blocks| ==> blocks[i].id != id
    ensures DeleteBlock(blocks, id) == blocks
  {
    FilterKeepsAll(blocks, IdIsNot(id));
  }

  datatype Direction = Up | Down

  /** `findIndex(block => block.id === id)`: the first index with the id, or -1. */
  function FindIndex(blocks: seq<ContentBlock>, id: string): (k: int)
    ensures -1 <= k < |blocks|
    ensures k >= 0 ==> blocks[k].id == id
    ensures forall j :: 0 <= j < |blocks| && (k == -1 || j < k) ==> blocks[j].id != id
  {
    if blocks == [] then -1
    else if blocks[0].id == id then 0
    else
      var k := FindIndex(blocks[1..], id);
      if k == -1 then -1 else k + 1
  }

  /** The early-return test of `handleMoveBlock`. */
  predicate AtBoundary(n: int, index: int, dir: Direction) {
    (dir == Up && index == 0) || (dir == Down && index == n - 1)
  }

  /** The slot a block at `index` is swapped with. */
  function Neighbour(index: int, dir: Direction): int {
    if dir == Up then index - 1 else index + 1
  }

  /** Where the block that ends at slot `k` came from when slots `i` and `j` swap. */
  function SwapSource(k: int, i: int, j: int): int {
    if k == i then j else if k == j then i else k
  }

  /**
   * What `handleMoveBlock` does: nothing at a boundary, a new list, or a
   * `TypeError` thrown by the renumbering loop.
   */
  datatype MoveOutcome = Unchanged | Moved(blocks: seq<ContentBlock>) | Crashed

  /** The blocks with their ranks cleared: what a block is apart from its position. */
  function Unranked(s: seq<ContentBlock>): (r: seq<ContentBlock>)
    ensures |r| == |s|
    ensures forall k :: 0 <= k < |s| ==> r[k] == s[k].(order := 0)
  {
    seq(|s|, k requires 0 <= k < |s| => s[k].(order := 0))
  }

  /**
   * `handleMoveBlock`: copies the list, swaps the first block with the id and
   * its neighbour in the given direction, then ranks every block by its new
   * index. At the first block going up, or the last going down, nothing
   * happens. For an id that is absent, going up swaps nothing (the swap
   * writes to index -1) but still renumbers; going down on a non-empty list
   * puts `undefined` in slot 0 and the renumbering throws.
   */
  method MoveBlock(blocks: seq<ContentBlock>, id: string, dir: Direction) returns (r: MoveOutcome)
    ensures AtBoundary(|blocks|, FindIndex(blocks, id), dir) ==> r == Unchanged
    ensures !AtBoundary(|blocks|, FindIndex(blocks, id), dir) && FindIndex(blocks, id) >= 0 ==>
      var index := FindIndex(blocks, id);
      r.Moved? && |r.blocks| == |blocks| &&
      forall k :: 0 <= k < |blocks| ==>
        r.blocks[k] == blocks[SwapSource(k, index, Neighbour(index, dir))].(order := k)
    ensures !AtBoundary(|blocks|, FindIndex(blocks, id), dir) && FindIndex(blocks, id) == -1 ==>
      if dir == Up then
        r.Moved? && |r.blocks| == |blocks| &&
        forall k :: 0 <= k < |blocks| ==> r.blocks[k] == blocks[k].(order := k)
      else r == Crashed
    ensures r.Moved? ==> |r.blocks| == |blocks| && forall k :: 0 <= k < |r.blocks| ==> r.blocks[k].order == k
    ensures r.Moved? ==> multiset(Unranked(r.blocks)) == multiset(Unranked(blocks))
  {
    var n := |blocks|;
    var index := FindIndex(blocks, id);
    if AtBoundary(n, index, dir) {
      return Unchanged;
    }
    var a := new ContentBlock[n](k requires 0 <= k < n => blocks[k]);
    var target := Neighbour(index, dir);
    if index >= 0 {
      a[index], a[target] := a[target], a[index];
    } else if dir == Down {
      return Crashed;
    } else {
      target := index;
    }
    ghost var swapped := a[..];
    assert forall k :: 0 <= k < n ==> swapped[k] == blocks[SwapSource(k, index, target)];
    var i := 0;
    while i < n
      invariant 0 <= i <= n
      invariant forall k :: 0 <= k < i ==> a[k] == swapped[k].(order := k)
      invariant forall k :: i <= k < n ==> a[k] == swapped[k]
    {
      a[i] := a[i].(order := i);
      i := i + 1;
    }
    r := Moved(a[..]);
    SwapKeepsUnranked(blocks, swapped, a[..], index, target);
  }

  /**
   * Swapping two slots (or none, when `i == j` or `i` is out of range) and
   * re-ranking loses and adds no block.
   */
  lemma SwapKeepsUnranked(s: seq<ContentBlock>, swapped: seq<ContentBlock>, r: seq<ContentBlock>, i: int, j: int)
    requires |swapped| == |s| == |r|
    requires (0 <= i < |s| && 0 <= j < |s|) || i == j
    requires forall k :: 0 <= k < |s| ==> swapped[k] == s[SwapSource(k, i, j)]
    requires forall k :: 0 <= k < |s| ==> r[k] == swapped[k].(order := k)
    ensures multiset(Unranked(r)) == multiset(Unranked(s))
  {
    var u := Unranked(s);
    if 0 <= i < |s| && 0 <= j < |s| {
      assert Unranked(r) == u[i := u[j]][j := u[i]];
    } else {
      assert Unranked(r) == u;
    }
  }

  /** The editor's form fields. */
  datatype EditorForm = EditorForm(
    title: string,
    slug: string,
    excerpt: string,
    status: Status,
    author: string,
    blocks: seq<ContentBlock>)

  /**
   * The form's initial state for the post being edited, or for a new post:
   * blank text, draft status, author "Admin User", no blocks.
   */
  function InitialForm(post: Option<Post>): (f: EditorForm)
    ensures post.None? ==> f == EditorForm("", "", "", Draft, "Admin User", [])
    ensures post.Some? ==>
      f.title == post.value.title && f.slug == post.value.slug && f.excerpt == post.value.excerpt &&
      f.status == post.value.status && f.blocks == post.value.contentBlocks
    ensures post.Some? ==> f.author == if post.value.author != "" then post.value.author else "Admin User"
    ensures f.author != ""
  {
    match post
    case None => EditorForm("", "", "", Draft, "Admin User", [])
    case Some(p) =>
      EditorForm(p.title, p.slug, p.excerpt, p.status, if p.author != "" then p.author else "Admin User", p.contentBlocks)
  }

  /** `post?.publishedAt || today`. */
  function PublishedOrToday(post: Option<Post>, today: string): string {
    if post.Some? && post.value.publishedAt.Some? && post.value.publishedAt.value != "" then post.value.publishedAt.value
    else today
  }

  /**
   * `handleSave`: the post record handed to the dashboard. `freshId` stands
   * for `Date.now().toString()` and `now` for the current ISO timestamp.
   */
  function SavedPost(post: Option<Post>, form: EditorForm, freshId: string, now: string): (r: Post)
    ensures r.id == if post.Some? && post.value.id != "" then post.value.id else freshId
    ensures r.title != "" && (form.title != "" ==> r.title == form.title)
    ensures r.slug != "" && (form.slug != "" ==> r.slug == form.slug)
    ensures r.excerpt == form.excerpt && r.status == form.status && r.contentBlocks == form.blocks
    ensures r.author == "Admin"
    ensures r.updatedAt == DatePart(now)
    ensures form.status == Published ==> r.publishedAt.Some?
    ensures form.status != Published ==> r.publishedAt == if post.Some? then post.value.publishedAt else None
  {
    Post(
      if post.Some? && post.value.id != "" then post.value.id else freshId,
      TitleOrDefault(form.title),
      SlugOrDerived(form.slug, form.title),
      form.excerpt,
      form.status,
      "Admin",
      if form.status == Published then Some(PublishedOrToday(post, DatePart(now)))
      else if post.Some? then post.value.publishedAt else None,
      DatePart(now),
      form.blocks)
  }

  /** A post published before keeps its publication date when saved again as published. */
  lemma RepublishKeepsDate(post: Post, form: EditorForm, freshId: string, now: string)
    requires post.publishedAt.Some? && post.publishedAt.value != ""
    requires form.status == Published
    ensures SavedPost(Some(post), form, freshId, now).publishedAt == post.publishedAt
  {
  }

  /** A post published for the first time is dated today. */
  lemma FirstPublishIsToday(post: Option<Post>, form: EditorForm, freshId: string, now: string)
    requires post.None? || post.value.publishedAt.None?
    requires form.status == Published
    ensures SavedPost(post, form, freshId, now).publishedAt == Some(DatePart(now))
  {
  }

  /** A blank title and slug are saved as "Untitled Post" and "untitled". */
  lemma BlankSave(post: Option<Post>, form: EditorForm, freshId: string, now: string)
    requires form.title == "" && form.slug == ""
    ensures SavedPost(post, form, freshId, now).title == UntitledTitle
    ensures SavedPost(post, form, freshId, now).slug == UntitledSlug
  {
  }
}
