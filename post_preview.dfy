/**
 * The post preview: sorts the post's blocks by `order` in place and picks a
 * rendering for each block by its kind.
 */
module PostPreview {
  import opened Base
  import opened Content

  /** What one block renders as. */
  datatype Rendered =
    | RawHtml(html: string)      // a `div` whose inner HTML is the content
    | Picture(src: string)       // an `img`
    | VideoPlayer(src: string)   // a `video` with controls
    | Nothing                    // `null`

  /** The image shown for an image block with no URL. */
  const ImagePlaceholder: string := "/placeholder.svg?height=400&width=800"

  /**
   * `renderContentBlock`: text is injected as HTML, an image and a video use
   * the content as their source (an image falls back to a placeholder), and
   * a quote renders nothing.
   */
  function RenderContentBlock(block: ContentBlock): (r: Rendered)
    ensures block.kind == Text ==> r == RawHtml(block.content)
    ensures block.kind == Image ==> r.Picture? && (block.content != "" ==> r.src == block.content)
    ensures block.kind == Image && block.content == "" ==> r == Picture(ImagePlaceholder)
    ensures block.kind == Video ==> r == VideoPlayer(block.content)
    ensures r == Nothing <==> block.kind == Quote
    ensures r.Picture? ==> r.src != ""
  {
    match block.kind
    case Text => RawHtml(block.content)
    case Image => Picture(if block.content != "" then block.content else ImagePlaceholder)
    case Video => VideoPlayer(block.content)
    case Quote => Nothing
  }

  /** The block area: the empty-state panel, or the rendered blocks. */
  datatype Body = EmptyState | Blocks(rendered: seq<Rendered>)

  /**
   * `contentBlocks.sort((a, b) => a.order - b.order)`: sorts the caller's
   * array in place into ascending `order`, keeping the same blocks.
   */
  method SortByOrderInPlace(a: array<ContentBlock>)
    modifies a
    ensures SortedByOrder(a[..])
    ensures multiset(a[..]) == old(multiset(a[..]))
  {
    var i := 0;
    while i < a.Length
      invariant 0 <= i <= a.Length
      invariant forall p, q :: 0 <= p < q < i ==> a[p].order <= a[q].order
      invariant multiset(a[..]) == old(multiset(a[..]))
    {
      InsertIntoSorted(a, i);
      i := i + 1;
    }
  }

  /** Moves `a[i]` down into the sorted prefix `a[..i]`, leaving `a[..i + 1]` sorted. */
  method InsertIntoSorted(a: array<ContentBlock>, i: int)
    requires 0 <= i < a.Length
    requires forall p, q :: 0 <= p < q < i ==> a[p].order <= a[q].order
    modifies a
    ensures forall p, q :: 0 <= p < q <= i ==> a[p].order <= a[q].order
    ensures multiset(a[..]) == old(multiset(a[..]))
  {
    var j := i;
    while j > 0 && a[j - 1].order > a[j].order
      invariant 0 <= j <= i
      invariant forall p, q :: 0 <= p < q <= i && p != j && q != j ==> a[p].order <= a[q].order
      invariant forall k :: j < k <= i ==> a[j].order <= a[k].order
      invariant multiset(a[..]) == old(multiset(a[..]))
    {
      SwapDown(a, j);
      j := j - 1;
    }
  }

  /** Exchanges `a[j - 1]` and `a[j]`. */
  method SwapDown(a: array<ContentBlock>, j: int)
    requires 0 < j < a.Length
    modifies a
    ensures a[j - 1] == old(a[j]) && a[j] == old(a[j - 1])
    ensures forall k :: 0 <= k < a.Length && k != j - 1 && k != j ==> a[k] == old(a[k])
    ensures multiset(a[..]) == old(multiset(a[..]))
  {
    a[j - 1], a[j] := a[j], a[j - 1];
  }

  /**
   * The block area of the preview: with no blocks, the empty-state panel and
   * no sort; otherwise the blocks, sorted in place, each rendered in turn.
   */
  method RenderBody(blocks: array<ContentBlock>) returns (body: Body)
    modifies blocks
    ensures blocks.Length == 0 ==> body == EmptyState
    ensures blocks.Length > 0 ==> body.Blocks? && |body.rendered| == blocks.Length
    ensures SortedByOrder(blocks[..]) && multiset(blocks[..]) == old(multiset(blocks[..]))
    ensures body.Blocks? ==> forall i :: 0 <= i < blocks.Length ==> body.rendered[i] == RenderContentBlock(blocks[i])
  {
    if blocks.Length == 0 {
      return EmptyState;
    }
    SortByOrderInPlace(blocks);
    body := Blocks(seq(blocks.Length, i requires 0 <= i < blocks.Length reads blocks => RenderContentBlock(blocks[i])));
  }

  /** The "Published" line: shown only for a non-empty publication date. */
  function PublishedLine(post: Post): (line: Option<string>)
    ensures line.Some? <==> post.publishedAt.Some? && post.publishedAt.value != ""
    ensures line.Some? ==> line.value == post.publishedAt.value
  {
    if post.publishedAt.Some? && post.publishedAt.value != "" then Some(post.publishedAt.value) else None
  }

  /** The excerpt paragraph: shown only for a non-empty excerpt, and then with the excerpt's text. */
  function ExcerptLine(post: Post): (line: Option<string>)
    ensures line.Some? <==> post.excerpt != ""
    ensures line.Some? ==> line.value == post.excerpt
  {
    if post.excerpt != "" then Some(post.excerpt) else None
  }
}
