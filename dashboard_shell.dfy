/**
 * The older mock dashboard shell: its own post type and a list, create and
 * edit view over an in-memory list of posts.
 */
module DashboardShell {
  import opened Base
  import opened Lists
  import Content

  datatype ShellStatus = ShellDraft | ShellPublished

  /** The shell's block type; it adds an optional caption. */
  datatype ShellBlock = ShellBlock(id: string, kind: Content.BlockKind, content: string, caption: Option<string>, order: int)

  /** The shell's own post type. */
  datatype ShellPost = ShellPost(
    id: string,
    title: string,
    slug: string,
    status: ShellStatus,
    author: string,
    publishedAt: Option<string>,
    updatedAt: string,
    excerpt: string,
    content: seq<ShellBlock>)

  datatype ShellView = ListView | EditView | CreateView

  /** `posts.map(p => p.id === post.id ? post : p)`. */
  function ReplacePost(posts: seq<ShellPost>, post: ShellPost): (r: seq<ShellPost>)
    ensures |r| == |posts|
    ensures forall i :: 0 <= i < |r| ==> if posts[i].id == post.id then r[i] == post else r[i] == posts[i]
  {
    seq(|posts|, i requires 0 <= i < |posts| => if posts[i].id == post.id then post else posts[i])
  }

  /** Saving an edit of a post that is no longer listed changes nothing. */
  lemma ReplaceUnlisted(posts: seq<ShellPost>, post: ShellPost)
    requires forall i :: 0 <= i < |posts| ==> posts[i].id != post.id
    ensures ReplacePost(posts, post) == posts
  {
  }

  /** Saving the same edit twice leaves the list as saving it once. */
  lemma ReplaceTwice(posts: seq<ShellPost>, post: ShellPost)
    ensures ReplacePost(ReplacePost(posts, post), post) == ReplacePost(posts, post)
  {
  }

  /** `posts.filter(p => p.id !== id)`. */
  function RemovePost(posts: seq<ShellPost>, id: string): (r: seq<ShellPost>)
    ensures forall i :: 0 <= i < |r| ==> r[i].id != id
    ensures IsSubsequence(r, posts)
    ensures forall p :: multiset(r)[p] == if p.id != id then multiset(posts)[p] else 0
  {
    FilterIsSubsequence(posts, (p: ShellPost) => p.id != id);
    forall p ensures multiset(Filter(posts, (p: ShellPost) => p.id != id))[p] == if p.id != id then multiset(posts)[p] else 0 {
      FilterCount(posts, (p: ShellPost) => p.id != id, p);
    }
    Filter(posts, (p: ShellPost) => p.id != id)
  }

  /**
   * Saving a post in the create view under an id no listed post has, then
   * deleting that id, gives back the list as it was before the create.
   */
  lemma {:induction false} CreateThenDelete(posts: seq<ShellPost>, post: ShellPost, freshId: string)
    requires forall i :: 0 <= i < |posts| ==> posts[i].id != freshId
    ensures RemovePost(posts + [post.(id := freshId)], freshId) == posts
  {
    var keep := (p: ShellPost) => p.id != freshId;
    FilterAppend(posts, [post.(id := freshId)], keep);
    FilterKeepsAll(posts, keep);
    FilterDropsAll([post.(id := freshId)], keep);
  }

  /** Deleting a post removes it from the list for good: deleting it again changes nothing. */
  lemma {:induction false} RemoveTwice(posts: seq<ShellPost>, id: string)
    ensures RemovePost(RemovePost(posts, id), id) == RemovePost(posts, id)
  {
    var r := RemovePost(posts, id);
    FilterKeepsAll(r, (p: ShellPost) => p.id != id);
  }

  /** The shell's state: which view is open, the post list and the post being edited. */
  class Shell {
    var view: ShellView
    var posts: seq<ShellPost>
    var selectedPost: Option<ShellPost>

    /** The shell starts on the list, over its mock posts. */
    constructor (initial: seq<ShellPost>)
      ensures view == ListView && posts == initial && selectedPost == None
    {
      view := ListView;
      posts := initial;
      selectedPost := None;
    }

    /** `handleCreatePost`. */
    method CreatePost()
      modifies this
      ensures selectedPost == None && view == CreateView && posts == old(posts)
    {
      selectedPost := None;
      view := CreateView;
    }

    /** `handleEditPost`. */
    method EditPost(post: ShellPost)
      modifies this
      ensures selectedPost == Some(post) && view == EditView && posts == old(posts)
    {
      selectedPost := Some(post);
      view := EditView;
    }

    /**
     * `handleSavePost`: in the create view the post is appended under a new
     * id (`freshId` stands for `Date.now().toString()`); otherwise every
     * entry with its id is replaced. Either way the list view opens with no
     * selection.
     */
    method SavePost(post: ShellPost, freshId: string)
      modifies this
      ensures old(view) == CreateView ==> posts == old(posts) + [post.(id := freshId)]
      ensures old(view) != CreateView ==> posts == ReplacePost(old(posts), post)
      ensures view == ListView && selectedPost == None
    {
      if view == CreateView {
        posts := posts + [post.(id := freshId)];
      } else {
        posts := ReplacePost(posts, post);
      }
      view := ListView;
      selectedPost := None;
    }

    /**
     * `handleDeletePost`: removes every entry with the id; the view and
     * selection are reset only when the selected post was the one deleted.
     */
    method DeletePost(id: string)
      modifies this
      ensures posts == RemovePost(old(posts), id)
      ensures old(selectedPost).Some? && old(selectedPost).value.id == id ==> view == ListView && selectedPost == None
      ensures !(old(selectedPost).Some? && old(selectedPost).value.id == id) ==>
        view == old(view) && selectedPost == old(selectedPost)
    {
      posts := RemovePost(posts, id);
      if selectedPost.Some? && selectedPost.value.id == id {
        view := ListView;
        selectedPost := None;
      }
    }

    /** `handleCancel`. */
    method Cancel()
      modifies this
      ensures view == ListView && selectedPost == None && posts == old(posts)
    {
      view := ListView;
      selectedPost := None;
    }
  }
}
