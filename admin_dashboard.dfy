/**
 * The admin dashboard: the local cache of posts, the two-step save protocol
 * against the remote store (write the post row, then replace all of its
 * section rows), optimistic deletion, the conversion of store rows into
 * posts, and the dashboard's session redirect rule.
 */
module AdminDashboard {
  import opened Base
  import opened Strings
  import opened Lists
  import opened Content
  import opened Auth

  // ---------------------------------------------------------------------
  // Rows as the store returns them, and their conversion into posts
  // ---------------------------------------------------------------------

  /** A section row as selected from the store; every column may be missing. */
  datatype DbSection = DbSection(id: Option<string>, kind: BlockKind, content: Option<string>, position: Option<int>)

  /** A post row with its joined sections, as selected from the store. */
  datatype DbPost = DbPost(
    id: string,
    title: Option<string>,
    slug: Option<string>,
    excerpt: Option<string>,
    status: Option<Status>,
    publishedAt: Option<string>,
    updatedAt: Option<string>,
    sections: Option<seq<DbSection>>)

  /** `x || ""` for an optional text column. */
  function TextOrEmpty(x: Option<string>): string {
    x.GetOr("")
  }

  /**
   * One section as a block: a missing or empty id becomes a random
   * placeholder (`randomId(index)` stands for `section-${Math.random()}`),
   * missing content becomes "", and a missing position becomes 0 while an
   * explicit 0 is kept (`??`).
   */
  function SectionToBlock(section: DbSection, index: nat, randomId: nat -> string): (b: ContentBlock)
    ensures b.kind == section.kind
    ensures section.id.Some? && section.id.value != "" ==> b.id == section.id.value
    ensures section.id.None? || section.id.value == "" ==> b.id == randomId(index)
    ensures section.content.Some? ==> b.content == section.content.value
    ensures section.content.None? ==> b.content == ""
    ensures section.position.Some? ==> b.order == section.position.value
    ensures section.position.None? ==> b.order == 0
  {
    ContentBlock(
      if section.id.Some? && section.id.value != "" then section.id.value else randomId(index),
      section.kind,
      TextOrEmpty(section.content),
      section.position.GetOr(0))
  }

  function SectionsToBlocks(sections: seq<DbSection>, randomId: nat -> string): (r: seq<ContentBlock>)
    ensures |r| == |sections|
    ensures forall i :: 0 <= i < |r| ==> r[i] == SectionToBlock(sections[i], i, randomId)
  {
    seq(|sections|, i requires 0 <= i < |sections| => SectionToBlock(sections[i], i, randomId))
  }

  /**
   * `mapDbPostToPost`: a store row as a post. Missing text becomes "", a
   * missing status "draft", the author is always "Admin", an empty
   * publication date is dropped, the update date is the part of the stamp
   * before the first `T` (today when that is empty), and the blocks are the
   * row's sections sorted by position.
   */
  function MapDbPostToPost(row: DbPost, today: string, randomId: nat -> string): (p: Post)
    ensures p.id == row.id
    ensures p.title == TextOrEmpty(row.title) && p.slug == TextOrEmpty(row.slug)
    ensures p.excerpt == TextOrEmpty(row.excerpt)
    ensures p.status == row.status.GetOr(Draft)
    ensures p.author == "Admin"
    ensures p.publishedAt.Some? <==> row.publishedAt.Some? && row.publishedAt.value != ""
    ensures p.publishedAt.Some? ==> p.publishedAt == row.publishedAt
    ensures DatePart(TextOrEmpty(row.updatedAt)) != "" ==> p.updatedAt == DatePart(TextOrEmpty(row.updatedAt))
    ensures DatePart(TextOrEmpty(row.updatedAt)) == "" ==> p.updatedAt == today
    ensures |p.contentBlocks| == |row.sections.GetOr([])|
    ensures SortedByOrder(p.contentBlocks)
    ensures multiset(p.contentBlocks) == multiset(SectionsToBlocks(row.sections.GetOr([]), randomId))
  {
    var stampDate := DatePart(TextOrEmpty(row.updatedAt));
    Post(
      row.id,
      TextOrEmpty(row.title),
      TextOrEmpty(row.slug),
      TextOrEmpty(row.excerpt),
      row.status.GetOr(Draft),
      "Admin",
      if row.publishedAt.Some? && row.publishedAt.value != "" then row.publishedAt else None,
      if stampDate != "" then stampDate else today,
      SortByOrder(SectionsToBlocks(row.sections.GetOr([]), randomId)))
  }

  // ---------------------------------------------------------------------
  // The remote store
  // ---------------------------------------------------------------------

  /** The columns written to a post row: `postPayload`. */
  datatype PostRow = PostRow(
    title: string,
    slug: string,
    excerpt: string,
    status: Status,
    publishedAt: Option<string>,
    updatedAt: string)

  /** A section row as written: block ids are not sent; the store keys rows itself. */
  datatype SectionRow = SectionRow(postId: string, kind: BlockKind, content: string, position: int)

  /** The answer to a post-row write that asks for the written row back (`.single()`). */
  datatype WriteResult = Written(id: string) | Rejected(message: string) | NoRow

  function OfPost(postId: string): SectionRow -> bool {
    (r: SectionRow) => r.postId == postId
  }

  function NotOfPost(postId: string): SectionRow -> bool {
    (r: SectionRow) => r.postId != postId
  }

  /** The section rows of one post, in table order. */
  function SectionsOf(sections: seq<SectionRow>, postId: string): (r: seq<SectionRow>)
    ensures forall i :: 0 <= i < |r| ==> r[i].postId == postId
  {
    Filter(sections, OfPost(postId))
  }

  /** The table after `delete().eq("post_id", postId)`. */
  function WithoutPost(sections: seq<SectionRow>, postId: string): (r: seq<SectionRow>)
    ensures forall i :: 0 <= i < |r| ==> r[i].postId != postId
  {
    Filter(sections, NotOfPost(postId))
  }

  /** The rows `replaceSections` inserts: one per block, in block order, positioned by `order`. */
  function SectionRows(postId: string, blocks: seq<ContentBlock>): (rows: seq<SectionRow>)
    ensures |rows| == |blocks|
    ensures forall i :: 0 <= i < |rows| ==>
      rows[i].postId == postId && rows[i].kind == blocks[i].kind &&
      rows[i].content == blocks[i].content && rows[i].position == blocks[i].order
  {
    seq(|blocks|, i requires 0 <= i < |blocks| => SectionRow(postId, blocks[i].kind, blocks[i].content, blocks[i].order))
  }

  /** The table after a successful replace of one post's sections. */
  function Replaced(sections: seq<SectionRow>, postId: string, blocks: seq<ContentBlock>): seq<SectionRow> {
    WithoutPost(sections, postId) + SectionRows(postId, blocks)
  }

  /**
   * After a successful replace the post's rows are exactly one row per
   * block, in block order: no leftover row of an earlier version remains.
   */
  lemma ReplacedRowsOfPost(sections: seq<SectionRow>, postId: string, blocks: seq<ContentBlock>)
    ensures SectionsOf(Replaced(sections, postId, blocks), postId) == SectionRows(postId, blocks)
  {
    FilterAppend(WithoutPost(sections, postId), SectionRows(postId, blocks), OfPost(postId));
    FilterDropsAll(WithoutPost(sections, postId), OfPost(postId));
    FilterKeepsAll(SectionRows(postId, blocks), OfPost(postId));
  }

  /** A replace leaves the section rows of every other post untouched. */
  lemma ReplacedOtherPosts(sections: seq<SectionRow>, postId: string, blocks: seq<ContentBlock>, other: string)
    requires other != postId
    ensures SectionsOf(Replaced(sections, postId, blocks), other) == SectionsOf(sections, other)
  {
    FilterAppend(WithoutPost(sections, postId), SectionRows(postId, blocks), OfPost(other));
    FilterDropsAll(SectionRows(postId, blocks), OfPost(other));
    FilterOfFilter(sections, postId, other);
  }

  /** Dropping another post's rows first does not change which rows `other` has. */
  lemma {:induction false} FilterOfFilter(sections: seq<SectionRow>, postId: string, other: string)
    requires other != postId
    ensures Filter(WithoutPost(sections, postId), OfPost(other)) == SectionsOf(sections, other)
  {
    if sections != [] {
      FilterOfFilter(sections[1..], postId, other);
    }
  }

  /** Replacing twice with the same blocks gives the same table as replacing once. */
  lemma ReplacedIdempotent(sections: seq<SectionRow>, postId: string, blocks: seq<ContentBlock>)
    ensures Replaced(Replaced(sections, postId, blocks), postId, blocks) == Replaced(sections, postId, blocks)
  {
    var once := Replaced(sections, postId, blocks);
    FilterAppend(WithoutPost(sections, postId), SectionRows(postId, blocks), NotOfPost(postId));
    FilterIdempotent(sections, NotOfPost(postId));
    FilterDropsAll(SectionRows(postId, blocks), NotOfPost(postId));
    assert WithoutPost(once, postId) == WithoutPost(sections, postId);
  }

  /**
   * The remote store: post rows keyed by id and the section table. Whether
   * a call fails is an input (`Fault`); the id the store gives a new row is
   * an input too.
   */
  class PostStore {
    var posts: map<string, PostRow>
    var sections: seq<SectionRow>

    constructor ()
      ensures posts == map[] && sections == []
    {
      posts := map[];
      sections := [];
    }

    /** `update(payload).eq("id", id).select().single()`: no matching row returns no data (`NoRow`). */
    method UpdatePost(id: string, payload: PostRow, fault: Fault) returns (result: WriteResult)
      modifies this
      ensures sections == old(sections)
      ensures fault.Fails? ==> result == Rejected(fault.message) && posts == old(posts)
      ensures fault.Succeeds? && id !in old(posts) ==> result == NoRow && posts == old(posts)
      ensures fault.Succeeds? && id in old(posts) ==> result == Written(id) && posts == old(posts)[id := payload]
    {
      if fault.Fails? {
        result := Rejected(fault.message);
      } else if id !in posts {
        result := NoRow;
      } else {
        posts := posts[id := payload];
        result := Written(id);
      }
    }

    /** `insert(payload).select().single()`: the store keys the new row `newId`. */
    method InsertPost(newId: string, payload: PostRow, fault: Fault) returns (result: WriteResult)
      modifies this
      ensures sections == old(sections)
      ensures fault.Fails? ==> result == Rejected(fault.message) && posts == old(posts)
      ensures fault.Succeeds? ==> result == Written(newId) && posts == old(posts)[newId := payload]
    {
      if fault.Fails? {
        result := Rejected(fault.message);
      } else {
        posts := posts[newId := payload];
        result := Written(newId);
      }
    }

    /** `from("sections").delete().eq("post_id", postId)`. */
    method DeleteSections(postId: string, fault: Fault) returns (err: Option<string>)
      modifies this
      ensures posts == old(posts)
      ensures fault.Fails? ==> err == Some(fault.message) && sections == old(sections)
      ensures fault.Succeeds? ==> err == None && sections == WithoutPost(old(sections), postId)
    {
      if fault.Fails? {
        err := Some(fault.message);
      } else {
        sections := WithoutPost(sections, postId);
        err := None;
      }
    }

    /** `from("sections").insert(rows)`: one batch, written whole or not at all. */
    method InsertSections(rows: seq<SectionRow>, fault: Fault) returns (err: Option<string>)
      modifies this
      ensures posts == old(posts)
      ensures fault.Fails? ==> err == Some(fault.message) && sections == old(sections)
      ensures fault.Succeeds? ==> err == None && sections == old(sections) + rows
    {
      if fault.Fails? {
        err := Some(fault.message);
      } else {
        sections := sections + rows;
        err := None;
      }
    }

    /** `from("posts").delete().eq("id", id)`; the post's section rows go with it. */
    method DeletePost(id: string, fault: Fault) returns (err: Option<string>)
      modifies this
      ensures fault.Fails? ==> err == Some(fault.message) && posts == old(posts) && sections == old(sections)
      ensures fault.Succeeds? ==> err == None && posts == old(posts) - {id} && sections == WithoutPost(old(sections), id)
    {
      if fault.Fails? {
        err := Some(fault.message);
      } else {
        posts := posts - {id};
        sections := WithoutPost(sections, id);
        err := None;
      }
    }
  }

  /**
   * `replaceSections`: delete every section row of the post, then insert one
   * row per block in one batch. A failed delete is returned and nothing is
   * inserted; an empty block list stops after the delete; a failed insert is
   * returned and leaves the post with no section rows.
   */
  method ReplaceSections(store: PostStore, postId: string, blocks: seq<ContentBlock>,
                         deleteFault: Fault, insertFault: Fault) returns (err: Option<string>)
    modifies store
    ensures store.posts == old(store.posts)
    ensures deleteFault.Fails? ==> err == Some(deleteFault.message) && store.sections == old(store.sections)
    ensures deleteFault.Succeeds? && blocks != [] && insertFault.Fails? ==>
      err == Some(insertFault.message) && store.sections == WithoutPost(old(store.sections), postId)
    ensures deleteFault.Succeeds? && (blocks == [] || insertFault.Succeeds?) ==>
      err == None && store.sections == Replaced(old(store.sections), postId, blocks)
    ensures err == None ==> SectionsOf(store.sections, postId) == SectionRows(postId, blocks)
  {
    err := store.DeleteSections(postId, deleteFault);
    if err.Some? {
      return;
    }
    if blocks == [] {
      assert store.sections == WithoutPost(old(store.sections), postId) + SectionRows(postId, blocks);
      ReplacedRowsOfPost(old(store.sections), postId, blocks);
      return;
    }
    err := store.InsertSections(SectionRows(postId, blocks), insertFault);
    if err.None? {
      ReplacedRowsOfPost(old(store.sections), postId, blocks);
    }
  }

  // ---------------------------------------------------------------------
  // The local cache and the save protocol
  // ---------------------------------------------------------------------

  /** The prefix marking a post that the store has not keyed yet. */
  const TempPrefix: string := "temp-"

  predicate IsTemp(id: string) {
    StartsWith(id, TempPrefix)
  }

  /** `posts.some(p => p.id === id && !p.id.startsWith("temp-"))`: the update path is taken. */
  predicate IsExisting(posts: seq<Post>, id: string)
    ensures IsExisting(posts, id) ==> !IsTemp(id)
  {
    exists i :: 0 <= i < |posts| && posts[i].id == id && !IsTemp(posts[i].id)
  }

  /** A placeholder id never takes the update path. */
  lemma TempGoesToInsert(posts: seq<Post>, id: string)
    requires IsTemp(id)
    ensures !IsExisting(posts, id)
  {
  }

  /** The update path is taken exactly for a cached, non-placeholder id. */
  lemma ExistingIffCached(posts: seq<Post>, id: string)
    ensures IsExisting(posts, id) <==> (exists i :: 0 <= i < |posts| && posts[i].id == id) && !IsTemp(id)
  {
  }

  /** `postPayload`: the post row written on save, stamped with `now`. */
  function Payload(post: Post, now: string): (row: PostRow)
    ensures row.title == TitleOrDefault(post.title)
    ensures row.slug == SlugOrDerived(post.slug, post.title)
    ensures row.excerpt == post.excerpt && row.status == post.status
    ensures post.status != Published ==> row.publishedAt == None
    ensures post.status == Published && post.publishedAt.Some? && post.publishedAt.value != "" ==>
      row.publishedAt == post.publishedAt
    ensures post.status == Published && (post.publishedAt.None? || post.publishedAt.value == "") ==>
      row.publishedAt == Some(DatePart(now))
    ensures row.updatedAt == now
  {
    PostRow(
      TitleOrDefault(post.title),
      SlugOrDerived(post.slug, post.title),
      post.excerpt,
      post.status,
      if post.status != Published then None
      else if post.publishedAt.Some? && post.publishedAt.value != "" then post.publishedAt
      else Some(DatePart(now)),
      now)
  }

  /** The row the create path maps into the cache: the written row, with the submitted blocks as sections. */
  function CreatedRow(id: string, payload: PostRow, blocks: seq<ContentBlock>): (row: DbPost)
    ensures row.id == id && row.title == Some(payload.title) && row.slug == Some(payload.slug)
    ensures row.status == Some(payload.status) && row.publishedAt == payload.publishedAt
    ensures row.excerpt == Some(payload.excerpt) && row.updatedAt == Some(payload.updatedAt)
    ensures row.sections.Some? && |row.sections.value| == |blocks|
    ensures forall i :: 0 <= i < |blocks| ==>
      row.sections.value[i].id == Some(blocks[i].id) && row.sections.value[i].kind == blocks[i].kind &&
      row.sections.value[i].content == Some(blocks[i].content) && row.sections.value[i].position == Some(blocks[i].order)
  {
    DbPost(id, Some(payload.title), Some(payload.slug), Some(payload.excerpt), Some(payload.status),
           payload.publishedAt, Some(payload.updatedAt),
           Some(seq(|blocks|, i requires 0 <= i < |blocks| =>
             DbSection(Some(blocks[i].id), blocks[i].kind, Some(blocks[i].content), Some(blocks[i].order)))))
  }

  /**
   * The create path's cached blocks are the submitted blocks, sorted by
   * `order`; when the editor handed them over in ascending order (as it does
   * after any move), they are exactly the submitted sequence.
   */
  lemma CreatedBlocksRoundTrip(id: string, payload: PostRow, blocks: seq<ContentBlock>, today: string, randomId: nat -> string)
    requires forall i :: 0 <= i < |blocks| ==> blocks[i].id != ""
    ensures multiset(MapDbPostToPost(CreatedRow(id, payload, blocks), today, randomId).contentBlocks) == multiset(blocks)
    ensures SortedByOrder(MapDbPostToPost(CreatedRow(id, payload, blocks), today, randomId).contentBlocks)
    ensures SortedByOrder(blocks) ==> MapDbPostToPost(CreatedRow(id, payload, blocks), today, randomId).contentBlocks == blocks
  {
    var sections := CreatedRow(id, payload, blocks).sections.value;
    assert SectionsToBlocks(sections, randomId) == blocks;
    if SortedByOrder(blocks) {
      SortOfSorted(blocks);
    }
  }

  /**
   * After a create, the cached post carries the saved title and slug
   * fallbacks, the submitted excerpt and status, and the save's date as its
   * update date.
   */
  lemma CreatedPostFields(id: string, post: Post, now: string, randomId: nat -> string)
    ensures var cached := MapDbPostToPost(CreatedRow(id, Payload(post, now), post.contentBlocks), DatePart(now), randomId);
      cached.id == id && cached.title == TitleOrDefault(post.title) &&
      cached.slug == SlugOrDerived(post.slug, post.title) && cached.excerpt == post.excerpt &&
      cached.status == post.status && cached.updatedAt == DatePart(now)
  {
  }

  /** `posts.map(p => p.id === id ? merged : p)`: the update path's cache merge. */
  function MergeUpdated(posts: seq<Post>, id: string, merged: Post): (r: seq<Post>)
    ensures |r| == |posts|
    ensures forall i :: 0 <= i < |r| ==> r[i] == if posts[i].id == id then merged else posts[i]
  {
    seq(|posts|, i requires 0 <= i < |posts| => if posts[i].id == id then merged else posts[i])
  }

  function NotTemp(): Post -> bool {
    (p: Post) => !IsTemp(p.id)
  }

  /** `[mapped, ...posts.filter(p => !p.id.startsWith("temp-"))]`: the create path's cache merge. */
  function MergeCreated(mapped: Post, posts: seq<Post>): (r: seq<Post>)
    ensures |r| >= 1 && r[0] == mapped
    ensures forall i :: 1 <= i < |r| ==> !IsTemp(r[i].id)
    ensures IsSubsequence(r[1..], posts)
    ensures forall p :: multiset(r[1..])[p] == if IsTemp(p.id) then 0 else multiset(posts)[p]
  {
    FilterIsSubsequence(posts, NotTemp());
    forall p ensures multiset(Filter(posts, NotTemp()))[p] == if IsTemp(p.id) then 0 else multiset(posts)[p] {
      FilterCount(posts, NotTemp(), p);
    }
    assert ([mapped] + Filter(posts, NotTemp()))[1..] == Filter(posts, NotTemp());
    [mapped] + Filter(posts, NotTemp())
  }

  function HasId(id: string): Post -> bool {
    (p: Post) => p.id == id
  }

  /** How many cache entries carry the id. */
  function CountId(posts: seq<Post>, id: string): nat {
    |Filter(posts, HasId(id))|
  }

  /**
   * After a successful create the new post appears first and exactly once
   * under its store key, and no placeholder entry remains.
   */
  lemma CreatedOnce(mapped: Post, posts: seq<Post>)
    requires !IsTemp(mapped.id)
    requires forall i :: 0 <= i < |posts| ==> posts[i].id != mapped.id
    ensures CountId(MergeCreated(mapped, posts), mapped.id) == 1
    ensures forall i :: 0 <= i < |MergeCreated(mapped, posts)| ==> !IsTemp(MergeCreated(mapped, posts)[i].id)
  {
    var rest := Filter(posts, NotTemp());
    assert MergeCreated(mapped, posts) == [mapped] + rest;
    FilterAppend([mapped], rest, HasId(mapped.id));
    forall i | 0 <= i < |rest| ensures rest[i].id != mapped.id {
      FilterMembership(posts, NotTemp(), rest[i]);
    }
    FilterDropsAll(rest, HasId(mapped.id));
  }

  /** `posts.filter(p => p.id !== id)`: the cache after an optimistic delete. */
  function RemovePost(posts: seq<Post>, id: string): (r: seq<Post>)
    ensures forall i :: 0 <= i < |r| ==> r[i].id != id
    ensures IsSubsequence(r, posts)
    ensures forall p :: multiset(r)[p] == if p.id != id then multiset(posts)[p] else 0
  {
    FilterIsSubsequence(posts, (p: Post) => p.id != id);
    forall p ensures multiset(Filter(posts, (p: Post) => p.id != id))[p] == if p.id != id then multiset(posts)[p] else 0 {
      FilterCount(posts, (p: Post) => p.id != id, p);
    }
    Filter(posts, (p: Post) => p.id != id)
  }

  /** The draft `handleCreatePost` puts at the top of the cache. */
  function NewDraft(stamp: string, now: string): (p: Post)
    ensures IsTemp(p.id)
    ensures p.title == "" && p.slug == "" && p.excerpt == "" && p.status == Draft
    ensures p.author == "Admin" && p.publishedAt == None && p.contentBlocks == []
    ensures p.updatedAt == DatePart(now)
  {
    Post(TempPrefix + stamp, "", "", "", Draft, "Admin", None, DatePart(now), [])
  }

  /** `session` absent: to sign-in; any email but the allowed one: to the denial page. */
  function DashboardRoute(session: Option<Session>): (r: Route)
    ensures session.None? ==> r == Redirect(SignInPage)
    ensures session.Some? && !IsAllowed(session) ==> r == Redirect(SorryPage)
    ensures r == Stay <==> IsAllowed(session)
  {
    if session.None? then Redirect(SignInPage)
    else if session.value.email != Some(AllowedEmail) then Redirect(SorryPage)
    else Stay
  }

  datatype View = PostsView | EditorView | PreviewView | SettingsView | AnalyticsView

  const UpdateFailed: string := "Unable to update post"
  const CreateFailed: string := "Unable to create post"
  const UpdateSectionsFailed: string := "Unable to update post sections"
  const CreateSectionsFailed: string := "Unable to create post sections"

  /** The message shown when the post-row write did not return a row. */
  function WriteErrorMessage(result: WriteResult, fallback: string): (m: string)
    ensures result.Rejected? && result.message != "" ==> m == result.message
    ensures !(result.Rejected? && result.message != "") ==> m == fallback
  {
    if result.Rejected? then MessageOr(result.message, fallback) else fallback
  }

  /** The dashboard's state: the post cache, the current view and the status flags. */
  class Dashboard {
    var currentView: View
    var selectedPost: Option<Post>
    var posts: seq<Post>
    var isLoading: bool
    var isSaving: bool
    var error: Option<string>
    var session: Option<Session>
    var authLoading: bool

    constructor ()
      ensures currentView == PostsView && selectedPost == None && posts == []
      ensures isLoading && !isSaving && error == None
      ensures session == None && authLoading
    {
      currentView := PostsView;
      selectedPost := None;
      posts := [];
      isLoading := true;
      isSaving := false;
      error := None;
      session := None;
      authLoading := true;
    }

    /** `isAuthorized`. */
    predicate IsAuthorized()
      reads this
    {
      IsAllowed(session)
    }

    /** The dashboard renders its screens only once the session is known and allowed. */
    predicate ShowsDashboard()
      reads this
      ensures ShowsDashboard() ==> IsAllowed(session) && !authLoading
    {
      !authLoading && session.Some? && IsAuthorized()
    }

    /** The session check on mount: store the session, then route. */
    method InitSession(s: Option<Session>) returns (route: Route)
      modifies this
      ensures session == s && !authLoading
      ensures route == DashboardRoute(s)
      ensures route == Stay <==> ShowsDashboard()
      ensures posts == old(posts) && currentView == old(currentView) && selectedPost == old(selectedPost)
      ensures isLoading == old(isLoading) && isSaving == old(isSaving) && error == old(error)
    {
      session := s;
      authLoading := false;
      route := DashboardRoute(s);
    }

    /** A session change notification: as on mount, and losing the session empties the cache. */
    method SessionChanged(s: Option<Session>) returns (route: Route)
      modifies this
      ensures session == s && !authLoading
      ensures route == DashboardRoute(s)
      ensures route == Stay <==> ShowsDashboard()
      ensures posts == if s.None? then [] else old(posts)
      ensures currentView == old(currentView) && selectedPost == old(selectedPost)
      ensures isLoading == old(isLoading) && isSaving == old(isSaving) && error == old(error)
    {
      session := s;
      authLoading := false;
      if s.None? {
        posts := [];
      }
      route := DashboardRoute(s);
    }

    /** `handleSignOut`: the identity provider's sign-out is left out; the session and cache are cleared. */
    method SignOut()
      modifies this
      ensures session == None && posts == [] && currentView == PostsView
      ensures !ShowsDashboard()
      ensures selectedPost == old(selectedPost) && authLoading == old(authLoading)
      ensures isLoading == old(isLoading) && isSaving == old(isSaving) && error == old(error)
    {
      session := None;
      posts := [];
      currentView := PostsView;
    }

    /** `handleCreatePost`: a blank draft with a placeholder id goes on top and opens in the editor. */
    method CreatePost(stamp: string, now: string)
      modifies this
      ensures posts == [NewDraft(stamp, now)] + old(posts)
      ensures selectedPost == Some(NewDraft(stamp, now)) && currentView == EditorView
      ensures isLoading == old(isLoading) && isSaving == old(isSaving) && error == old(error)
      ensures session == old(session) && authLoading == old(authLoading)
    {
      var draft := NewDraft(stamp, now);
      posts := [draft] + posts;
      selectedPost := Some(draft);
      currentView := EditorView;
    }

    /** `handleEditPost`. */
    method EditPost(post: Post)
      modifies this
      ensures selectedPost == Some(post) && currentView == EditorView
      ensures posts == old(posts) && error == old(error) && isSaving == old(isSaving)
      ensures isLoading == old(isLoading) && session == old(session) && authLoading == old(authLoading)
    {
      selectedPost := Some(post);
      currentView := EditorView;
    }

    /** `handlePreviewPost`. */
    method PreviewPost(post: Post)
      modifies this
      ensures selectedPost == Some(post) && currentView == PreviewView
      ensures posts == old(posts) && error == old(error) && isSaving == old(isSaving)
      ensures isLoading == old(isLoading) && session == old(session) && authLoading == old(authLoading)
    {
      selectedPost := Some(post);
      currentView := PreviewView;
    }

    /** `handleBackToPosts`. */
    method BackToPosts()
      modifies this
      ensures selectedPost == None && currentView == PostsView
      ensures posts == old(posts) && error == old(error) && isSaving == old(isSaving)
      ensures isLoading == old(isLoading) && session == old(session) && authLoading == old(authLoading)
    {
      currentView := PostsView;
      selectedPost := None;
    }

    /** `handleEditFromPreview`: opens the editor only when a post is selected. */
    method EditFromPreview()
      modifies this
      ensures currentView == if old(selectedPost).Some? then EditorView else old(currentView)
      ensures selectedPost == old(selectedPost) && posts == old(posts) && error == old(error)
      ensures isSaving == old(isSaving) && isLoading == old(isLoading)
      ensures session == old(session) && authLoading == old(authLoading)
    {
      if selectedPost.Some? {
        currentView := EditorView;
      }
    }

    /** The sidebar's navigation: opens the view, and going to the posts list drops the selection. */
    method Navigate(view: View)
      modifies this
      ensures currentView == view
      ensures selectedPost == if view == PostsView then None else old(selectedPost)
      ensures posts == old(posts) && error == old(error) && isSaving == old(isSaving)
      ensures isLoading == old(isLoading) && session == old(session) && authLoading == old(authLoading)
    {
      currentView := view;
      if view == PostsView {
        selectedPost := None;
      }
    }

    /**
     * `handleDeletePost`: the entries with the id leave the cache before the
     * remote delete, and are not put back when it fails.
     */
    method DeletePost(id: string, store: PostStore, fault: Fault)
      modifies this, store
      ensures posts == RemovePost(old(posts), id)
      ensures fault.Fails? ==> error == Some(fault.message) && store.posts == old(store.posts) && store.sections == old(store.sections)
      ensures fault.Succeeds? ==>
        error == old(error) && store.posts == old(store.posts) - {id} &&
        store.sections == WithoutPost(old(store.sections), id)
      ensures currentView == old(currentView) && selectedPost == old(selectedPost) && isSaving == old(isSaving)
      ensures isLoading == old(isLoading) && session == old(session) && authLoading == old(authLoading)
    {
      posts := RemovePost(posts, id);
      var err := store.DeletePost(id, fault);
      if err.Some? {
        error := Some(err.value);
      }
    }

    /**
     * `handleSavePost`: write the post row (update when the cache holds the id
     * as a stored post, insert otherwise), then replace the post's section
     * rows, and only then merge into the cache and return to the list. Any
     * failure sets `error` and leaves the cache and view alone; a section
     * failure leaves the post row already written.
     */
    method SavePost(updated: Post, store: PostStore, now: string, newId: string,
                    metaFault: Fault, deleteFault: Fault, insertFault: Fault, randomId: nat -> string)
      modifies this, store
      ensures !isSaving
      ensures isLoading == old(isLoading) && session == old(session) && authLoading == old(authLoading)
      ensures
        var existing := IsExisting(old(posts), updated.id);
        var target := if existing then updated.id else newId;
        var metaOk := metaFault.Succeeds? && (!existing || updated.id in old(store.posts));
        !metaOk ==>
          error == Some(if metaFault.Fails? then MessageOr(metaFault.message, if existing then UpdateFailed else CreateFailed)
                        else UpdateFailed) &&
          posts == old(posts) && currentView == old(currentView) && selectedPost == old(selectedPost) &&
          store.posts == old(store.posts) && store.sections == old(store.sections)
      ensures
        var existing := IsExisting(old(posts), updated.id);
        var target := if existing then updated.id else newId;
        var metaOk := metaFault.Succeeds? && (!existing || updated.id in old(store.posts));
        metaOk ==> store.posts == old(store.posts)[target := Payload(updated, now)]
      ensures
        var existing := IsExisting(old(posts), updated.id);
        var target := if existing then updated.id else newId;
        var metaOk := metaFault.Succeeds? && (!existing || updated.id in old(store.posts));
        var sectionsOk := deleteFault.Succeeds? && (updated.contentBlocks == [] || insertFault.Succeeds?);
        var fallback := if existing then UpdateSectionsFailed else CreateSectionsFailed;
        metaOk && !sectionsOk ==>
          error == Some(MessageOr(if deleteFault.Fails? then deleteFault.message else insertFault.message, fallback)) &&
          posts == old(posts) && currentView == old(currentView) && selectedPost == old(selectedPost) &&
          store.sections == if deleteFault.Fails? then old(store.sections) else WithoutPost(old(store.sections), target)
      ensures
        var existing := IsExisting(old(posts), updated.id);
        var target := if existing then updated.id else newId;
        var metaOk := metaFault.Succeeds? && (!existing || updated.id in old(store.posts));
        var sectionsOk := deleteFault.Succeeds? && (updated.contentBlocks == [] || insertFault.Succeeds?);
        metaOk && sectionsOk ==>
          error == None && currentView == PostsView && selectedPost == None &&
          store.sections == Replaced(old(store.sections), target, updated.contentBlocks) &&
          SectionsOf(store.sections, target) == SectionRows(target, updated.contentBlocks) &&
          posts == if existing then MergeUpdated(old(posts), updated.id, updated.(updatedAt := DatePart(now)))
                   else MergeCreated(MapDbPostToPost(CreatedRow(newId, Payload(updated, now), updated.contentBlocks),
                                                     DatePart(now), randomId), old(posts))
    {
      isSaving := true;
      error := None;
      var existing := IsExisting(posts, updated.id);
      var payload := Payload(updated, now);
      var result: WriteResult;
      if existing {
        result := store.UpdatePost(updated.id, payload, metaFault);
      } else {
        result := store.InsertPost(newId, payload, metaFault);
      }
      if !result.Written? {
        error := Some(WriteErrorMessage(result, if existing then UpdateFailed else CreateFailed));
        isSaving := false;
        return;
      }
      var sectionsError := ReplaceSections(store, result.id, updated.contentBlocks, deleteFault, insertFault);
      if sectionsError.Some? {
        error := Some(MessageOr(sectionsError.value, if existing then UpdateSectionsFailed else CreateSectionsFailed));
        isSaving := false;
        return;
      }
      if existing {
        var merged := updated.(id := result.id, updatedAt := DatePart(payload.updatedAt));
        posts := MergeUpdated(posts, updated.id, merged);
      } else {
        var mapped := MapDbPostToPost(CreatedRow(result.id, payload, updated.contentBlocks), DatePart(now), randomId);
        posts := MergeCreated(mapped, posts);
      }
      currentView := PostsView;
      selectedPost := None;
      isSaving := false;
    }
  }
}
