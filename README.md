# Blog admin: a Dafny model

This project models the logic of a small blog administration app (Next.js with a Supabase back end) and proves what it does:

- **Block editing.** A post is an ordered list of content blocks (text, image, video, quote), each with an `order` number. The editor adds, updates, deletes and moves blocks, and builds the post record it saves.
- **Save protocol and post cache.** The dashboard decides between insert and update and writes the post row. It then replaces the post's section rows by deleting them all and inserting the new ones. It merges the result into its in-memory post cache only if both writes succeed. It also maps store rows back to posts.
- **Preview.** The preview sorts blocks by `order` in place and chooses a rendering for each block kind.
- **Post list.** The list filters posts by a case-insensitive substring search.
- **Secondary screens:**
  - the list handlers of the older mock dashboard shell;
  - the settings page's team-member and theme handlers;
  - the sidebar's initials.
- **Access gate.** One email address is allowed in. The sign-in page, the denial ("sorry") page and the dashboard each check the session and redirect.

The model has one module per source file:

| module | source file |
|---|---|
| `PostEditor` | `components/post-editor.tsx` |
| `AdminDashboard` | `components/admin-dashboard.tsx` |
| `PostPreview` | `components/post-preview.tsx` |
| `PostsList` | `components/posts-list.tsx` |
| `DashboardShell` | `components/dashboard-shell.tsx` |
| `SettingsPage` | `components/settings-page.tsx` |
| `Sidebar` | `components/sidebar.tsx` |
| `SignIn` | `app/signin/page.tsx` |
| `Sorry` | `app/sorry/page.tsx` |

A few shared modules support them:

- `Base`: `Option` and the `Fault` outcome of a remote call.
- `Lists`: a generic `filter` and subsequence lemmas.
- `Strings`: the JavaScript string operations used, over ASCII.
- `Content`: the `Post`/`ContentBlock` types, the title and slug fallbacks, and sorting by `order`.
- `Auth`: the session and the allowed address.
- `AccessGate`: combines the three pages' checks.

State that the source changes in place is modelled imperatively:

- React state becomes `class` fields updated by `modifies` methods: `AdminDashboard.Dashboard`, `DashboardShell.Shell`, `SettingsPage.Settings` and `SignIn.Screen`.
- The Supabase store is an abstract `AdminDashboard.PostStore`: post rows keyed by id, and a sequence of section rows that each carry a `postId`.
- The editor's move copies the blocks into an array, swaps two slots and renumbers in a loop.
- The preview sorts an `array` in place.

Everything else is functions on values.

Some things the app would read from outside are parameters of the model instead:

- The clock: `now` is an ISO time stamp, and today's date is its part before `T`.
- `Date.now()` ids: `freshId` and `stamp`.
- The key the store gives a newly inserted post row (`created.id`): `newId`.
- `Math.random()` ids for section rows read back without an id: `randomId`.
- Whether each remote call succeeds: a `Fault`.

Some behaviours of the code that are easy to get wrong:

- The blank-title and blank-slug fallbacks (`components/post-editor.tsx:78-79`) apply only to the empty string. A whitespace-only title is kept, and its derived slug is `-`.
- Deleting a block (`components/post-editor.tsx:50-52`) does not renumber the remaining blocks.
- A failed section write after a successful post-row write (`components/admin-dashboard.tsx:190` and `:215`) reports the store's message, or else "Unable to update post sections" / "Unable to create post sections". The post row stays written, and the cache is not updated.
- The store-row mapping sorts sections by `position`. The fetch order of the posts themselves is not modelled.

## Model

| member | source | states |
|---|---|---|
| Content.TitleOrDefault | components/post-editor.tsx:78 | the saved title is never empty, and a non-empty title is kept |
| Content.SlugOrDerived | components/post-editor.tsx:79 | the saved slug is never empty, and a non-empty slug is kept |
| Content.DerivedSlug | components/post-editor.tsx:79 | with an empty slug and a non-empty title, the slug is the title lower-cased with whitespace runs turned into `-`; it holds no whitespace and no capital letter |
| Content.DashRunsKeepsCase | components/post-editor.tsx:79 | replacing whitespace runs by `-` introduces no capital letter |
| Content.WhitespaceTitle | components/post-editor.tsx:78-79 | a whitespace-only title is not replaced by the fallback, and its derived slug is "-" |
| Content.FallbacksIdempotent | components/admin-dashboard.tsx:166-167 | the dashboard applying the same fallbacks to what the editor already produced changes nothing |
| Content.InsertByOrder | components/admin-dashboard.tsx:318 | inserting one block keeps every block (multiset) and adds exactly the new one |
| Content.InsertKeepsSorted | components/admin-dashboard.tsx:318 | inserting into a list sorted by `order` keeps it sorted |
| Content.SortByOrder | components/admin-dashboard.tsx:318 | the result is sorted ascending by `order` and is a permutation of the input |
| Content.SortOfSorted | components/admin-dashboard.tsx:318 | a list already sorted by `order` comes back unchanged |
| Strings.Lower | components/posts-list.tsx:27-28 | same length, each ASCII capital lowered and everything else kept |
| Strings.ContainsAt | components/posts-list.tsx:27-28 | `includes` holds exactly when the query occurs at some position |
| Strings.ContainsEmpty | components/posts-list.tsx:27-28 | every text includes the empty string |
| Strings.BeforeFirst | components/admin-dashboard.tsx:310 | `split(c)[0]` is a prefix with no `c`, ending at the first `c` if there is one |
| Strings.DatePart | components/post-editor.tsx:84 | the date part of a stamp is a prefix of it holding no `T` |
| Strings.Split | components/sidebar.tsx:18 | `split` yields at least one part and no part holds the separator |
| Strings.SplitJoin | components/sidebar.tsx:18 | joining the parts of `split(c)` with `c` gives back the text |
| Strings.DashRunsShape | components/post-editor.tsx:79 | `replace(/\s+/g, "-")` leaves no whitespace, never lengthens, and is empty only for empty text |
| Strings.DashRunsNoSpace | components/post-editor.tsx:79 | text without whitespace is unchanged |
| Strings.LowerKeepsSpaces | components/post-editor.tsx:79 | lower-casing leaves whitespace unchanged |
| Strings.DashRunsOfSpaces | components/post-editor.tsx:79 | a non-empty all-whitespace text becomes a single `-` |
| Strings.DashRunsWordThenRun | components/post-editor.tsx:79 | a word followed by a whitespace run becomes the word and one `-` |
| Base.MessageOr | components/admin-dashboard.tsx:183 | an error's message is used unless it is empty, then the fallback |
| PostEditor.AddBlock | components/post-editor.tsx:34-42 | for a text, image or video block, appends exactly one block at the end with the fresh id, the kind, `order` = old length and the placeholder or empty content; earlier blocks unchanged |
| PostEditor.UpdateBlock | components/post-editor.tsx:44-48 | same length; blocks with the id get the new content and keep id, kind and order; all others unchanged |
| PostEditor.UpdateUnknownId | components/post-editor.tsx:44-48 | an unknown id changes nothing |
| PostEditor.DeleteBlock | components/post-editor.tsx:50-52 | no block with the id remains; survivors keep their relative order and their `order` values, each as often as before |
| PostEditor.DeleteUnknownId | components/post-editor.tsx:50-52 | an unknown id changes nothing |
| PostEditor.FindIndex | components/post-editor.tsx:55 | the first index holding the id, or -1 when none does |
| PostEditor.MoveBlock | components/post-editor.tsx:54-73 | at a boundary nothing changes; otherwise the block swaps with its neighbour and every `order` becomes its index, the same blocks up to `order`; an absent id moving up only renumbers, moving down crashes |
| PostEditor.SwapKeepsUnranked | components/post-editor.tsx:63-70 | swapping two slots and renumbering keeps the same blocks up to their `order` |
| PostEditor.InitialForm | components/post-editor.tsx:27-32 | a new post opens blank as a draft by "Admin User"; an existing one opens with its fields and its own author, or "Admin User" when that is empty |
| PostEditor.SavedPost | components/post-editor.tsx:75-88 | the saved record: existing id or fresh one, non-empty title and slug with the fallbacks, author "Admin", updated today, blocks passed through, `publishedAt` set when published and kept otherwise |
| PostEditor.RepublishKeepsDate | components/post-editor.tsx:85 | re-saving a published post keeps its first publication date |
| PostEditor.FirstPublishIsToday | components/post-editor.tsx:85 | publishing a post that has no date stamps today |
| PostEditor.BlankSave | components/post-editor.tsx:78-79 | an empty title and slug save as "Untitled Post" and "untitled" |
| AdminDashboard.SectionToBlock | components/admin-dashboard.tsx:312-317 | a section row becomes a block: its id or a random placeholder, its kind, its content or "", its position or 0 (an explicit 0 kept) |
| AdminDashboard.SectionsToBlocks | components/admin-dashboard.tsx:311-317 | one block per section, in section order |
| AdminDashboard.MapDbPostToPost | components/admin-dashboard.tsx:301-320 | the defaults for title, slug, excerpt, status and author; `publishedAt` only when non-empty; `updatedAt` the date part or else today; one block per section, sorted by `order`, the same blocks |
| AdminDashboard.WithoutPost | components/admin-dashboard.tsx:323 | the delete by `post_id` leaves no row of the post |
| AdminDashboard.SectionRows | components/admin-dashboard.tsx:330-335 | one row per block, in block order, with the post id, kind, content and `position` = `order`, and no block id |
| AdminDashboard.ReplacedRowsOfPost | components/admin-dashboard.tsx:322-341 | after a replace, the post's rows are exactly the rows of its blocks |
| AdminDashboard.ReplacedOtherPosts | components/admin-dashboard.tsx:323 | a replace leaves every other post's rows as they were |
| AdminDashboard.ReplacedIdempotent | components/admin-dashboard.tsx:322-341 | replacing twice with the same blocks leaves the same rows: no leftovers, no duplicates |
| AdminDashboard.PostStore.UpdatePost | components/admin-dashboard.tsx:175-180 | update by id writes the payload; a rejection or a missing row leaves the store unchanged |
| AdminDashboard.PostStore.InsertPost | components/admin-dashboard.tsx:201-205 | insert writes the payload under the store's new id, or fails with no change |
| AdminDashboard.PostStore.DeleteSections | components/admin-dashboard.tsx:323 | removes every section row of the post, or fails with no change |
| AdminDashboard.PostStore.InsertSections | components/admin-dashboard.tsx:337 | appends the rows in one batch, or fails with no change |
| AdminDashboard.PostStore.DeletePost | components/admin-dashboard.tsx:153 | removes the post row and its sections, or fails with no change |
| AdminDashboard.ReplaceSections | components/admin-dashboard.tsx:322-341 | a failed delete is returned and nothing is inserted; no blocks means delete only and success; a failed insert is returned with the rows deleted; on success the post's rows are exactly its blocks' rows |
| AdminDashboard.TempGoesToInsert | components/admin-dashboard.tsx:163 | a `temp-` id is never routed to update |
| AdminDashboard.ExistingIffCached | components/admin-dashboard.tsx:163 | update is chosen exactly when the cache holds the id and it has no `temp-` prefix |
| AdminDashboard.Payload | components/admin-dashboard.tsx:165-172 | the row payload: the editor's fallbacks, `published_at` null unless published, then the existing date or today, `updated_at` the save stamp |
| AdminDashboard.CreatedBlocksRoundTrip | components/admin-dashboard.tsx:219-225 | mapping the created row back gives the saved blocks again, sorted by `order`, and exactly them when they were already sorted |
| AdminDashboard.MergeUpdated | components/admin-dashboard.tsx:194-199 | only cache entries with the saved id are replaced; length and order kept |
| AdminDashboard.MergeCreated | components/admin-dashboard.tsx:226 | the new post comes first, followed by the cached posts without any `temp-` entry, in order; every other cached post is kept, each as often as before |
| Auth.IsAllowed | components/admin-dashboard.tsx:44 | only a session with a present, non-empty email (the one allowed address) is authorized |
| AdminDashboard.IsExisting | components/admin-dashboard.tsx:163 | a post counts as existing only under an id without the `temp-` prefix |
| AdminDashboard.CreatedRow | components/admin-dashboard.tsx:219-225 | the row mapped after a create: the store's key, every payload column (title, slug, excerpt, status, publication and update dates), and one section per saved block carrying that block's own id, kind, content and `order` as position |
| AdminDashboard.CreatedPostFields | components/admin-dashboard.tsx:219-226 | the post cached after a create has the store's key, the title and slug fallbacks, the submitted excerpt and status, and the save's date as update date |
| AdminDashboard.WriteErrorMessage | components/admin-dashboard.tsx:183 | a rejected post-row write reports the store's non-empty message, and any other failure the fallback text |
| AdminDashboard.CreatedOnce | components/admin-dashboard.tsx:226 | after a create the new id is in the cache exactly once, and no `temp-` entry is left |
| AdminDashboard.RemovePost | components/admin-dashboard.tsx:152 | no entry with the id remains; others kept in order, each as often as before |
| AdminDashboard.NewDraft | components/admin-dashboard.tsx:130-140 | the new draft: a `temp-` id, empty fields, status draft, author "Admin", no blocks, updated today |
| AdminDashboard.DashboardRoute | components/admin-dashboard.tsx:92-101 | no session goes to sign-in, another email to the denial page, and the page stays exactly for the allowed email |
| AdminDashboard.Dashboard.constructor | components/admin-dashboard.tsx:34-41 | the initial state: posts view, nothing selected, empty cache, loading, no error, no session |
| AdminDashboard.Dashboard.ShowsDashboard | components/admin-dashboard.tsx:252 | the dashboard is rendered only for the allowed session, once loading is over |
| AdminDashboard.Dashboard.InitSession | components/admin-dashboard.tsx:92-101 | stores the session and routes; the dashboard shows exactly when it stays |
| AdminDashboard.Dashboard.SessionChanged | components/admin-dashboard.tsx:105-116 | as on mount, and losing the session empties the cache |
| AdminDashboard.Dashboard.SignOut | components/admin-dashboard.tsx:123-128 | the session and cache are cleared and the posts view is set |
| AdminDashboard.Dashboard.CreatePost | components/admin-dashboard.tsx:130-144 | the new draft goes first in the cache, selected, in the editor |
| AdminDashboard.Dashboard.EditPost | components/admin-dashboard.tsx:146-149 | selects the post and opens the editor |
| AdminDashboard.Dashboard.PreviewPost | components/admin-dashboard.tsx:239-242 | selects the post and opens the preview |
| AdminDashboard.Dashboard.BackToPosts | components/admin-dashboard.tsx:234-237 | back to the list with nothing selected |
| AdminDashboard.Dashboard.EditFromPreview | components/admin-dashboard.tsx:244-248 | opens the editor only when a post is selected |
| AdminDashboard.Dashboard.Navigate | components/admin-dashboard.tsx:257-260 | opens the view; going to the list drops the selection |
| AdminDashboard.Dashboard.DeletePost | components/admin-dashboard.tsx:151-157 | the entries leave the cache first; a failed delete sets the error and does not restore them |
| AdminDashboard.Dashboard.SavePost | components/admin-dashboard.tsx:159-232 | a failed or empty metadata write sets the error and changes neither cache, view nor store; a failed section write sets the error with the post row left written; success replaces the post's rows and merges into the cache (update in place or created first without `temp-` entries) and returns to the list |
| PostPreview.RenderContentBlock | components/post-preview.tsx:15-43 | text as raw HTML, image from its content or the placeholder, video from its content, quote as nothing |
| PostPreview.SortByOrderInPlace | components/post-preview.tsx:103-104 | the caller's array ends sorted by `order` and holds the same blocks |
| PostPreview.InsertIntoSorted | components/post-preview.tsx:104 | one insertion step extends the sorted prefix and keeps the same blocks |
| PostPreview.RenderBody | components/post-preview.tsx:101-119 | no blocks shows the empty state; otherwise the blocks, sorted in place, rendered one by one in that order |
| PostPreview.PublishedLine | components/post-preview.tsx:91-96 | the published line appears exactly for a non-empty publication date |
| PostPreview.ExcerptLine | components/post-preview.tsx:85-87 | the excerpt paragraph appears exactly for a non-empty excerpt, showing that excerpt |
| PostsList.FilteredPosts | components/posts-list.tsx:26-29 | a subsequence of the posts holding exactly the matching ones, each as often as listed |
| PostsList.MatchesAt | components/posts-list.tsx:26-29 | a post matches exactly when the lower-cased query occurs in its lower-cased title or excerpt |
| PostsList.EmptyQueryKeepsAll | components/posts-list.tsx:26-29 | an empty query lists every post |
| PostsList.FilterTwice | components/posts-list.tsx:26-29 | filtering the result again changes nothing |
| PostsList.QueryCaseIgnored | components/posts-list.tsx:27-28 | the query's letter case does not change the result |
| PostsList.EmptyListHint | components/posts-list.tsx:129-135 | a hint only when nothing is listed: "Try adjusting your search" exactly for a non-empty query |
| DashboardShell.ReplacePost | components/dashboard-shell.tsx:88 | every entry with the post's id is replaced; length and order kept |
| DashboardShell.ReplaceUnlisted | components/dashboard-shell.tsx:88 | saving a post that is not listed changes nothing |
| DashboardShell.ReplaceTwice | components/dashboard-shell.tsx:88 | saving the same edit twice equals saving it once |
| DashboardShell.RemovePost | components/dashboard-shell.tsx:95 | no entry with the id remains; others kept in order |
| DashboardShell.CreateThenDelete | components/dashboard-shell.tsx:86-95 | a post created under an unused id and then deleted leaves the list exactly as it was |
| DashboardShell.RemoveTwice | components/dashboard-shell.tsx:95 | deleting again changes nothing |
| DashboardShell.Shell.constructor | components/dashboard-shell.tsx:70-72 | starts on the list with nothing selected |
| DashboardShell.Shell.CreatePost | components/dashboard-shell.tsx:74-77 | clears the selection and enters create |
| DashboardShell.Shell.EditPost | components/dashboard-shell.tsx:79-82 | selects the post and enters edit |
| DashboardShell.Shell.SavePost | components/dashboard-shell.tsx:84-92 | create appends one post under the new id; edit replaces by id; both end on the list with no selection |
| DashboardShell.Shell.DeletePost | components/dashboard-shell.tsx:94-100 | removes every entry with the id; view and selection reset only when the selected post was deleted |
| DashboardShell.Shell.Cancel | components/dashboard-shell.tsx:102-105 | back to the list with no selection |
| SettingsPage.RemoveMember | components/settings-page.tsx:100-102 | no member with the id remains; others kept in order |
| SettingsPage.UpdateRole | components/settings-page.tsx:104-106 | same members in the same order, only the role of those with the id changed |
| SettingsPage.UpdateAfterRemove | components/settings-page.tsx:100-106 | after a removal, changing that id's role does nothing |
| SettingsPage.UpdateRoleTwice | components/settings-page.tsx:104-106 | the later of two role changes wins |
| SettingsPage.Settings.constructor | components/settings-page.tsx:54-79 | three initial members, dialog closed, blank form with role editor |
| SettingsPage.Settings.ThemeToggle | components/settings-page.tsx:81-83 | checked gives dark, unchecked light, and the switch then shows that state |
| SettingsPage.Settings.AddMember | components/settings-page.tsx:85-98 | without both a name and an email nothing changes; otherwise one member appended from the form with the fixed avatar, the form reset and the dialog closed |
| SettingsPage.Settings.RemoveMemberById | components/settings-page.tsx:100-102 | the list becomes `RemoveMember` of it |
| SettingsPage.Settings.UpdateRoleById | components/settings-page.tsx:104-106 | the list becomes `UpdateRole` of it |
| SettingsPage.AddFromOpeningState | components/settings-page.tsx:79-98 | since nothing edits the form, adding from the opening state leaves the initial members |
| Sidebar.FirstLetter | components/sidebar.tsx:19 | the upper-cased first character, or the empty string for an empty part |
| Sidebar.FirstLetters | components/sidebar.tsx:18-20 | at most one letter per part |
| Sidebar.Initials | components/sidebar.tsx:15-22 | at most two characters; "AC" without an email |
| Sidebar.FirstLettersScan | components/sidebar.tsx:16-20 | the letters are exactly the upper-cased characters that start a non-empty dot-separated segment, in order |
| Sidebar.InitialsNotLower | components/sidebar.tsx:19 | no lower-case letter appears in the initials |
| Sidebar.InitialsExample | components/sidebar.tsx:15-22 | `ann.lee@x.io` gives "AL" |
| Sidebar.DotsOnlyNoInitials | components/sidebar.tsx:19 | empty segments contribute nothing |
| Sidebar.AvatarText | components/sidebar.tsx:80 | never empty: the initials, or "A" |
| Sidebar.EmptyLocalPart | components/sidebar.tsx:80 | an email starting with `@` shows "A" |
| Sidebar.NameLine | components/sidebar.tsx:84 | never empty: the email, or "Signed in" |
| SignIn.SignInRoute | app/signin/page.tsx:16-28 | the allowed email goes to the dashboard, any other non-empty email to the denial page, otherwise the page stays |
| SignIn.Screen.constructor | app/signin/page.tsx:12-13 | starts checking, with no error |
| SignIn.Screen.CheckSession | app/signin/page.tsx:16-28 | checking ends, and the button shows, exactly when the page stays; redirects change nothing else |
| SignIn.Screen.ErrorLine | app/signin/page.tsx:64 | the error line appears exactly for a non-empty error, showing that message |
| SignIn.Screen.StartSignIn | app/signin/page.tsx:32-44 | the error is cleared, then set to the provider's message exactly when the call fails |
| Sorry.SorryRoute | app/sorry/page.tsx:11-19 | no session goes to sign-in, the allowed email to the dashboard, every other session stays |
| Sorry.SignOut | app/sorry/page.tsx:23-26 | the session is gone and the page goes to sign-in |
| Sorry.SwitchAccount | app/sorry/page.tsx:43 | goes to sign-in with the session kept |
| AccessGate.NoRedirectLoops | app/sorry/page.tsx:14-18 | after at most one redirect every session is on a page whose own check stays |
| AccessGate.DashboardOnlyForAllowed | components/admin-dashboard.tsx:97-101 | from any page, the dashboard is reached exactly by the allowed email |
| AccessGate.SignedOutEndsOnSignIn | app/sorry/page.tsx:14-15 | without a session every page ends on sign-in |
| AccessGate.OtherEmailEndsOnSorry | app/signin/page.tsx:23-26 | another non-empty email ends on the denial page from every page |
| AccessGate.SwitchAccountBounces | app/sorry/page.tsx:43 | as written, "Switch account" comes back to the denial page for every visitor signed in with another non-empty email |
| AccessGate.SwitchAccountBouncesExample | app/sorry/page.tsx:43 | a concrete visitor for whom it bounces |
| AccessGate.SwitchAccountCorrected | app/sorry/page.tsx:23-26 | signing out first ends on sign-in with no session, where the button is offered |

## Left out

- Supabase I/O is left out:
  - the network calls themselves and the query text;
  - `fetchPosts` (the initial listing and its ordering by update time);
  - the OAuth redirect to Google;
  - `router.replace` navigation.

  The store is an abstract state. Each call's success or failure is an input (`Fault`). A redirect is a returned `Route`.
- Deleting a post row is modelled as also deleting its section rows. The database schema that would do this is not part of this model.
- The clock, `Date.now()` and `Math.random()` are parameters. Timestamp ids are not unique, and nothing here assumes they are.
- Section ids assigned by the store are left out. After a create, the cached post's blocks keep the editor's own block ids; `randomId` is used only for a section row read back with a missing or empty id.
- Aliasing is left out; the model copies values instead. In the code, the editor's move renumbers block objects that the cached post still shares, so after an unsaved move and "Back" the cached post's blocks carry the new `order` values, and the preview shows the moved order. The preview's in-place sort likewise reorders the array held by the dashboard's cache.
- The sidebar's navigation highlighting (`components/sidebar.tsx:47-67`) is not modelled: it is a comparison of the current view's name, with nothing to prove beyond the comparison.
- PostPreview.SortByOrderInPlace: the tie order among equal `order` values is not stated. The same holds for Content.SortByOrder. Only sortedness and permutation are proved.
- Concurrency is left out: interleaved async handlers, stale `posts` captured across `await`, and `isSaving` as a guard. Handlers run one at a time.
- Strings are ASCII only. Unicode case mapping and the Unicode `\s` class are not modelled.
- `order` is an unbounded integer. JavaScript numbers (fractions, `NaN`) and the comparator `a.order - b.order` on them are not modelled.
- AdminDashboard.SectionRows: the `?? index` fallback for a missing `order` is not modelled, because `order` is always present in the typed block.
- `components/content-block-editor.tsx`, `components/analytics-page.tsx` and `components/theme-provider.tsx` are not part of this model. They are rendering, static figures, and DOM/`localStorage` I/O.
- Mock data contents are not modelled: the shell's three posts and the settings page's theme colours. The shell's constructor takes the initial posts as a parameter.
- JSX, styling and icons are not modelled.
- The shell passes the sidebar and editor props they no longer accept. This is not modelled, because only its list handlers are.
- The settings page renders no team-member controls. `AddFromOpeningState` records that its add handler then has no effect.

## Findings

| source | as written | input that shows it | evidently intended | confidence | as-written member | corrected member |
|---|---|---|---|---|---|---|
| app/sorry/page.tsx:43 | "Switch account" only navigates to `/signin` and keeps the session; the sign-in page's check then sends any other non-empty email straight back to `/sorry` | a session whose email is `someone@example.com` | sign out first (as the page's own sign-out handler does), so that the sign-in page stays and offers the Google button | medium, not executed | AccessGate.SwitchAccountBounces | AccessGate.SwitchAccountCorrected |
