# Feed client state logic, verified

This project models the logic of a small social-feed web client written in
TypeScript/React, and proves facts about it. What it models: the feed page's
load transform and its in-memory patches after a like or a new comment, the
post composer form, the per-post comment form, and the profile-image picker's
file check. Rendering and the hosted data store are not modelled. Each call
into the data store becomes an outcome the model takes as a parameter:
`Gateway.Reply<T>`, which is `Ok(payload)` or `Err`.

Modules, one per component:

- `Collections`: `Option` and a `Map` that stands for `Array.prototype.map`.
- `Text`: `trim`, blankness, `startsWith`, and upper-casing one character.
- `Gateway`: the outcome types of data-store calls and of awaited callbacks.
- `FeedPage`: wire rows, view-model posts, and the pure load, comment and like transforms with their lemmas. The class `Feed` holds the page's `posts` and `loading` state. `SubmitComment` wires a comment form to the feed's add-comment handler.
- `CommentSection`: the comment form state machine (class `Form`), its enabled predicate and `Initials`.
- `WritePage`: the composer state machine (class `Composer`) and its enabled predicate.
- `ProfileImageUpload`: the file check `Check` and the picker state (class `Uploader`).
- `FeedScenario` and `WriteScenario`: client methods that use only the contracts. `FeedScenario` loads two posts, `{id 1, likes 5, no comments}` and `{id 2, likes 0, one comment}`. It then likes post 1 (likes become 6, post 2 unchanged) and comments on post 2 with the returned row `{id 99, "Bob", "hi"}` (post 2's list becomes the old comment followed by the new one, and its counter becomes 2). `WriteScenario`: with an empty nickname and text "hello", submitting is blocked, and the fields and the posting flag stay as they were.

An asynchronous handler is split at its `await` into `Begin…` and `End…`, so the in-flight flag can be observed between the two halves. A composed method runs both halves as one step. Callbacks passed in as props are recorded as values: `onImageChange` calls go into the log field `Uploader.notified`, and `onAddComment` is the feed's `AddComment` or a `Settlement`. Alerts become return values. The blocked-submit prompt is `Start.Blocked`; the post-result alerts are `Notice`; the file alerts are `Verdict`.

Points where the code's behaviour is easy to misread:

- `handleAddComment` (src/app/components/FeedPage.tsx:48-91) has no trim check: it sends whatever it gets. The check is only in the comment form (src/app/components/CommentSection.tsx:33). So `Feed.AddComment` has no guard, and `SubmitComment` gets it from `Form.BeginSubmit`.
- The like patch sets the new count on *every* post with the target id. The count is computed from the *first* matching post (`find` then `map`). `LikeIncrements` proves the "only the target changes" property under unique ids. The data store assigns ids, so they are unique in practice.
- A loaded comment copies `profile_image_url` as it is. A newly inserted comment maps an empty URL to absent (`|| undefined`). `LoadedComment` and `InsertedComment` model the two paths separately.

## Model

| member | source | states |
|---|---|---|
| `Text.Trim` | src/app/components/WritePage.tsx:26 | `trim` gives the slice of `s` left after removing exactly its leading and trailing whitespace, and neither end of that slice is whitespace |
| `Text.BlankIffAllSpace` | src/app/components/CommentSection.tsx:33 | the guard's `!s.trim()`, modelled by `Text.Blank`, holds exactly when every character of `s` is whitespace |
| `Text.TrimIdempotent` | src/app/components/WritePage.tsx:130 | trimming twice gives the same result as trimming once |
| `Text.UpperChar` | src/app/components/CommentSection.tsx:51 | a lower-case ASCII letter becomes the matching upper-case letter; every other character is kept |
| `FeedPage.LoadCopiesRows` | src/app/components/FeedPage.tsx:128-146 | the load transform `Transform` (built from `LoadedPost` and `LoadedComment`) keeps the number and order of the rows, and copies id, content, author, likes, image and creation time |
| `FeedPage.LoadCountsComments` | src/app/components/FeedPage.tsx:135-144 | for `Transform`, `LoadedPost` and `JoinedCount`: each loaded counter equals the length of its comment list and the number of joined comments; a post with no joined comments gets 0 and `[]`; the list holds the joined comments in order |
| `FeedPage.LoadEstablishesCounters` | src/app/components/FeedPage.tsx:128-146 | after a load, every post's counter equals its list length |
| `FeedPage.InsertedComment` | src/app/components/FeedPage.tsx:68-74 | the new comment copies id, nickname and content from the returned row and shows `created_at` as its timestamp; it has an image exactly when the row has a non-empty one, and then it is that image |
| `FeedPage.AddCommentAt` | src/app/components/FeedPage.tsx:77-87 | the add-comment patch `AddCommentPatch` (with its per-post step `WithComment`) keeps the number of posts; each post with the target id gets its counter raised by exactly 1 and the comment appended at the end, and nothing else on it changes; every other post is unchanged |
| `FeedPage.AddCommentKeepsCounters` | src/app/components/FeedPage.tsx:77-87 | adding a comment keeps counter equal to list length for every post |
| `FeedPage.FindPost` | src/app/components/FeedPage.tsx:162-163 | `find` gives nothing exactly when no post has the id; otherwise it gives the first post with that id |
| `FeedPage.LikeAt` | src/app/components/FeedPage.tsx:174-178 | the like patch `LikePatch` (with its per-post step `WithLikes`) keeps the number of posts, sets likes on each post with the target id and changes nothing else |
| `FeedPage.LikeIncrements` | src/app/components/FeedPage.tsx:160-178 | a like on a present post raises its count by exactly 1; with unique ids every other post is unchanged |
| `FeedPage.LikeKeepsCounters` | src/app/components/FeedPage.tsx:174-178 | a like keeps counter equal to list length for every post |
| `FeedPage.LikeAndCommentCommute` | src/app/components/FeedPage.tsx:77-87 | a like result and an add-comment result give the same posts in either order |
| `FeedPage.Feed.constructor` | src/app/components/FeedPage.tsx:44-45 | the page mounts with no posts and `loading` set |
| `FeedPage.Feed.BeginLoad` | src/app/components/FeedPage.tsx:95 | `loading` is raised and the posts are kept |
| `FeedPage.Feed.EndLoad` | src/app/components/FeedPage.tsx:121-151 | an error or a null payload keeps the posts; returned rows, an empty list too, replace them with their transform; `loading` is false on every path; the counter invariant is kept |
| `FeedPage.Feed.Load` | src/app/components/FeedPage.tsx:94-152 | after a whole load, `loading` is false, and posts are the transform of the rows or unchanged |
| `FeedPage.Feed.AddComment` | src/app/components/FeedPage.tsx:48-91 | the insert sends post id, nickname and content; on success the posts are the add-comment patch with the returned row; on failure they are unchanged; the handler always resolves; `loading` is untouched |
| `FeedPage.Feed.Like` | src/app/components/FeedPage.tsx:160-182 | no update is sent exactly when the id is missing, and then nothing changes; otherwise the update carries the first match's likes + 1, and the posts take the like patch only on success |
| `FeedPage.SubmitComment` | src/app/components/FeedPage.tsx:241-245 | a blank nickname or text sends nothing and changes nothing; otherwise the insert is sent, the posts are patched on success only, and the form is cleared, collapsed and idle on both outcomes |
| `CommentSection.SubmitDisabledIff` | src/app/components/CommentSection.tsx:136 | `CommentSection.SubmitDisabled`, the button's `disabled` expression, holds exactly when the nickname or text is all whitespace or a submission is in flight; an enabled button passes the guard |
| `CommentSection.Initials` | src/app/components/CommentSection.tsx:51 | empty exactly for an empty name; otherwise one character, which is the first character of the name upper-cased (a lower-case ASCII letter becomes its capital, any other character is kept) |
| `CommentSection.InitialsOfFirst` | src/app/components/CommentSection.tsx:51 | the initials depend only on the first character and are their own initials |
| `CommentSection.Form.constructor` | src/app/components/CommentSection.tsx:26-29 | a form starts with empty fields, idle and collapsed |
| `CommentSection.Form.Open` | src/app/components/CommentSection.tsx:88 | the form expands and nothing else changes |
| `CommentSection.Form.SetNickname` | src/app/components/CommentSection.tsx:106 | only the nickname changes |
| `CommentSection.Form.SetContent` | src/app/components/CommentSection.tsx:114 | only the text changes |
| `CommentSection.Form.Cancel` | src/app/components/CommentSection.tsx:125-129 | the form collapses and both fields are cleared |
| `CommentSection.Form.BeginSubmit` | src/app/components/CommentSection.tsx:31-39 | no call is made exactly when a field is blank, and then nothing changes; otherwise `isSubmitting` is raised and `onAddComment` gets the untrimmed fields |
| `CommentSection.Form.EndSubmit` | src/app/components/CommentSection.tsx:39-48 | `isSubmitting` is lowered on every path; a resolved call clears both fields and collapses the form; a rejected one keeps them |
| `WritePage.ImageField` | src/app/components/WritePage.tsx:40 | an empty image is sent as null; any other image is sent unchanged |
| `WritePage.SubmitDisabledIff` | src/app/components/WritePage.tsx:130 | `WritePage.SubmitDisabled`, the button's `disabled` expression, holds exactly when the text or nickname is all whitespace or a post is in flight; an enabled button passes the guard |
| `WritePage.Composer.constructor` | src/app/components/WritePage.tsx:8-11 | the page starts with empty fields and nothing in flight |
| `WritePage.Composer.SetNickname` | src/app/components/WritePage.tsx:105 | only the nickname changes |
| `WritePage.Composer.SetContent` | src/app/components/WritePage.tsx:118 | only the text changes |
| `WritePage.Composer.UploadImage` | src/app/components/WritePage.tsx:13-22 | with no file nothing changes; otherwise the file's data URL becomes the image |
| `WritePage.Composer.BeginSubmit` | src/app/components/WritePage.tsx:24-43 | blocked exactly when the text or nickname is blank, and then nothing changes; otherwise `isPosting` is raised and the insert carries the untrimmed fields, with an empty image as null |
| `WritePage.Composer.EndSubmit` | src/app/components/WritePage.tsx:45-59 | `isPosting` is lowered on both paths; success clears all three fields and alerts success; failure keeps them and alerts failure |
| `WritePage.Composer.Submit` | src/app/components/WritePage.tsx:24-60 | the whole handler: blocked with every field and flag unchanged, or sent and settled with `isPosting` false and the fields cleared or kept by outcome |
| `ProfileImageUpload.Check` | src/app/components/ProfileImageUpload.tsx:33-42 | using `Text.StartsWith` for `startsWith("image/")`: a type not starting with "image/" is refused for its type; an image over 5·1024·1024 bytes is refused for size; anything else is accepted |
| `ProfileImageUpload.SizeBoundary` | src/app/components/ProfileImageUpload.tsx:39-42 | an image of exactly 5242880 bytes passes; one byte more is refused |
| `ProfileImageUpload.TypeCheckedFirst` | src/app/components/ProfileImageUpload.tsx:33-36 | a non-image gets the type error whatever its size |
| `ProfileImageUpload.CheckExamples` | src/app/components/ProfileImageUpload.tsx:33-42 | a 10 MiB PDF gets the type error, "image" without a slash is not an image type, and a small PNG passes |
| `ProfileImageUpload.InitialPreview` | src/app/components/ProfileImageUpload.tsx:16-18 | the initial preview is the current image when it is given and non-empty, otherwise null |
| `ProfileImageUpload.Uploader.constructor` | src/app/components/ProfileImageUpload.tsx:16-18 | the picker starts with the initial preview and no notifications |
| `ProfileImageUpload.Uploader.SelectFile` | src/app/components/ProfileImageUpload.tsx:27-56 | no file gives no verdict; a file gets the verdict of `Check`; only an accepted file changes the preview and notifies `onImageChange` with its data URL; a refused file changes nothing |
| `ProfileImageUpload.Uploader.RemoveImage` | src/app/components/ProfileImageUpload.tsx:58-60 | the preview becomes null and `onImageChange(null)` is recorded |

## Left out

- Data-store queries and mutations are foreign network calls. Each is a `Reply` parameter. The post insert's returned rows are only logged, so that reply carries no payload.
- Concurrency is not modelled: in-flight races, the stale `posts` closure read by `handleLike` (src/app/components/FeedPage.tsx:162, 174-175), and responses arriving after the view is torn down. Each handler half is an atomic sequential step.
- Nothing in the model stops a second `BeginSubmit` while one is in flight. Neither submit handler checks its in-flight flag; only the disabled button does.
- `FileReader` and data-URL encoding are browser APIs. The encoded string is an opaque parameter (`encoded`), and choosing a file and reading it are one step. Errors thrown by the browser inside `handleFileSelect`'s `try` are not modelled.
- `handleRemoveImage` also resets the DOM file input (src/app/components/ProfileImageUpload.tsx:61-63). `handleClick` opens the file dialog. Both are DOM effects.
- `console` output and the text of alerts are not modelled. Alerts appear only as the returned `Start`, `Notice` or `Verdict` values.
- Rendering, styling, `next/image`, `sizeClasses`, the `Loading…` early return, the navigation shell and the error-boundary wrappers are out: they are presentation only.
- The `maxLength` attributes are not modelled. The browser enforces them; the code never checks lengths.
- `Text.IsSpace` fixes the ECMAScript WhiteSpace and LineTerminator characters, with the space separators of the current Unicode version. Later Unicode versions are not tracked.
- Text.UpperChar: upper-cases only ASCII letters. Characters whose JavaScript upper case differs outside ASCII, or has more than one character (such as "ß"), are kept as they are.
- CommentSection.Initials: works on Unicode scalar values, not on UTF-16 code units, so an astral first character is not split. It inherits the ASCII-only upper-casing.
- Ids and like counts are unbounded integers. JavaScript number precision above 2^53 is not modelled.
