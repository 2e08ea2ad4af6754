# Blog content store and page logic, modelled in Dafny

This project models the core of a small blog platform. The server keeps
posts and comments as two JSON arrays and exposes them through a REST API.
The browser pages filter the fetched posts, validate three forms and keep a
little local state on the single-post page.

The model has these parts.

- **The content store (`BlogStore`, blog_store.dfy).** A `ContentStore`
  class has two fields, `posts: seq<Post>` and `comments: seq<Comment>`.
  Each route handler is one atomic method: get, create, update and delete a
  post, list and add comments, search, and list categories. The handlers
  that can fail (get, create, update and delete a post, add a comment)
  return `Ok`, `NotFound` or `ValidationError`; the listing handlers
  return the sequence itself. The pure parts of the
  handlers are functions with their own contracts: the lookup, the defaults
  of a new post, the shallow merge of an update, the filters and the
  category deduplication. The three seed posts of `initializeData` are the
  initial state when no posts file exists.
- **The home page filter (`HomePage`, home_page.dfy).** This is the
  client-side text and category filter. `clearFilters` is modelled, and so
  are the two effects that write the filters to the URL and read them back,
  and the result-count noun. The filter is proved to agree with the
  server's search whenever the query is empty or not blank and the
  selected category is not the empty string.
- **The forms.** Each form has a field-replacing `handleChange`, a
  required-field check on trimmed values, and a submit split in two at the
  request. `Submit` is the synchronous part up to the request; `Settle`
  runs after the response. The forms are the new-post form
  (`CreatePostPage`, create_post.dfy) with its comma-separated tag parser,
  the comment form (`CommentFormComponent`, comment_form.dfy) and the
  contact form (`ContactPage`, contact.dfy).
- **The single-post page (`BlogPostPage`, blog_post.dfy).** The like toggle
  keeps the invariant "count = unliked count + 1 while liked". New comments
  are prepended, and the page chooses between its spinner, its not-found
  notice and the article.
- **Shared helpers.** `Seqs` (seqs.dfy) holds `filter`, the
  order-preserving subsequence relation and first-seen deduplication.
  `Text` (text.dfy) holds `toLowerCase`, `includes`, `trim` and `split`.
  `Wrappers` (wrappers.dfy) holds `Option`.

Modelling conventions:

- JavaScript truthiness of an optional string (`!title`, `excerpt || …`)
  means "absent or empty". For `readTime` the falsy cases are "absent or
  zero". The `tags || []` fallback applies only to an absent key, because an
  array is always truthy.
- Request bodies are records of `Option` fields. `None` is a key that the
  body leaves out.
- Ids and timestamps are parameters, because `uuidv4()` and `new Date()`
  are outside the model. A timestamp is an integer count of milliseconds.
- React state updates are field assignments. Derived state such as
  `filteredPosts` and the rendered view is a function of the fields.

Three behaviours of the code that are easy to misread:

- The update handler spreads the whole request body over the stored post,
  so a body naming `id` or `createdAt` overwrites them (`Merged`).
- The default read time counts the pieces of `content.split(' ')`, which
  is one more than the number of spaces, not the number of words
  (`WordCount`, `DefaultReadTime`).
- Delete removes every stored post carrying the id, not just the first
  (`WithoutPost`).

## Model

| member | source | states |
|---|---|---|
| `Text.Lower` | server/index.js:258 | same length as the input, no ASCII capital left, each character case-mapped |
| `Text.LowerIdempotent` | server/index.js:258-262 | lower-casing twice is lower-casing once |
| `Text.Contains` | server/index.js:260-262 | `includes`; specified by `Text.ContainsIff` |
| `Text.ContainsIff` | server/index.js:260-262 | `includes` holds exactly when the term starts at some offset of the text |
| `Text.ContainsEmpty` | client/src/pages/Home.js:59-63 | the empty term is contained in every string |
| `Text.TrimStart` | client/src/pages/CreatePost.js:33 | result is a suffix, everything dropped is whitespace, result does not start with whitespace |
| `Text.TrimEnd` | client/src/pages/CreatePost.js:33 | result is a prefix, everything dropped is whitespace, result does not end with whitespace |
| `Text.Trim` | client/src/pages/CreatePost.js:33 | no longer than the input, and a non-empty result has no whitespace at either end; the exact result is `Text.TrimExact` |
| `Text.TrimExact` | client/src/pages/CreatePost.js:33 | the result is the slice of the input between its leading and its trailing whitespace, both removed entirely |
| `Text.TrimEmptyIff` | client/src/pages/CreatePost.js:33 | trimming leaves nothing exactly when the input is all whitespace |
| `Text.TrimIdempotent` | client/src/pages/CreatePost.js:44 | trimming a trimmed string changes nothing |
| `Text.TrimKeepsCharacters` | client/src/pages/CreatePost.js:44 | trimming adds no character that the input lacks |
| `Text.Split` | client/src/pages/CreatePost.js:44 | at least one piece; no piece holds the separator; pieces use only input characters |
| `Text.SplitCount` | client/src/pages/CreatePost.js:44 | there is one more piece than there are separators |
| `Text.JoinSplit` | client/src/pages/CreatePost.js:44 | joining the pieces with the separator gives back the input |
| `Seqs.SubsequenceReflexive` | client/src/pages/Home.js:55 | a list is an order-preserving subsequence of itself |
| `Seqs.SubsequenceTransitive` | client/src/pages/Home.js:55-72 | a filter of a filter is still an order-preserving subsequence |
| `Seqs.SubsequenceMembers` | server/index.js:195 | every element of a subsequence occurs in the longer list |
| `Seqs.Filter` | server/index.js:195 | no longer than the input; every element kept passes; every passing element is kept; counts are `Seqs.FilterCounts` |
| `Seqs.FilterCounts` | server/index.js:195 | each passing element is kept as often as it occurs, each failing one never |
| `Seqs.FilterIsSubsequence` | server/index.js:195 | the filtered list is an order-preserving subsequence of the input |
| `Seqs.FilterKeepsLength` | server/index.js:195-197 | same length exactly when every element passes, and then the result is the input |
| `Seqs.FilterNone` | client/src/pages/CreatePost.js:44 | when no element passes, nothing is kept |
| `Seqs.Dedup` | server/index.js:281 | same elements as the input, each exactly once |
| `Seqs.DedupOfDistinct` | server/index.js:281 | a list without repeats is its own deduplication |
| `Seqs.FirstIndex` | server/index.js:281 | the first position holding the element |
| `Seqs.FirstIndexInPrefix` | server/index.js:281 | appending never moves the first occurrence of an element already present |
| `Seqs.DedupFirstSeenOrder` | server/index.js:281 | distinct elements come in the order of their first appearance |
| `BlogStore.FindPost` | server/index.js:112 | absent exactly when no post has the id; otherwise the first position with that id |
| `BlogStore.DefaultExcerpt` | server/index.js:144 | the first min(150, length) characters of the content followed by "..." |
| `BlogStore.WordCount` | server/index.js:151 | the number of `split(' ')` pieces is the number of spaces plus one |
| `BlogStore.DefaultReadTime` | server/index.js:151 | at least 1, and the least whole number of minutes covering the words at 200 per minute |
| `BlogStore.ValidPostInput` | server/index.js:133-135 | the guard: title, content and author all truthy; used by `BlogStore.ContentStore.CreatePost` |
| `BlogStore.NewPost` | server/index.js:140-153 | required fields copied; excerpt, category, tags and image defaulted when falsy; readTime given or, when absent or 0, exactly `DefaultReadTime(content)`; views 0; both timestamps now |
| `BlogStore.Merged` | server/index.js:175-179 | every key in the body overrides its field, every other field is kept, updatedAt is now whatever the body says |
| `BlogStore.FieldsDeterminePost` | server/index.js:175-179 | two posts with equal field values are equal |
| `BlogStore.MergedChangesOnlySupplied` | server/index.js:175-179 | a field the body does not name keeps its value |
| `BlogStore.MergedTwice` | server/index.js:175-181 | applying the same body twice equals applying it once at the later time |
| `BlogStore.WithoutPost` | server/index.js:195-197 | drops every post with the id, keeps every other one as often as it was stored, in order; same length exactly when no post has the id |
| `BlogStore.CommentsFor` | server/index.js:213 | every comment of the post as often as stored, no other, in storage order |
| `BlogStore.ValidCommentInput` | server/index.js:225-227 | the guard: name, email and content all truthy; used by `BlogStore.ContentStore.AddComment` |
| `BlogStore.TextFiltered` | server/index.js:258-263 | every post whose lower-cased title, content or a tag contains the lower-cased term, as often as stored, no other, in order |
| `BlogStore.CategoryFiltered` | server/index.js:266-268 | every post whose category matches case-insensitively, as often as stored, no other, in order |
| `BlogStore.Narrowed` | server/index.js:257-268 | the text filter then the category filter, each switched on or off; specified by `BlogStore.NarrowedSpec` |
| `BlogStore.NarrowedIsSubsequence` | server/index.js:257-268 | the pipeline's output is an order-preserving subsequence of the posts |
| `BlogStore.NarrowedCounts` | server/index.js:257-268 | every post passing the filters in force is kept as often as stored, every other post never |
| `BlogStore.NarrowedMembers` | server/index.js:257-268 | subsequence; every post kept passes; every passing post is kept |
| `BlogStore.NarrowedSpec` | server/index.js:257-268 | the text filter then the category filter, each on or off, keep exactly the posts passing those in force, each as often as stored, in order |
| `BlogStore.SearchPosts` | server/index.js:251-270 | the search route's result; specified by `BlogStore.SearchSpec` |
| `BlogStore.SearchSpec` | server/index.js:257-268 | search keeps exactly the posts passing each filter switched on (text when q is truthy, category when truthy and not "all"), each as often as stored, in order |
| `BlogStore.CategoryColumn` | server/index.js:281 | one category per post, position by position |
| `BlogStore.Categories` | server/index.js:281 | every post's category appears, each exactly once, and nothing else |
| `BlogStore.CategoriesFirstSeenOrder` | server/index.js:281 | categories come in the order of first appearance in storage |
| `BlogStore.SeedPosts` | server/index.js:40-83 | the three seed posts; specified by `BlogStore.SeedFacts` |
| `BlogStore.SeedFacts` | server/index.js:40-83 | the seed has three unviewed posts, newest first, with categories General, Technology, Design |
| `BlogStore.ContentStore.Initialize` | server/index.js:34-92 | an existing file is loaded as it is; a missing posts file gives the seed, a missing comments file gives none |
| `BlogStore.ContentStore.ListPosts` | server/index.js:97-101 | all posts in storage order |
| `BlogStore.ContentStore.GetPost` | server/index.js:108-122 | unknown id: NotFound, nothing changes; otherwise the first matching post gets one more view, nothing else changes, and that post is returned |
| `BlogStore.ContentStore.CreatePost` | server/index.js:129-158 | missing title, content or author: ValidationError, nothing changes; otherwise the new post is prepended and returned |
| `BlogStore.ContentStore.UpdatePost` | server/index.js:165-184 | unknown id: NotFound, nothing changes; otherwise only the first match is replaced by its merge with the body |
| `BlogStore.ContentStore.DeletePost` | server/index.js:191-202 | NotFound exactly when no post has the id, and then nothing changes; otherwise those posts are removed and comments stay |
| `BlogStore.ContentStore.ListComments` | server/index.js:209-214 | the post's comments in storage order |
| `BlogStore.ContentStore.AddComment` | server/index.js:221-244 | missing name, email or content: ValidationError; otherwise a comment with the path id is prepended, post existence unchecked |
| `BlogStore.ContentStore.Search` | server/index.js:251-270 | the search result over the stored posts |
| `BlogStore.ContentStore.ListCategories` | server/index.js:277-282 | the deduplicated categories of the stored posts |
| `BlogStore.CreateThenFetch` | server/index.js:112-122 | a post created then fetched comes back at the front with one view and its other fields as created |
| `HomePage.FilteredPosts` | client/src/pages/Home.js:54-75 | the filter effect; specified by `HomePage.FilteredSpec` |
| `HomePage.FilteredSpec` | client/src/pages/Home.js:54-75 | the list shown is an order-preserving subsequence keeping exactly the posts passing each filter in force, each as often as fetched |
| `HomePage.BlankQueryShowsAll` | client/src/pages/Home.js:58 | a blank query with category "all" shows every post |
| `HomePage.AgreesWithServerSearch` | client/src/pages/Home.js:58-72 | for an empty or non-blank query and a non-empty selection the page shows what the server's search returns |
| `HomePage.WhitespaceQueryDisagrees` | client/src/pages/Home.js:58 | for the query " " the page shows a post that the server's search drops |
| `HomePage.ResultNoun` | client/src/pages/Home.js:183 | "post" exactly when the count is 1, "posts" otherwise |
| `HomePage.Lookup` | client/src/pages/Home.js:22-23 | absent exactly when no pair has the key; otherwise the value of the first pair with that key |
| `HomePage.BuildSearchParams` | client/src/pages/Home.js:78-83 | `search` is set exactly for a non-empty query, `category` exactly for a selection other than "all", no other key |
| `HomePage.ReadSearchParams` | client/src/pages/Home.js:21-27 | a truthy parameter replaces the filter, an absent or empty one keeps it; specified by `HomePage.SearchParamsRoundTrip` |
| `HomePage.SearchParamsRoundTrip` | client/src/pages/Home.js:21-27 | reading back the written parameters on a fresh page restores both filters when the selection is not "" |
| `HomePage.HomeState.constructor` | client/src/pages/Home.js:11-17 | no posts, empty query, category "all", loading |
| `HomePage.HomeState.LoadSucceeded` | client/src/pages/Home.js:39-46 | fetched posts and categories stored, loading ends, filters kept |
| `HomePage.HomeState.LoadFailed` | client/src/pages/Home.js:42-46 | error "Failed to fetch posts", loading ends |
| `HomePage.HomeState.SetSearchQuery` | client/src/pages/Home.js:144 | the query becomes the typed text |
| `HomePage.HomeState.SetSelectedCategory` | client/src/pages/Home.js:164 | the selection becomes the chosen category |
| `HomePage.HomeState.ApplySearchParams` | client/src/pages/Home.js:21-27 | truthy URL parameters replace the filters, others keep them |
| `HomePage.HomeState.ClearFilters` | client/src/pages/Home.js:90-93 | query "" and category "all", after which every post is shown and the clear button is gone |
| `CreatePostPage.WithField` | client/src/pages/CreatePost.js:22-28 | the named field takes the value, every other field is unchanged |
| `CreatePostPage.InitialFormFields` | client/src/pages/CreatePost.js:10-18 | the initial form has category "General" and every other field "" |
| `CreatePostPage.TrimEach` | client/src/pages/CreatePost.js:44 | each piece trimmed, count and order kept |
| `CreatePostPage.MissingRequired` | client/src/pages/CreatePost.js:33 | the guard: title, content or author blank after trimming; used by `CreatePostPage.CreatePostState.Submit` |
| `CreatePostPage.ParseTags` | client/src/pages/CreatePost.js:44 | an order-preserving subsequence of the trimmed pieces keeping every non-empty piece as often as it occurs and no empty one; every tag non-empty, without edge whitespace or commas; at most commas + 1 tags |
| `CreatePostPage.NoTagsFromSeparators` | client/src/pages/CreatePost.js:44 | an input of only commas and whitespace, the empty input among them, gives no tags |
| `CreatePostPage.BuildPostData` | client/src/pages/CreatePost.js:42-45 | the payload equals the form in every field but tags, which are the parsed tags |
| `CreatePostPage.AcceptedFormPassesServer` | client/src/pages/CreatePost.js:33-47 | a form the page accepts passes the server's check; empty excerpt and image take the server defaults; the read time is the server's default for the content |
| `CreatePostPage.CreatePostState.constructor` | client/src/pages/CreatePost.js:10-20 | initial form, not loading, no error |
| `CreatePostPage.CreatePostState.HandleChange` | client/src/pages/CreatePost.js:22-28 | only the named field changes |
| `CreatePostPage.CreatePostState.Submit` | client/src/pages/CreatePost.js:30-47 | blank required field: error "Please fill in all required fields" and nothing sent; otherwise loading, error cleared, payload sent |
| `CreatePostPage.CreatePostState.Settle` | client/src/pages/CreatePost.js:47-57 | success navigates to the new post; failure sets the retry error; loading ends either way |
| `CommentFormComponent.WithField` | client/src/components/CommentForm.js:16-21 | the named field takes the value, the others are unchanged |
| `CommentFormComponent.MissingField` | client/src/components/CommentForm.js:26 | the guard: some field blank after trimming; used by `CommentFormComponent.CommentFormState.Submit` |
| `CommentFormComponent.FormCheckImpliesServerCheck` | client/src/components/CommentForm.js:26 | whatever the form lets through the server accepts; a whitespace-only name is stopped by the form only |
| `CommentFormComponent.CommentFormState.constructor` | client/src/components/CommentForm.js:8-14 | empty fields, not loading, no error |
| `CommentFormComponent.CommentFormState.HandleChange` | client/src/components/CommentForm.js:16-21 | only the named field changes |
| `CommentFormComponent.CommentFormState.Submit` | client/src/components/CommentForm.js:23-35 | blank field: error "Please fill in all fields", nothing sent; otherwise loading, error cleared, the form data sent |
| `CommentFormComponent.CommentFormState.Settle` | client/src/components/CommentForm.js:35-52 | success resets all fields and hands the server's comment on; failure keeps the form and sets the error; loading ends |
| `ContactPage.WithField` | client/src/pages/Contact.js:17-23 | the named field takes the value, the others are unchanged |
| `ContactPage.MissingRequired` | client/src/pages/Contact.js:28 | the guard: name, email or message blank after trimming; used by `ContactPage.ContactState.Submit` |
| `ContactPage.SubjectIsOptional` | client/src/pages/Contact.js:28 | the subject never affects the required-field check |
| `ContactPage.ContactState.constructor` | client/src/pages/Contact.js:7-15 | empty fields, not loading, no success, no error |
| `ContactPage.ContactState.HandleChange` | client/src/pages/Contact.js:17-23 | only the named field changes |
| `ContactPage.ContactState.Submit` | client/src/pages/Contact.js:25-35 | blank name, email or message: error set, form and success flag untouched; otherwise loading and error cleared |
| `ContactPage.ContactState.Settle` | client/src/pages/Contact.js:40-55 | success raises the flag and empties all four fields; failure sets the error; loading ends |
| `BlogPostPage.PostPageState.constructor` | client/src/pages/BlogPost.js:14-19 | no post, no comments, loading, not liked, count 0 |
| `BlogPostPage.PostPageState.View` | client/src/pages/BlogPost.js:67-86 | spinner while loading; not-found notice exactly when there is an error or no post |
| `BlogPostPage.PostPageState.FetchStarted` | client/src/pages/BlogPost.js:24 | loading is set |
| `BlogPostPage.InitialLikes` | client/src/pages/BlogPost.js:32 | `likes \|\| 0`; used by `BlogPostPage.PostPageState.FetchSucceeded` |
| `BlogPostPage.PostPageState.FetchSucceeded` | client/src/pages/BlogPost.js:30-37 | post and comments stored, count is `likes` or 0, loading ends, like invariant kept |
| `BlogPostPage.PostPageState.FetchFailed` | client/src/pages/BlogPost.js:33-37 | error "Post not found", loading ends, the not-found notice is shown |
| `BlogPostPage.PostPageState.HandleLike` | client/src/pages/BlogPost.js:44-47 | flag flips; count +1 after a like and -1 after an unlike; count = unliked count + (1 if liked) |
| `BlogPostPage.PostPageState.HandleCommentSubmit` | client/src/pages/BlogPost.js:63-65 | the new comment is first, the old ones follow in order, length grows by one |
| `BlogPostPage.LikeTwice` | client/src/pages/BlogPost.js:44-47 | two clicks restore both the flag and the count |

## Left out

- File I/O and JSON handling: `fs.access`, `mkdir`, `readFile`, `writeFile`, `JSON.parse` and `stringify`. The two collections are in-memory state.
- Storage failures, which the code answers with HTTP 500. Every handler here succeeds or answers 404 or 400.
- `uuidv4()` and `new Date().toISOString()`. Ids and times are parameters, and the ISO-8601 text form is not modelled.
- Express setup, middleware, static serving and `app.listen`. They are HTTP plumbing.
- Races between concurrent read-modify-write handlers on the same file. Each handler is atomic here.
- Text.Trim: its own contract states only the length bound and the edges; the exact slice is the lemma `Text.TrimExact`, kept apart because every form proof would otherwise carry it.
- Seqs.Filter: its own contract states membership in both directions; the element counts are the lemma `Seqs.FilterCounts`, kept apart for the same reason.
- Text.Lower: maps ASCII letters only, not the full Unicode case mapping of `toLowerCase`.
- Text.Contains: works on characters, not on UTF-16 code units.
- BlogStore.DefaultExcerpt: cuts at characters, not the UTF-16 code units of `substring`.
- Request bodies with keys outside the record, `null` values, or values of the wrong JSON type (a number as a title, a string as the read time). The body is a fixed record of optional fields.
- Repeated query parameters, which Express turns into arrays. `q` and `category` are optional strings.
- Rendering, animation, icons, date formatting, the axios calls themselves (their outcomes are parameters), `navigate` (returned as the route), `navigator.share` and the clipboard.
- The `setTimeout` calls in Contact.js. The two-second send is the `Settle` step, and the reset of the success flag after five seconds is not modelled.
- Header's scroll listener and search navigation, and Footer's newsletter form. They are browser events and timer flags.
- About.js, App.js, BlogCard.js and CommentList.js. They are presentation only.
- The home page's `handleSearch`. It only calls `preventDefault`.
- BlogPostPage.PostPageState.FetchSucceeded: the like flag is not reset when the page fetches again, as in the code. The ghost unliked count is re-derived so that the invariant still holds.
