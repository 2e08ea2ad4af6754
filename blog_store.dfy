/** The post and comment store behind the blog's REST API
    (server/index.js). Each route handler there reads a JSON file, changes
    an array and writes the file back; here the two collections are the
    fields of a ContentStore and each handler is one atomic method. */
module BlogStore {
  import opened Wrappers
  import opened Seqs
  import opened Text

  /** Milliseconds since the epoch; the ISO-8601 rendering is left out. */
  type Timestamp = int

  datatype Post = Post(
    id: string,
    title: string,
    content: string,
    excerpt: string,
    author: string,
    category: string,
    tags: seq<string>,
    image: string,
    createdAt: Timestamp,
    updatedAt: Timestamp,
    readTime: int,
    views: int)

  datatype Comment = Comment(
    id: string,
    postId: string,
    name: string,
    email: string,
    content: string,
    createdAt: Timestamp)

  /** The body of POST /api/posts; None is a key the body leaves out. */
  datatype PostInput = PostInput(
    title: Option<string>,
    content: Option<string>,
    excerpt: Option<string>,
    author: Option<string>,
    category: Option<string>,
    tags: Option<seq<string>>,
    image: Option<string>,
    readTime: Option<int>)

  /** The body of PUT /api/posts/:id: every key a body may carry,
      `id` and `createdAt` included. */
  datatype PostPatch = PostPatch(
    id: Option<string>,
    title: Option<string>,
    content: Option<string>,
    excerpt: Option<string>,
    author: Option<string>,
    category: Option<string>,
    tags: Option<seq<string>>,
    image: Option<string>,
    createdAt: Option<Timestamp>,
    updatedAt: Option<Timestamp>,
    readTime: Option<int>,
    views: Option<int>)

  /** The body of POST /api/posts/:id/comments. */
  datatype CommentInput = CommentInput(
    name: Option<string>,
    email: Option<string>,
    content: Option<string>)

  /** What a handler answers: 200/201 with a value, 404 or 400. */
  datatype Response<T> = Ok(value: T) | NotFound | ValidationError(message: string)

  const DefaultImage := "https://images.unsplash.com/photo-1486312338219-ce68d2c6f44d?w=800&h=400&fit=crop"
  const DefaultCategory := "General"
  const ExcerptLength := 150
  const WordsPerMinute := 200
  const PostFieldsRequired := "Title, content, and author are required"
  const CommentFieldsRequired := "Name, email, and content are required"
  const PostDeleted := "Post deleted successfully"

  /** JavaScript truthiness of an optional string: present and not "". */
  predicate Truthy(o: Option<string>) {
    o.Some? && o.value != ""
  }

  /** `o || fallback` on an optional string. */
  function OrElse(o: Option<string>, fallback: string): string {
    if Truthy(o) then o.value else fallback
  }

  // ---------------------------------------------------------------------
  // Looking posts up

  /** `posts.findIndex(p => p.id === id)`, None for -1. */
  function FindPost(posts: seq<Post>, id: string): (r: Option<nat>)
    ensures r.None? <==> forall j :: 0 <= j < |posts| ==> posts[j].id != id
    ensures r.Some? ==> r.value < |posts| && posts[r.value].id == id
    ensures r.Some? ==> forall j :: 0 <= j < r.value ==> posts[j].id != id
    decreases |posts|
  {
    if posts == [] then None
    else if posts[0].id == id then Some(0)
    else match FindPost(posts[1..], id)
      case None => None
      case Some(i) => Some(i + 1)
  }

  // ---------------------------------------------------------------------
  // Creating posts

  /** The guard `!title || !content || !author` fails. */
  predicate ValidPostInput(input: PostInput) {
    Truthy(input.title) && Truthy(input.content) && Truthy(input.author)
  }

  /** `content.substring(0, 150) + '...'`. */
  function DefaultExcerpt(content: string): (r: string)
    ensures |r| == (if |content| < ExcerptLength then |content| else ExcerptLength) + 3
    ensures IsPrefix(r[..|r| - 3], content)
    ensures r[|r| - 3..] == "..."
  {
    content[..if |content| < ExcerptLength then |content| else ExcerptLength] + "..."
  }

  /** `content.split(' ').length`: one more than the number of spaces. */
  function WordCount(content: string): (n: nat)
    ensures n == multiset(content)[' '] + 1
  {
    SplitCount(content, ' ');
    |Split(content, ' ')|
  }

  /** `Math.ceil(content.split(' ').length / 200)`: the least number of
      whole minutes that covers the words at 200 a minute. */
  function DefaultReadTime(content: string): (r: int)
    ensures r >= 1
    ensures (r - 1) * WordsPerMinute < WordCount(content) <= r * WordsPerMinute
  {
    (WordCount(content) + WordsPerMinute - 1) / WordsPerMinute
  }

  /** `readTime || …`: a present, non-zero read time is kept. */
  function ReadTimeOr(readTime: Option<int>, content: string): int {
    if readTime.Some? && readTime.value != 0 then readTime.value else DefaultReadTime(content)
  }

  /** The record createPost stores for a valid body. */
  function NewPost(input: PostInput, id: string, now: Timestamp): (p: Post)
    requires ValidPostInput(input)
    ensures p.id == id && p.title == input.title.value
    ensures p.content == input.content.value && p.author == input.author.value
    ensures Truthy(input.excerpt) ==> p.excerpt == input.excerpt.value
    ensures !Truthy(input.excerpt) ==> p.excerpt == DefaultExcerpt(p.content)
    ensures Truthy(input.category) ==> p.category == input.category.value
    ensures !Truthy(input.category) ==> p.category == DefaultCategory
    ensures p.tags == (if input.tags.Some? then input.tags.value else [])
    ensures Truthy(input.image) ==> p.image == input.image.value
    ensures !Truthy(input.image) ==> p.image == DefaultImage
    ensures p.createdAt == now && p.updatedAt == now && p.views == 0
    ensures input.readTime.Some? && input.readTime.value != 0 ==> p.readTime == input.readTime.value
    ensures input.readTime.None? || input.readTime.value == 0 ==> p.readTime == DefaultReadTime(p.content)
  {
    var content := input.content.value;
    Post(
      id := id,
      title := input.title.value,
      content := content,
      excerpt := OrElse(input.excerpt, DefaultExcerpt(content)),
      author := input.author.value,
      category := OrElse(input.category, DefaultCategory),
      tags := input.tags.GetOr([]),
      image := OrElse(input.image, DefaultImage),
      createdAt := now,
      updatedAt := now,
      readTime := ReadTimeOr(input.readTime, content),
      views := 0)
  }

  // ---------------------------------------------------------------------
  // Updating posts: a shallow merge, seen field by field

  datatype Field =
    Id | Title | Content | Excerpt | Author | Category | Tags | Image
    | CreatedAt | UpdatedAt | ReadTime | Views

  datatype Value = Str(text: string) | StrList(items: seq<string>) | Num(number: int)

  function FieldValue(p: Post, f: Field): Value {
    match f
    case Id => Str(p.id)
    case Title => Str(p.title)
    case Content => Str(p.content)
    case Excerpt => Str(p.excerpt)
    case Author => Str(p.author)
    case Category => Str(p.category)
    case Tags => StrList(p.tags)
    case Image => Str(p.image)
    case CreatedAt => Num(p.createdAt)
    case UpdatedAt => Num(p.updatedAt)
    case ReadTime => Num(p.readTime)
    case Views => Num(p.views)
  }

  function StrOf(o: Option<string>): Option<Value> {
    if o.Some? then Some(Str(o.value)) else None
  }

  function NumOf(o: Option<int>): Option<Value> {
    if o.Some? then Some(Num(o.value)) else None
  }

  /** The value the body gives to field `f`, if it names that key. */
  function Supplied(patch: PostPatch, f: Field): Option<Value> {
    match f
    case Id => StrOf(patch.id)
    case Title => StrOf(patch.title)
    case Content => StrOf(patch.content)
    case Excerpt => StrOf(patch.excerpt)
    case Author => StrOf(patch.author)
    case Category => StrOf(patch.category)
    case Tags => if patch.tags.Some? then Some(StrList(patch.tags.value)) else None
    case Image => StrOf(patch.image)
    case CreatedAt => NumOf(patch.createdAt)
    case UpdatedAt => NumOf(patch.updatedAt)
    case ReadTime => NumOf(patch.readTime)
    case Views => NumOf(patch.views)
  }

  /** `{ ...post, ...body, updatedAt: now }`: the body's keys win over the
      stored ones, the stored ones the body leaves out are kept, and
      `updatedAt` is `now` whatever the body says. */
  function Merged(p: Post, patch: PostPatch, now: Timestamp): (r: Post)
    ensures FieldValue(r, UpdatedAt) == Num(now)
    ensures forall f :: f != UpdatedAt && Supplied(patch, f).Some? ==>
      FieldValue(r, f) == Supplied(patch, f).value
    ensures forall f :: f != UpdatedAt && Supplied(patch, f).None? ==>
      FieldValue(r, f) == FieldValue(p, f)
  {
    Post(
      id := patch.id.GetOr(p.id),
      title := patch.title.GetOr(p.title),
      content := patch.content.GetOr(p.content),
      excerpt := patch.excerpt.GetOr(p.excerpt),
      author := patch.author.GetOr(p.author),
      category := patch.category.GetOr(p.category),
      tags := patch.tags.GetOr(p.tags),
      image := patch.image.GetOr(p.image),
      createdAt := patch.createdAt.GetOr(p.createdAt),
      updatedAt := now,
      readTime := patch.readTime.GetOr(p.readTime),
      views := patch.views.GetOr(p.views))
  }

  /** A post is determined by its field values. */
  lemma FieldsDeterminePost(a: Post, b: Post)
    requires forall f :: FieldValue(a, f) == FieldValue(b, f)
    ensures a == b
  {
    assert FieldValue(a, Id) == FieldValue(b, Id);
    assert FieldValue(a, Title) == FieldValue(b, Title);
    assert FieldValue(a, Content) == FieldValue(b, Content);
    assert FieldValue(a, Excerpt) == FieldValue(b, Excerpt);
    assert FieldValue(a, Author) == FieldValue(b, Author);
    assert FieldValue(a, Category) == FieldValue(b, Category);
    assert FieldValue(a, Tags) == FieldValue(b, Tags);
    assert FieldValue(a, Image) == FieldValue(b, Image);
    assert FieldValue(a, CreatedAt) == FieldValue(b, CreatedAt);
    assert FieldValue(a, UpdatedAt) == FieldValue(b, UpdatedAt);
    assert FieldValue(a, ReadTime) == FieldValue(b, ReadTime);
    assert FieldValue(a, Views) == FieldValue(b, Views);
  }

  /** A body that names one key changes that field and `updatedAt` only. */
  lemma {:induction false} MergedChangesOnlySupplied(p: Post, patch: PostPatch, now: Timestamp, f: Field)
    requires f != UpdatedAt && Supplied(patch, f).None?
    ensures FieldValue(Merged(p, patch, now), f) == FieldValue(p, f)
  {
  }

  /** Applying the same body twice is applying it once, at the later time. */
  lemma MergedTwice(p: Post, patch: PostPatch, t1: Timestamp, t2: Timestamp)
    ensures Merged(Merged(p, patch, t1), patch, t2) == Merged(p, patch, t2)
  {
    var a, b := Merged(Merged(p, patch, t1), patch, t2), Merged(p, patch, t2);
    forall f ensures FieldValue(a, f) == FieldValue(b, f) {
    }
    FieldsDeterminePost(a, b);
  }

  // ---------------------------------------------------------------------
  // Deleting posts, listing comments

  /** `posts.filter(p => p.id !== id)`. */
  function WithoutPost(posts: seq<Post>, id: string): (r: seq<Post>)
    ensures IsSubsequence(r, posts)
    ensures forall i :: 0 <= i < |r| ==> r[i].id != id
    ensures forall i :: 0 <= i < |posts| && posts[i].id != id ==> posts[i] in r
    ensures |r| == |posts| <==> forall i :: 0 <= i < |posts| ==> posts[i].id != id
    ensures |r| == |posts| ==> r == posts
    ensures forall i :: 0 <= i < |posts| ==>
      multiset(r)[posts[i]] == if posts[i].id != id then multiset(posts)[posts[i]] else 0
  {
    FilterCounts(posts, OtherId(id));
    FilterIsSubsequence(posts, OtherId(id));
    FilterKeepsLength(posts, OtherId(id));
    Filter(posts, OtherId(id))
  }

  function OtherId(id: string): Post -> bool {
    (p: Post) => p.id != id
  }

  /** `comments.filter(c => c.postId === postId)`. */
  function CommentsFor(comments: seq<Comment>, postId: string): (r: seq<Comment>)
    ensures IsSubsequence(r, comments)
    ensures forall i :: 0 <= i < |r| ==> r[i] in comments && r[i].postId == postId
    ensures forall i :: 0 <= i < |comments| && comments[i].postId == postId ==> comments[i] in r
    ensures forall i :: 0 <= i < |comments| ==>
      multiset(r)[comments[i]] == if comments[i].postId == postId then multiset(comments)[comments[i]] else 0
  {
    FilterCounts(comments, OfPost(postId));
    FilterIsSubsequence(comments, OfPost(postId));
    Filter(comments, OfPost(postId))
  }

  function OfPost(postId: string): Comment -> bool {
    (c: Comment) => c.postId == postId
  }

  /** The guard `!name || !email || !content` fails. */
  predicate ValidCommentInput(input: CommentInput) {
    Truthy(input.name) && Truthy(input.email) && Truthy(input.content)
  }

  // ---------------------------------------------------------------------
  // Searching

  /** The text test of the search: the lower-cased term occurs in the
      lower-cased title, content or one of the tags. */
  predicate MatchesText(p: Post, term: string) {
    || Contains(Lower(p.title), term)
    || Contains(Lower(p.content), term)
    || exists i :: 0 <= i < |p.tags| && Contains(Lower(p.tags[i]), term)
  }

  predicate InCategory(p: Post, category: string) {
    Lower(p.category) == Lower(category)
  }

  /** The posts whose text matches `query`, case-insensitively. */
  function TextFiltered(posts: seq<Post>, query: string): (r: seq<Post>)
    ensures IsSubsequence(r, posts)
    ensures forall i :: 0 <= i < |r| ==> r[i] in posts && MatchesText(r[i], Lower(query))
    ensures forall i :: 0 <= i < |posts| && MatchesText(posts[i], Lower(query)) ==> posts[i] in r
    ensures forall i :: 0 <= i < |posts| ==>
      multiset(r)[posts[i]] == if MatchesText(posts[i], Lower(query)) then multiset(posts)[posts[i]] else 0
  {
    FilterCounts(posts, TextTest(Lower(query)));
    FilterIsSubsequence(posts, TextTest(Lower(query)));
    Filter(posts, TextTest(Lower(query)))
  }

  function TextTest(term: string): Post -> bool {
    (p: Post) => MatchesText(p, term)
  }

  /** The posts of `category`, compared case-insensitively. */
  function CategoryFiltered(posts: seq<Post>, category: string): (r: seq<Post>)
    ensures IsSubsequence(r, posts)
    ensures forall i :: 0 <= i < |r| ==> r[i] in posts && InCategory(r[i], category)
    ensures forall i :: 0 <= i < |posts| && InCategory(posts[i], category) ==> posts[i] in r
    ensures forall i :: 0 <= i < |posts| ==>
      multiset(r)[posts[i]] == if InCategory(posts[i], category) then multiset(posts)[posts[i]] else 0
  {
    FilterCounts(posts, CategoryTest(category));
    FilterIsSubsequence(posts, CategoryTest(category));
    Filter(posts, CategoryTest(category))
  }

  function CategoryTest(category: string): Post -> bool {
    (p: Post) => InCategory(p, category)
  }

  /** Whether a post survives the two search filters, each switched on
      or off. */
  predicate PassesFilters(p: Post, textOn: bool, query: string, categoryOn: bool, category: string) {
    && (textOn ==> MatchesText(p, Lower(query)))
    && (categoryOn ==> InCategory(p, category))
  }

  /** The text filter (when on) followed by the category filter (when on),
      the pipeline shared by the search route and the home page. */
  function Narrowed(posts: seq<Post>, textOn: bool, query: string, categoryOn: bool, category: string): seq<Post>
  {
    var afterText := if textOn then TextFiltered(posts, query) else posts;
    if categoryOn then CategoryFiltered(afterText, category) else afterText
  }

  /** The pipeline keeps exactly the posts passing the filters in force,
      in their original order. */
  lemma NarrowedSpec(posts: seq<Post>, textOn: bool, query: string, categoryOn: bool, category: string)
    ensures IsSubsequence(Narrowed(posts, textOn, query, categoryOn, category), posts)
    ensures forall i :: 0 <= i < |Narrowed(posts, textOn, query, categoryOn, category)| ==>
      var p := Narrowed(posts, textOn, query, categoryOn, category)[i];
      p in posts && PassesFilters(p, textOn, query, categoryOn, category)
    ensures forall i :: 0 <= i < |posts| && PassesFilters(posts[i], textOn, query, categoryOn, category) ==>
      posts[i] in Narrowed(posts, textOn, query, categoryOn, category)
    ensures forall i :: 0 <= i < |posts| ==>
      multiset(Narrowed(posts, textOn, query, categoryOn, category))[posts[i]]
        == if PassesFilters(posts[i], textOn, query, categoryOn, category) then multiset(posts)[posts[i]] else 0
  {
    NarrowedMembers(posts, textOn, query, categoryOn, category);
    NarrowedCounts(posts, textOn, query, categoryOn, category);
  }

  lemma NarrowedMembers(posts: seq<Post>, textOn: bool, query: string, categoryOn: bool, category: string)
    ensures IsSubsequence(Narrowed(posts, textOn, query, categoryOn, category), posts)
    ensures forall i :: 0 <= i < |Narrowed(posts, textOn, query, categoryOn, category)| ==>
      var p := Narrowed(posts, textOn, query, categoryOn, category)[i];
      p in posts && PassesFilters(p, textOn, query, categoryOn, category)
    ensures forall i :: 0 <= i < |posts| && PassesFilters(posts[i], textOn, query, categoryOn, category) ==>
      posts[i] in Narrowed(posts, textOn, query, categoryOn, category)
  {
    NarrowedIsSubsequence(posts, textOn, query, categoryOn, category);
    var r := Narrowed(posts, textOn, query, categoryOn, category);
    NarrowedCounts(posts, textOn, query, categoryOn, category);
    SubsequenceMembers(r, posts);
    forall i | 0 <= i < |r|
      ensures r[i] in posts && PassesFilters(r[i], textOn, query, categoryOn, category)
    {
      var k :| 0 <= k < |posts| && posts[k] == r[i];
      assert multiset(r)[posts[k]] > 0;
    }
    forall i | 0 <= i < |posts| && PassesFilters(posts[i], textOn, query, categoryOn, category)
      ensures posts[i] in r
    {
      assert multiset(r)[posts[i]] > 0;
    }
  }

  lemma NarrowedIsSubsequence(posts: seq<Post>, textOn: bool, query: string, categoryOn: bool, category: string)
    ensures IsSubsequence(Narrowed(posts, textOn, query, categoryOn, category), posts)
  {
    var afterText := if textOn then TextFiltered(posts, query) else posts;
    SubsequenceReflexive(posts);
    if categoryOn {
      SubsequenceTransitive(Narrowed(posts, textOn, query, categoryOn, category), afterText, posts);
    }
  }

  /** `category && category !== 'all'`. */
  predicate FiltersCategory(category: Option<string>) {
    Truthy(category) && category.value != "all"
  }

  /** The pipeline keeps every post passing the filters in force as often
      as it occurs, and no other. */
  lemma NarrowedCounts(posts: seq<Post>, textOn: bool, query: string, categoryOn: bool, category: string)
    ensures forall i :: 0 <= i < |posts| ==>
      multiset(Narrowed(posts, textOn, query, categoryOn, category))[posts[i]]
        == if PassesFilters(posts[i], textOn, query, categoryOn, category) then multiset(posts)[posts[i]] else 0
  {
    var afterText := if textOn then TextFiltered(posts, query) else posts;
    var r := Narrowed(posts, textOn, query, categoryOn, category);
    forall i | 0 <= i < |posts|
      ensures multiset(r)[posts[i]]
        == if PassesFilters(posts[i], textOn, query, categoryOn, category) then multiset(posts)[posts[i]] else 0
    {
      var x := posts[i];
      if x in afterText {
        var k :| 0 <= k < |afterText| && afterText[k] == x;
        assert multiset(afterText)[x] == if textOn ==> MatchesText(x, Lower(query)) then multiset(posts)[x] else 0;
      } else {
        assert x !in r;
      }
    }
  }

  /** GET /api/search?q=&category=: the text filter when `q` is truthy,
      the category filter when `category` is truthy and not "all". */
  function SearchPosts(posts: seq<Post>, q: Option<string>, category: Option<string>): seq<Post>
  {
    Narrowed(posts, Truthy(q), q.GetOr(""), FiltersCategory(category), category.GetOr(""))
  }

  /** Whether search keeps `p`. */
  predicate SearchKeeps(p: Post, q: Option<string>, category: Option<string>) {
    && (Truthy(q) ==> MatchesText(p, Lower(q.value)))
    && (FiltersCategory(category) ==> InCategory(p, category.value))
  }

  /** What search keeps: exactly the posts that pass each filter the
      request switches on, in storage order. */
  lemma SearchSpec(posts: seq<Post>, q: Option<string>, category: Option<string>)
    ensures IsSubsequence(SearchPosts(posts, q, category), posts)
    ensures forall i :: 0 <= i < |SearchPosts(posts, q, category)| ==>
      SearchPosts(posts, q, category)[i] in posts && SearchKeeps(SearchPosts(posts, q, category)[i], q, category)
    ensures forall i :: 0 <= i < |posts| && SearchKeeps(posts[i], q, category) ==>
      posts[i] in SearchPosts(posts, q, category)
    ensures forall i :: 0 <= i < |posts| ==>
      multiset(SearchPosts(posts, q, category))[posts[i]]
        == if SearchKeeps(posts[i], q, category) then multiset(posts)[posts[i]] else 0
  {
    NarrowedSpec(posts, Truthy(q), q.GetOr(""), FiltersCategory(category), category.GetOr(""));
  }

  // ---------------------------------------------------------------------
  // Categories

  /** `[...new Set(posts.map(post => post.category))]`. */
  function Categories(posts: seq<Post>): (r: seq<string>)
    ensures forall i :: 0 <= i < |posts| ==> posts[i].category in r
    ensures forall i :: 0 <= i < |r| ==> exists j :: 0 <= j < |posts| && posts[j].category == r[i]
    ensures NoDuplicates(r)
  {
    var all := CategoryColumn(posts);
    var r := Dedup(all);
    assert forall i :: 0 <= i < |r| ==> r[i] in all;
    r
  }

  /** `posts.map(post => post.category)`. */
  function CategoryColumn(posts: seq<Post>): (r: seq<string>)
    ensures |r| == |posts|
    ensures forall i :: 0 <= i < |posts| ==> r[i] == posts[i].category
  {
    seq(|posts|, i requires 0 <= i < |posts| => posts[i].category)
  }

  /** The categories come in the order in which they first appear in
      storage. */
  lemma CategoriesFirstSeenOrder(posts: seq<Post>)
    ensures forall i, j :: 0 <= i < j < |Categories(posts)| ==>
      FirstIndex(CategoryColumn(posts), Categories(posts)[i]) < FirstIndex(CategoryColumn(posts), Categories(posts)[j])
  {
    DedupFirstSeenOrder(CategoryColumn(posts));
  }

  // ---------------------------------------------------------------------
  // The seed written when no posts file exists

  // The literal texts of the three seed posts.
  const WelcomeTitle := "Welcome to Our Blog"
  const WelcomeContent := "This is the first post of our amazing blog. We'll be sharing interesting articles about technology, design, and more!"
  const WelcomeExcerpt := "Welcome to our blog where we share insights about technology and design."
  const WelcomeImage := DefaultImage
  const WebTitle := "The Future of Web Development"
  const WebContent := "Web development is evolving rapidly with new technologies like React, Vue, and modern CSS frameworks. The future looks bright for developers who stay updated with the latest trends."
  const WebExcerpt := "Exploring the latest trends and technologies shaping the future of web development."
  const WebImage := "https://images.unsplash.com/photo-1461749280684-dccba630e2f6?w=800&h=400&fit=crop"
  const DesignTitle := "Design Principles for Modern Websites"
  const DesignContent := "Good design is crucial for user experience. We'll explore key design principles that make websites both beautiful and functional."
  const DesignExcerpt := "Learn the essential design principles that create engaging and user-friendly websites."
  const DesignImage := "https://images.unsplash.com/photo-1561070791-2526d30994b5?w=800&h=400&fit=crop"

  function SeedPosts(id1: string, id2: string, id3: string, now: Timestamp): seq<Post> {
    [ Post(
        id := id1,
        title := WelcomeTitle,
        content := WelcomeContent,
        excerpt := WelcomeExcerpt,
        author := "Admin",
        category := "General",
        tags := ["welcome", "blog"],
        image := WelcomeImage,
        createdAt := now,
        updatedAt := now,
        readTime := 2,
        views := 0),
      Post(
        id := id2,
        title := WebTitle,
        content := WebContent,
        excerpt := WebExcerpt,
        author := "Tech Writer",
        category := "Technology",
        tags := ["web-development", "react", "future"],
        image := WebImage,
        createdAt := now - 86400000,
        updatedAt := now - 86400000,
        readTime := 5,
        views := 0),
      Post(
        id := id3,
        title := DesignTitle,
        content := DesignContent,
        excerpt := DesignExcerpt,
        author := "Design Expert",
        category := "Design",
        tags := ["design", "ux", "ui"],
        image := DesignImage,
        createdAt := now - 172800000,
        updatedAt := now - 172800000,
        readTime := 4,
        views := 0) ]
  }

  /** The seed holds three unviewed posts, newest first, whose categories
      are General, Technology and Design. */
  lemma SeedFacts(id1: string, id2: string, id3: string, now: Timestamp)
    ensures |SeedPosts(id1, id2, id3, now)| == 3
    ensures forall i :: 0 <= i < 3 ==> SeedPosts(id1, id2, id3, now)[i].views == 0
    ensures SeedPosts(id1, id2, id3, now)[0].createdAt > SeedPosts(id1, id2, id3, now)[1].createdAt
                                                       > SeedPosts(id1, id2, id3, now)[2].createdAt
    ensures Categories(SeedPosts(id1, id2, id3, now)) == SeedCategories
  {
    var posts := SeedPosts(id1, id2, id3, now);
    assert CategoryColumn(posts) == SeedCategories;
    assert "Technology" != "General";
    assert "Design" != "General" && "Design" != "Technology";
    DedupOfDistinct(SeedCategories);
  }

  const SeedCategories: seq<string> := ["General", "Technology", "Design"]

  // ---------------------------------------------------------------------
  // The store

  class ContentStore {
    var posts: seq<Post>
    var comments: seq<Comment>

    /** initializeData: a collection whose file exists is loaded as it is;
        a missing posts file is seeded, a missing comments file starts
        empty. */
    constructor Initialize(storedPosts: Option<seq<Post>>, storedComments: Option<seq<Comment>>,
                           id1: string, id2: string, id3: string, now: Timestamp)
      ensures posts == (if storedPosts.Some? then storedPosts.value else SeedPosts(id1, id2, id3, now))
      ensures comments == (if storedComments.Some? then storedComments.value else [])
    {
      if storedPosts.Some? {
        posts := storedPosts.value;
      } else {
        posts := SeedPosts(id1, id2, id3, now);
      }
      comments := if storedComments.Some? then storedComments.value else [];
    }

    /** GET /api/posts. */
    method ListPosts() returns (r: seq<Post>)
      ensures r == posts
    {
      r := posts;
    }

    /** GET /api/posts/:id: the first post with that id, its view count
        raised by one in storage and in the answer. */
    method GetPost(id: string) returns (r: Response<Post>)
      modifies this
      ensures comments == old(comments)
      ensures FindPost(old(posts), id).None? ==> r == NotFound && posts == old(posts)
      ensures FindPost(old(posts), id).Some? ==>
        var i := FindPost(old(posts), id).value;
        && |posts| == |old(posts)|
        && posts[i] == old(posts)[i].(views := old(posts)[i].views + 1)
        && (forall j :: 0 <= j < |posts| && j != i ==> posts[j] == old(posts)[j])
        && r == Ok(posts[i])
    {
      var found := FindPost(posts, id);
      if found.None? {
        return NotFound;
      }
      var i := found.value;
      posts := posts[i := posts[i].(views := posts[i].views + 1)];
      r := Ok(posts[i]);
    }

    /** POST /api/posts: a valid body becomes a new post at the front. */
    method CreatePost(input: PostInput, id: string, now: Timestamp) returns (r: Response<Post>)
      modifies this
      ensures comments == old(comments)
      ensures !ValidPostInput(input) ==> r == ValidationError(PostFieldsRequired) && posts == old(posts)
      ensures ValidPostInput(input) ==>
        && r == Ok(NewPost(input, id, now))
        && posts == [r.value] + old(posts)
    {
      if !ValidPostInput(input) {
        return ValidationError(PostFieldsRequired);
      }
      var post := NewPost(input, id, now);
      posts := [post] + posts;
      r := Ok(post);
    }

    /** PUT /api/posts/:id: the first post with that id is replaced by its
        merge with the body; nothing else moves. */
    method UpdatePost(id: string, patch: PostPatch, now: Timestamp) returns (r: Response<Post>)
      modifies this
      ensures comments == old(comments)
      ensures FindPost(old(posts), id).None? ==> r == NotFound && posts == old(posts)
      ensures FindPost(old(posts), id).Some? ==>
        var i := FindPost(old(posts), id).value;
        && r == Ok(Merged(old(posts)[i], patch, now))
        && posts == old(posts)[i := r.value]
    {
      var found := FindPost(posts, id);
      if found.None? {
        return NotFound;
      }
      var i := found.value;
      var updated := Merged(posts[i], patch, now);
      posts := posts[i := updated];
      r := Ok(updated);
    }

    /** DELETE /api/posts/:id: every post with that id goes; "not found"
        when the filter removed nothing. Comments are not touched. */
    method DeletePost(id: string) returns (r: Response<string>)
      modifies this
      ensures comments == old(comments)
      ensures r == NotFound <==> forall i :: 0 <= i < |old(posts)| ==> old(posts)[i].id != id
      ensures r == NotFound ==> posts == old(posts)
      ensures r != NotFound ==> r == Ok(PostDeleted) && posts == WithoutPost(old(posts), id)
    {
      var filtered := WithoutPost(posts, id);
      if |filtered| == |posts| {
        return NotFound;
      }
      posts := filtered;
      r := Ok(PostDeleted);
    }

    /** GET /api/posts/:id/comments. */
    method ListComments(postId: string) returns (r: seq<Comment>)
      ensures r == CommentsFor(comments, postId)
    {
      r := CommentsFor(comments, postId);
    }

    /** POST /api/posts/:id/comments: a valid body becomes a comment at the
        front, carrying the path's id whether or not such a post exists. */
    method AddComment(postId: string, input: CommentInput, id: string, now: Timestamp)
      returns (r: Response<Comment>)
      modifies this
      ensures posts == old(posts)
      ensures !ValidCommentInput(input) ==>
        r == ValidationError(CommentFieldsRequired) && comments == old(comments)
      ensures ValidCommentInput(input) ==>
        && r == Ok(Comment(id, postId, input.name.value, input.email.value, input.content.value, now))
        && comments == [r.value] + old(comments)
    {
      if !ValidCommentInput(input) {
        return ValidationError(CommentFieldsRequired);
      }
      var comment := Comment(id, postId, input.name.value, input.email.value, input.content.value, now);
      comments := [comment] + comments;
      r := Ok(comment);
    }

    /** GET /api/search. */
    method Search(q: Option<string>, category: Option<string>) returns (r: seq<Post>)
      ensures r == SearchPosts(posts, q, category)
    {
      r := SearchPosts(posts, q, category);
    }

    /** GET /api/categories. */
    method ListCategories() returns (r: seq<string>)
      ensures r == Categories(posts)
    {
      r := Categories(posts);
    }
  }

  /** Creating a post and then fetching it by its id finds it at the
      front, with one view and every stored field as created. */
  method CreateThenFetch(store: ContentStore, input: PostInput, id: string, now: Timestamp)
    returns (created: Response<Post>, fetched: Response<Post>)
    requires ValidPostInput(input)
    modifies store
    ensures created == Ok(NewPost(input, id, now))
    ensures fetched == Ok(created.value.(views := 1))
    ensures store.posts == [created.value.(views := 1)] + old(store.posts)
  {
    created := store.CreatePost(input, id, now);
    fetched := store.GetPost(id);
    assert store.posts[1..] == old(store.posts);
  }
}
