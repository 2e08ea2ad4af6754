/** The new-post form (client/src/pages/CreatePost.js): its fields, the
    required-field check, and the payload sent to POST /api/posts, whose
    tags are parsed from a comma-separated field. */
module CreatePostPage {
  import opened Wrappers
  import opened Seqs
  import opened Text
  import BlogStore

  datatype PostForm = PostForm(
    title: string,
    content: string,
    excerpt: string,
    author: string,
    category: string,
    tags: string,
    image: string)

  datatype FormField = Title | Content | Excerpt | Author | Category | Tags | Image

  /** What the form sends: the form's fields with `tags` parsed. */
  datatype PostData = PostData(
    title: string,
    content: string,
    excerpt: string,
    author: string,
    category: string,
    tags: seq<string>,
    image: string)

  const InitialForm := PostForm("", "", "", "", "General", "", "")
  const RequiredFieldsMessage := "Please fill in all required fields"
  const CreateFailedMessage := "Failed to create post. Please try again."

  function Get(form: PostForm, f: FormField): string {
    match f
    case Title => form.title
    case Content => form.content
    case Excerpt => form.excerpt
    case Author => form.author
    case Category => form.category
    case Tags => form.tags
    case Image => form.image
  }

  /** handleChange: `{ ...prev, [name]: value }`. */
  function WithField(form: PostForm, f: FormField, value: string): (r: PostForm)
    ensures Get(r, f) == value
    ensures forall g :: g != f ==> Get(r, g) == Get(form, g)
  {
    match f
    case Title => form.(title := value)
    case Content => form.(content := value)
    case Excerpt => form.(excerpt := value)
    case Author => form.(author := value)
    case Category => form.(category := value)
    case Tags => form.(tags := value)
    case Image => form.(image := value)
  }

  /** The form starts with category "General" and every other field empty. */
  lemma InitialFormFields(f: FormField)
    ensures Get(InitialForm, f) == if f == Category then "General" else ""
  {
  }

  /** The guard of handleSubmit: a required field is blank after trimming. */
  predicate MissingRequired(form: PostForm) {
    IsBlank(form.title) || IsBlank(form.content) || IsBlank(form.author)
  }

  function TrimEach(pieces: seq<string>): (r: seq<string>)
    ensures |r| == |pieces|
    ensures forall i :: 0 <= i < |r| ==> r[i] == Trim(pieces[i])
  {
    seq(|pieces|, i requires 0 <= i < |pieces| => Trim(pieces[i]))
  }

  /** The truthiness test of `.filter(tag => tag)` on a string. */
  predicate NonEmpty(t: string) {
    t != ""
  }

  /** `tags.split(',').map(tag => tag.trim()).filter(tag => tag)`. */
  function ParseTags(tags: string): (r: seq<string>)
    ensures IsSubsequence(r, TrimEach(Split(tags, ',')))
    ensures forall i :: 0 <= i < |r| ==>
      r[i] != "" && !IsSpace(r[i][0]) && !IsSpace(r[i][|r[i]| - 1]) && ',' !in r[i]
    ensures |r| <= multiset(tags)[','] + 1
    ensures var pieces := TrimEach(Split(tags, ','));
      forall i :: 0 <= i < |pieces| ==>
        multiset(r)[pieces[i]] == if pieces[i] != "" then multiset(pieces)[pieces[i]] else 0
  {
    var pieces := Split(tags, ',');
    var trimmed := TrimEach(pieces);
    FilterIsSubsequence(trimmed, NonEmpty);
    FilterCounts(trimmed, NonEmpty);
    var r := Filter(trimmed, NonEmpty);
    TrimmedPiecesHaveNoSeparator(pieces, ',');
    SplitCount(tags, ',');
    r
  }

  lemma TrimmedPiecesHaveNoSeparator(pieces: seq<string>, sep: char)
    requires forall i :: 0 <= i < |pieces| ==> sep !in pieces[i]
    ensures forall i :: 0 <= i < |pieces| ==> sep !in TrimEach(pieces)[i]
  {
    forall i | 0 <= i < |pieces| ensures sep !in TrimEach(pieces)[i] {
      TrimKeepsCharacters(pieces[i], sep);
    }
  }

  /** A field holding only commas and whitespace gives no tags. */
  lemma {:induction false} NoTagsFromSeparators(tags: string)
    requires forall i :: 0 <= i < |tags| ==> tags[i] == ',' || IsSpace(tags[i])
    ensures ParseTags(tags) == []
  {
    var pieces := Split(tags, ',');
    var trimmed := TrimEach(pieces);
    forall k | 0 <= k < |trimmed| ensures trimmed[k] == "" {
      forall j | 0 <= j < |pieces[k]| ensures IsSpace(pieces[k][j]) {
        assert pieces[k][j] in tags;
      }
    }
    FilterNone(trimmed, NonEmpty);
  }

  /** The payload of handleSubmit: `{ ...formData, tags: <parsed> }`. */
  function BuildPostData(form: PostForm): (d: PostData)
    ensures forall f :: f != Tags ==> DataField(d, f) == Get(form, f)
    ensures d.tags == ParseTags(form.tags)
  {
    var d := PostData(form.title, form.content, form.excerpt, form.author, form.category,
                      ParseTags(form.tags), form.image);
    SameTextFields(form, d);
    d
  }

  lemma SameTextFields(form: PostForm, d: PostData)
    requires d.title == form.title && d.content == form.content && d.excerpt == form.excerpt
    requires d.author == form.author && d.category == form.category && d.image == form.image
    ensures forall f :: f != Tags ==> DataField(d, f) == Get(form, f)
  {
  }

  function DataField(d: PostData, f: FormField): string
    requires f != Tags
  {
    match f
    case Title => d.title
    case Content => d.content
    case Excerpt => d.excerpt
    case Author => d.author
    case Category => d.category
    case Image => d.image
  }

  /** The payload as the server's handler receives it: every key present. */
  function AsPostInput(d: PostData): BlogStore.PostInput {
    BlogStore.PostInput(
      Some(d.title), Some(d.content), Some(d.excerpt), Some(d.author),
      Some(d.category), Some(d.tags), Some(d.image), None)
  }

  /** A form the page lets through also passes the server's check, and the
      fields the form leaves empty take the server's defaults. */
  lemma AcceptedFormPassesServer(form: PostForm, id: string, now: BlogStore.Timestamp)
    requires !MissingRequired(form)
    ensures BlogStore.ValidPostInput(AsPostInput(BuildPostData(form)))
    ensures
      var p := BlogStore.NewPost(AsPostInput(BuildPostData(form)), id, now);
      && p.tags == ParseTags(form.tags)
      && (form.excerpt == "" ==> p.excerpt == BlogStore.DefaultExcerpt(form.content))
      && (form.image == "" ==> p.image == BlogStore.DefaultImage)
      && p.readTime == BlogStore.DefaultReadTime(form.content)
  {
    var d := BuildPostData(form);
    assert DataField(d, Title) == Get(form, Title);
    assert DataField(d, Content) == Get(form, Content);
    assert DataField(d, Author) == Get(form, Author);
    assert DataField(d, Excerpt) == Get(form, Excerpt);
    assert DataField(d, Image) == Get(form, Image);
    assert Trim("") == "";
  }

  /** The form's state. */
  class CreatePostState {
    var formData: PostForm
    var loading: bool
    var error: string

    constructor ()
      ensures formData == InitialForm && !loading && error == ""
    {
      formData, loading, error := InitialForm, false, "";
    }

    method HandleChange(f: FormField, value: string)
      modifies this`formData
      ensures formData == WithField(old(formData), f, value)
    {
      formData := WithField(formData, f, value);
    }

    /** handleSubmit up to the request: a blank required field sets the
        error and sends nothing; otherwise loading is set, the error
        cleared and the payload sent. */
    method Submit() returns (sent: Option<PostData>)
      modifies this`loading, this`error
      ensures MissingRequired(formData) ==>
        sent == None && error == RequiredFieldsMessage && loading == old(loading)
      ensures !MissingRequired(formData) ==>
        sent == Some(BuildPostData(formData)) && loading && error == ""
    {
      var form := formData;
      var missing := MissingRequired(form);
      if missing {
        error := RequiredFieldsMessage;
        sent := None;
      } else {
        var d := BuildPostData(form);
        loading := true;
        error := "";
        sent := Some(d);
      }
    }

    /** handleSubmit after the request: on success the page navigates to
        the new post; on failure it shows an error; loading ends either way. */
    method Settle(createdId: Option<string>) returns (route: Option<string>)
      modifies this`loading, this`error
      ensures !loading
      ensures createdId.Some? ==> route == Some("/post/" + createdId.value) && error == old(error)
      ensures createdId.None? ==> route == None && error == CreateFailedMessage
    {
      if createdId.Some? {
        route := Some("/post/" + createdId.value);
      } else {
        error := CreateFailedMessage;
        route := None;
      }
      loading := false;
    }
  }
}
