/** The home page (client/src/pages/Home.js): the fetched posts narrowed in
    the browser by a search box and a category selector, whose values are
    mirrored in the page's URL. */
module HomePage {
  import opened Wrappers
  import opened Seqs
  import opened Text
  import opened BlogStore

  const AllCategories := "all"

  /** The filter effect: the text filter runs only for a query that is not
      blank, but matches on the untrimmed query; the category filter runs
      for every selection other than "all". */
  function FilteredPosts(posts: seq<Post>, searchQuery: string, selectedCategory: string): seq<Post>
  {
    Narrowed(posts, !IsBlank(searchQuery), searchQuery, selectedCategory != AllCategories, selectedCategory)
  }

  /** Whether the page shows `p`. */
  predicate Shows(p: Post, searchQuery: string, selectedCategory: string) {
    && (!IsBlank(searchQuery) ==> MatchesText(p, Lower(searchQuery)))
    && (selectedCategory != AllCategories ==> InCategory(p, selectedCategory))
  }

  /** The list shown keeps the posts that pass each filter in force, and
      no others, in their fetched order. */
  lemma FilteredSpec(posts: seq<Post>, searchQuery: string, selectedCategory: string)
    ensures IsSubsequence(FilteredPosts(posts, searchQuery, selectedCategory), posts)
    ensures forall i :: 0 <= i < |FilteredPosts(posts, searchQuery, selectedCategory)| ==>
      FilteredPosts(posts, searchQuery, selectedCategory)[i] in posts
      && Shows(FilteredPosts(posts, searchQuery, selectedCategory)[i], searchQuery, selectedCategory)
    ensures forall i :: 0 <= i < |posts| && Shows(posts[i], searchQuery, selectedCategory) ==>
      posts[i] in FilteredPosts(posts, searchQuery, selectedCategory)
    ensures forall i :: 0 <= i < |posts| ==>
      multiset(FilteredPosts(posts, searchQuery, selectedCategory))[posts[i]]
        == if Shows(posts[i], searchQuery, selectedCategory) then multiset(posts)[posts[i]] else 0
  {
    NarrowedSpec(posts, !IsBlank(searchQuery), searchQuery, selectedCategory != AllCategories, selectedCategory);
  }

  /** With no filter in force every fetched post is shown. */
  lemma BlankQueryShowsAll(posts: seq<Post>, searchQuery: string)
    requires IsBlank(searchQuery)
    ensures FilteredPosts(posts, searchQuery, AllCategories) == posts
  {
  }

  /** The page and GET /api/search agree whenever the query is empty or
      not blank and a category (or "all") is selected. */
  lemma AgreesWithServerSearch(posts: seq<Post>, searchQuery: string, selectedCategory: string)
    requires searchQuery == "" || !IsBlank(searchQuery)
    requires selectedCategory != ""
    ensures FilteredPosts(posts, searchQuery, selectedCategory)
         == SearchPosts(posts, Some(searchQuery), Some(selectedCategory))
  {
    if searchQuery == "" {
      assert IsBlank(searchQuery);
    }
  }

  /** The two differ on a blank, non-empty query: the server looks for the
      spaces, the page ignores them. */
  lemma WhitespaceQueryDisagrees()
    ensures
      var p := Post("1", "a", "b", "", "x", "General", [], "", 0, 0, 1, 0);
      && FilteredPosts([p], " ", AllCategories) == [p]
      && SearchPosts([p], Some(" "), Some(AllCategories)) == []
  {
    var p := Post("1", "a", "b", "", "x", "General", [], "", 0, 0, 1, 0);
    SpaceIsBlank();
    SpaceNotInLetters(p);
    assert TextFiltered([p], " ") == [];
  }

  lemma SpaceIsBlank()
    ensures IsBlank(" ")
  {
    assert IsSpace(" "[0]);
  }

  lemma SpaceNotInLetters(p: Post)
    requires p.title == "a" && p.content == "b" && p.tags == []
    ensures !MatchesText(p, Lower(" "))
  {
    assert Lower(" ") == " ";
    assert Lower(p.title) == "a" && Lower(p.content) == "b";
    assert "a"[1..] == "" && "a"[..1] == "a" && !Contains("", " ");
    assert !Contains("a", " ");
    assert "b"[1..] == "" && "b"[..1] == "b";
    assert !Contains("b", " ");
  }

  /** The results label: "post" for exactly one result, "posts" otherwise. */
  function ResultNoun(count: nat): (noun: string)
    ensures noun == "post" <==> count == 1
    ensures noun == "posts" <==> count != 1
  {
    if count == 1 then "post" else "posts"
  }

  /** A key/value pair of the page's query string. */
  datatype Param = Param(key: string, value: string)

  /** URLSearchParams.get: the value of the first pair with `key`. */
  function Lookup(params: seq<Param>, key: string): (r: Option<string>)
    ensures r.None? <==> forall i :: 0 <= i < |params| ==> params[i].key != key
    ensures r.Some? ==> exists i ::
      && 0 <= i < |params|
      && params[i] == Param(key, r.value)
      && forall j :: 0 <= j < i ==> params[j].key != key
    decreases |params|
  {
    if params == [] then None
    else if params[0].key == key then Some(params[0].value)
    else Lookup(params[1..], key)
  }

  /** The URL effect: a fresh parameter list gets `search` for a non-empty
      query and `category` for a selection other than "all". Each key is
      set once on a fresh object, so `set` appends. */
  method BuildSearchParams(searchQuery: string, selectedCategory: string) returns (params: seq<Param>)
    ensures Lookup(params, "search") == if searchQuery != "" then Some(searchQuery) else None
    ensures Lookup(params, "category") ==
      if selectedCategory != AllCategories then Some(selectedCategory) else None
    ensures forall i :: 0 <= i < |params| ==> params[i].key == "search" || params[i].key == "category"
  {
    params := [];
    if searchQuery != "" {
      params := params + [Param("search", searchQuery)];
    }
    if selectedCategory != AllCategories {
      params := params + [Param("category", selectedCategory)];
    }
  }

  /** The effect that reads the URL: a truthy `search` or `category`
      replaces the current value, anything else keeps it. */
  function ReadSearchParams(params: seq<Param>, searchQuery: string, selectedCategory: string)
    : (string, string)
  {
    var search := Lookup(params, "search");
    var category := Lookup(params, "category");
    (if Truthy(search) then search.value else searchQuery,
     if Truthy(category) then category.value else selectedCategory)
  }

  /** Reading back the parameters the page wrote, on a freshly loaded page,
      restores its filters, provided the selection is not the empty
      string (which is written but, being falsy, not read back). */
  lemma SearchParamsRoundTrip(params: seq<Param>, searchQuery: string, selectedCategory: string)
    requires Lookup(params, "search") == if searchQuery != "" then Some(searchQuery) else None
    requires Lookup(params, "category") ==
      if selectedCategory != AllCategories then Some(selectedCategory) else None
    requires selectedCategory != ""
    ensures ReadSearchParams(params, "", AllCategories) == (searchQuery, selectedCategory)
  {
  }

  /** The page state that the filters act on. */
  class HomeState {
    var posts: seq<Post>
    var categories: seq<string>
    var searchQuery: string
    var selectedCategory: string
    var loading: bool
    var error: Option<string>

    constructor ()
      ensures posts == [] && categories == []
      ensures searchQuery == "" && selectedCategory == AllCategories
      ensures loading && error == None
    {
      posts, categories := [], [];
      searchQuery, selectedCategory := "", AllCategories;
      loading, error := true, None;
    }

    /** `filteredPosts`, which the filter effect recomputes after every
        change to the posts, the query or the selection. */
    function Shown(): seq<Post>
      reads this
    {
      FilteredPosts(posts, searchQuery, selectedCategory)
    }

    /** The Clear Filters button is offered while a filter is set. */
    predicate OffersClear()
      reads this
    {
      searchQuery != "" || selectedCategory != AllCategories
    }

    method LoadSucceeded(fetchedPosts: seq<Post>, fetchedCategories: seq<string>)
      modifies this
      ensures posts == fetchedPosts && categories == fetchedCategories && !loading
      ensures searchQuery == old(searchQuery) && selectedCategory == old(selectedCategory)
      ensures error == old(error)
    {
      posts, categories := fetchedPosts, fetchedCategories;
      loading := false;
    }

    method LoadFailed()
      modifies this
      ensures error == Some("Failed to fetch posts") && !loading
      ensures posts == old(posts) && categories == old(categories)
      ensures searchQuery == old(searchQuery) && selectedCategory == old(selectedCategory)
    {
      error := Some("Failed to fetch posts");
      loading := false;
    }

    /** Typing in the search box. */
    method SetSearchQuery(q: string)
      modifies this`searchQuery
      ensures searchQuery == q
    {
      searchQuery := q;
    }

    /** Choosing in the category selector. */
    method SetSelectedCategory(c: string)
      modifies this`selectedCategory
      ensures selectedCategory == c
    {
      selectedCategory := c;
    }

    /** The effect that copies the URL's parameters into the filters. */
    method ApplySearchParams(params: seq<Param>)
      modifies this`searchQuery, this`selectedCategory
      ensures (searchQuery, selectedCategory)
           == ReadSearchParams(params, old(searchQuery), old(selectedCategory))
    {
      var search := Lookup(params, "search");
      var category := Lookup(params, "category");
      if Truthy(search) {
        searchQuery := search.value;
      }
      if Truthy(category) {
        selectedCategory := category.value;
      }
    }

    /** clearFilters: both filters off, so every fetched post is shown. */
    method ClearFilters()
      modifies this`searchQuery, this`selectedCategory
      ensures searchQuery == "" && selectedCategory == AllCategories
      ensures Shown() == posts && !OffersClear()
    {
      searchQuery := "";
      selectedCategory := AllCategories;
      BlankQueryShowsAll(posts, searchQuery);
    }
  }
}
