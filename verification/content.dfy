/** The content library (src/components/ContentLibrary.tsx): articles, videos,
    podcasts and exercises, searched by title and description, narrowed by
    category and by type, with a per-item favourite flag. */
module Content {
  import opened Text
  import opened Seqs

  datatype ContentType = Article | Video | Podcast | Exercise

  /** A library entry. `kind` is the source's `type` field. */
  datatype ContentItem = ContentItem(
    id: int,
    title: string,
    description: string,
    kind: ContentType,
    category: string,
    duration: string,
    image: string,
    isFavorite: bool)

  /** The search box and the category chosen on the screen. */
  datatype Query = Query(search: string, category: string)

  /** The query as the screen first shows it. */
  const OpenQuery: Query := Query("", Wildcard)

  /** The argument of `filterByType`: every type, or one of the four. The
      screen shows tabs for every type, articles, videos and podcasts only;
      exercises have no tab of their own. */
  datatype TypeChoice = AllTypes | OnlyType(kind: ContentType)

  predicate Matches(q: Query, item: ContentItem) {
    MatchesSearch(q.search, item.title, item.description)
    && (q.category == Wildcard || item.category == q.category)
  }

  function Matcher(q: Query): ContentItem -> bool {
    (item: ContentItem) => Matches(q, item)
  }

  /** `filteredContent`: the items whose title or description contains the
      search text and whose category is the chosen one, in library order. */
  function FilteredContent(content: seq<ContentItem>, q: Query): (r: seq<ContentItem>)
    ensures forall x :: x in r ==>
      && x in content
      && (Includes(LowerStr(q.search), LowerStr(x.title)) || Includes(LowerStr(q.search), LowerStr(x.description)))
      && (q.category == Wildcard || x.category == q.category)
    ensures forall x :: x in content && Matches(q, x) ==> x in r
    ensures IsSubsequence(r, content)
  {
    Filter(content, Matcher(q))
  }

  /** With an empty search and every category, the whole library is shown. */
  lemma OpenQueryKeepsAll(content: seq<ContentItem>)
    ensures FilteredContent(content, OpenQuery) == content
  {
    forall x | x in content
      ensures Matcher(OpenQuery)(x)
    {
      EmptySearchMatchesAll(x.title, x.description);
    }
  }

  /** `toggleFavorite(id)`: flips the favourite flag of every item with that id. */
  function ToggleFavorite(content: seq<ContentItem>, id: int): (r: seq<ContentItem>)
    ensures |r| == |content|
    ensures forall i :: 0 <= i < |r| ==>
      && r[i].isFavorite == (if content[i].id == id then !content[i].isFavorite else content[i].isFavorite)
      && r[i].(isFavorite := content[i].isFavorite) == content[i]
  {
    seq(|content|, i requires 0 <= i < |content| =>
      if content[i].id == id then content[i].(isFavorite := !content[i].isFavorite) else content[i])
  }

  /** Toggling the same id twice restores the library. */
  lemma ToggleTwiceRestores(content: seq<ContentItem>, id: int)
    ensures ToggleFavorite(ToggleFavorite(content, id), id) == content
  {
    var once := ToggleFavorite(content, id);
    var twice := ToggleFavorite(once, id);
    forall i | 0 <= i < |content|
      ensures twice[i] == content[i]
    {
      assert once[i].id == content[i].id;
    }
  }

  /** Toggling an id that no item carries changes nothing. */
  lemma ToggleUnknownIdIsNoop(content: seq<ContentItem>, id: int)
    requires forall x :: x in content ==> x.id != id
    ensures ToggleFavorite(content, id) == content
  {
    var r := ToggleFavorite(content, id);
    forall i | 0 <= i < |content|
      ensures r[i] == content[i]
    {
      assert content[i] in content;
    }
  }

  function OfKind(kind: ContentType): ContentItem -> bool {
    (item: ContentItem) => item.kind == kind
  }

  /** `filterByType`: the search-and-category result, narrowed to one type
      unless every type is chosen. */
  function FilterByType(filtered: seq<ContentItem>, choice: TypeChoice): (r: seq<ContentItem>)
    ensures choice.AllTypes? ==> r == filtered
    ensures choice.OnlyType? ==>
      && (forall x :: x in r <==> x in filtered && x.kind == choice.kind)
      && IsSubsequence(r, filtered)
  {
    match choice
    case AllTypes => filtered
    case OnlyType(kind) => Filter(filtered, OfKind(kind))
  }

  function CountOf(filtered: seq<ContentItem>, kind: ContentType): nat {
    |FilterByType(filtered, OnlyType(kind))|
  }

  /** The four type filters split the search-and-category result between
      them: their sizes add up to its size. */
  lemma {:induction false} TypeTabsPartition(filtered: seq<ContentItem>)
    ensures CountOf(filtered, Article) + CountOf(filtered, Video)
          + CountOf(filtered, Podcast) + CountOf(filtered, Exercise) == |filtered|
  {
    if |filtered| > 0 {
      TypeTabsPartition(filtered[1..]);
    }
  }

  /** The counts on the article, video and podcast tabs add up to the count
      on the "all" tab exactly when the result holds no exercise. */
  lemma VisibleTabsMissExercises(filtered: seq<ContentItem>)
    ensures CountOf(filtered, Article) + CountOf(filtered, Video) + CountOf(filtered, Podcast) == |filtered|
        <==> forall x :: x in filtered ==> x.kind != Exercise
  {
    TypeTabsPartition(filtered);
    var exercises := FilterByType(filtered, OnlyType(Exercise));
    if exists x :: x in filtered && x.kind == Exercise {
      var x :| x in filtered && x.kind == Exercise;
      assert x in exercises;
    } else if |exercises| > 0 {
      assert exercises[0] in exercises;
    }
  }

  predicate IsFavorite(item: ContentItem) {
    item.isFavorite
  }

  /** `favorites`: the favourite items of the whole library, whatever the
      search, category or type tab. */
  function Favorites(content: seq<ContentItem>): (r: seq<ContentItem>)
    ensures forall x :: x in r ==> x in content && x.isFavorite
    ensures forall x :: x in content && x.isFavorite ==> x in r
    ensures IsSubsequence(r, content)
  {
    Filter(content, IsFavorite)
  }
}
