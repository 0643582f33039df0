/**
 The portfolio grid page (`initPortfolioGrid`): the URL path picks a
 category, the works list is filtered by the category's types, and each
 remaining work becomes a card whose CSS class depends on its type.
 */
module PortfolioGrid {
  import opened Wrappers
  import opened JsStrings
  import opened Works

  datatype Category = Photo | Video | Shorts | Design

  /** The path fragment that selects a category. */
  function Marker(c: Category): string
  {
    match c
    case Photo => "/photo"
    case Video => "/video"
    case Shorts => "/shorts"
    case Design => "/design"
  }

  /** The position of a category in the order the path is checked. */
  function Rank(c: Category): nat
  {
    match c
    case Photo => 0
    case Video => 1
    case Shorts => 2
    case Design => 3
  }

  /** The `type` string a work must carry to fall in a category (Video is the exception, see Matches). */
  function Name(c: Category): string
  {
    match c
    case Photo => "Photo"
    case Video => "Video"
    case Shorts => "Shorts"
    case Design => "Design"
  }

  /** The category chosen by the path: the first fragment found, checked in the order photo, video, shorts, design. */
  function CategoryOf(path: string): (r: Option<Category>)
    ensures r.Some? ==> Includes(path, Marker(r.value))
  {
    if Includes(path, "/photo") then Some(Photo)
    else if Includes(path, "/video") then Some(Video)
    else if Includes(path, "/shorts") then Some(Shorts)
    else if Includes(path, "/design") then Some(Design)
    else None
  }

  /**
   The chosen category's fragment occurs in the path and no fragment checked
   before it does; there is no category exactly when no fragment occurs.
   */
  lemma CategoryIsFirstMatch(path: string)
    ensures CategoryOf(path).Some? ==>
      && Includes(path, Marker(CategoryOf(path).value))
      && forall c :: Rank(c) < Rank(CategoryOf(path).value) ==> !Includes(path, Marker(c))
    ensures CategoryOf(path).None? <==> forall c :: !Includes(path, Marker(c))
  {
  }

  /** A path holding `/photo` anywhere is a Photo page, whatever else (`/video`, `/design`) it holds. */
  lemma PhotoWins(before: string, after: string)
    ensures CategoryOf(before + "/photo" + after) == Some(Photo)
  {
    IncludesInfix(before, "/photo", after);
  }

  /** Whether a work of type `w.workType` is listed on a category's page. */
  predicate Matches(w: Work, c: Category)
  {
    match c
    case Video => w.workType == "Full Video" || w.workType == "Teaser"
    case Shorts => w.workType == "Shorts"
    case _ => w.workType == Name(c)
  }

  /** `works.filter(...)`: the works of a category, in list order. */
  function Filter(works: seq<Work>, c: Category): (r: seq<Work>)
    ensures |r| <= |works|
    ensures forall i :: 0 <= i < |r| ==> Matches(r[i], c)
  {
    if works == [] then []
    else if Matches(works[0], c) then [works[0]] + Filter(works[1..], c)
    else Filter(works[1..], c)
  }

  /** The list the grid shows: the filtered works when the path names a category, all works otherwise. */
  function FilterWorks(works: seq<Work>, category: Option<Category>): (r: seq<Work>)
    ensures category.None? ==> r == works
    ensures category.Some? ==> forall i :: 0 <= i < |r| ==> Matches(r[i], category.value)
  {
    match category
    case None => works
    case Some(c) => Filter(works, c)
  }

  /** A work is kept exactly when it is in the list and matches the category. */
  lemma {:induction false} FilterMembership(works: seq<Work>, c: Category, w: Work)
    ensures w in Filter(works, c) <==> w in works && Matches(w, c)
  {
    if works != [] {
      FilterMembership(works[1..], c, w);
      assert works == [works[0]] + works[1..];
    }
  }

  /** Filtering a concatenation filters each part: the filter looks at each work on its own. */
  lemma {:induction false} FilterConcat(a: seq<Work>, b: seq<Work>, c: Category)
    ensures Filter(a + b, c) == Filter(a, c) + Filter(b, c)
  {
    if a != [] {
      assert (a + b)[1..] == a[1..] + b;
      FilterConcat(a[1..], b, c);
    } else {
      assert a + b == b;
    }
  }

  /** A single work is kept when it matches and dropped when it does not. */
  lemma FilterSingleton(w: Work, c: Category)
    ensures Filter([w], c) == if Matches(w, c) then [w] else []
  {
    assert [w][1..] == [];
  }

  /** When every work matches, nothing is dropped. */
  lemma {:induction false} FilterKeepsAllMatching(works: seq<Work>, c: Category)
    requires forall i :: 0 <= i < |works| ==> Matches(works[i], c)
    ensures Filter(works, c) == works
  {
    if works != [] {
      FilterKeepsAllMatching(works[1..], c);
    }
  }

  /** Filtering twice by the same category changes nothing the second time. */
  lemma FilterIdempotent(works: seq<Work>, c: Category)
    ensures Filter(Filter(works, c), c) == Filter(works, c)
  {
  }

  /** `a` is obtained from `b` by deleting elements, keeping the order of the rest. */
  predicate IsSubsequence(a: seq<Work>, b: seq<Work>)
    decreases |b|
  {
    if a == [] then true
    else if b == [] then false
    else if a[0] == b[0] then IsSubsequence(a[1..], b[1..])
    else IsSubsequence(a, b[1..])
  }

  /** The filtered list keeps the works in their original order. */
  lemma {:induction false} FilterIsSubsequence(works: seq<Work>, c: Category)
    ensures IsSubsequence(Filter(works, c), works)
  {
    if works != [] {
      FilterIsSubsequence(works[1..], c);
      var r := Filter(works[1..], c);
      if Matches(works[0], c) {
        assert ([works[0]] + r)[1..] == r;
      } else if r != [] {
        // r[0] matches and works[0] does not, so r is matched against the tail
        assert Matches(r[0], c);
      }
    }
  }

  /** A grid card: the work it links to (`/work/?id=...`) and its CSS class. */
  datatype Card = Card(workId: string, cssClass: string)

  /** The grid page: whether the grid gets `photo-grid`, and its cards (none means "No works found."). */
  datatype GridPage = GridPage(photoGrid: bool, cards: seq<Card>)

  /** The class list of a card: `photo-card` for Photo and Shorts works, `design-card` for Design works. */
  function CardClass(workType: string): (r: string)
    ensures "work-card" <= r
    ensures r == "work-card" <==> workType != "Photo" && workType != "Shorts" && workType != "Design"
  {
    "work-card"
    + (if workType == "Photo" || workType == "Shorts" then " photo-card" else "")
    + (if workType == "Design" then " design-card" else "")
  }

  function CardOf(w: Work): Card
  {
    Card(w.id, CardClass(w.workType))
  }

  /** The portfolio grid for a path: Photo and Shorts pages use the vertical `photo-grid` layout. */
  function RenderGrid(path: string, works: seq<Work>): (page: GridPage)
    ensures |page.cards| <= |works|
    ensures CategoryOf(path).Some? ==>
      var shown := Filter(works, CategoryOf(path).value);
      && |page.cards| == |shown|
      && forall i :: 0 <= i < |page.cards| ==> page.cards[i] == CardOf(shown[i])
  {
    var category := CategoryOf(path);
    var shown := FilterWorks(works, category);
    GridPage(
      category == Some(Photo) || category == Some(Shorts),
      seq(|shown|, i requires 0 <= i < |shown| => CardOf(shown[i])))
  }

  /** The class every card carries on a category's page. */
  function CategoryCardClass(c: Category): string
  {
    match c
    case Photo => "work-card photo-card"
    case Video => "work-card"
    case Shorts => "work-card photo-card"
    case Design => "work-card design-card"
  }

  /** A work listed on a category's page gets that page's card class. */
  lemma MatchingCardClass(w: Work, c: Category)
    requires Matches(w, c)
    ensures CardClass(w.workType) == CategoryCardClass(c)
  {
  }

  /**
   On a category page the grid layout and every card's class are fixed by the
   category: photo and shorts pages are photo grids of photo cards, video pages
   plain cards, design pages design cards.
   */
  lemma CategoryPageLayout(path: string, works: seq<Work>, c: Category)
    requires CategoryOf(path) == Some(c)
    ensures RenderGrid(path, works).photoGrid <==> c == Photo || c == Shorts
    ensures forall card :: card in RenderGrid(path, works).cards ==> card.cssClass == CategoryCardClass(c)
  {
    var shown := Filter(works, c);
    var cards := RenderGrid(path, works).cards;
    forall card | card in cards
      ensures card.cssClass == CategoryCardClass(c)
    {
      var i :| 0 <= i < |cards| && cards[i] == card;
      MatchingCardClass(shown[i], c);
    }
  }

  /** Without a category every work gets a card, in list order. */
  lemma AllWorksPage(path: string, works: seq<Work>)
    requires CategoryOf(path).None?
    ensures !RenderGrid(path, works).photoGrid
    ensures |RenderGrid(path, works).cards| == |works|
    ensures forall i :: 0 <= i < |works| ==> RenderGrid(path, works).cards[i] == CardOf(works[i])
  {
  }

  /** On a category page every matching work of the list gets its card. */
  lemma MatchingWorkGetsCard(path: string, works: seq<Work>, w: Work)
    requires CategoryOf(path).Some? && w in works && Matches(w, CategoryOf(path).value)
    ensures CardOf(w) in RenderGrid(path, works).cards
  {
    var shown := Filter(works, CategoryOf(path).value);
    FilterMembership(works, CategoryOf(path).value, w);
    var i :| 0 <= i < |shown| && shown[i] == w;
    assert RenderGrid(path, works).cards[i] == CardOf(w);
  }

  /** Each card links to a work of the list that belongs on the page. */
  lemma CardsComeFromShownWorks(path: string, works: seq<Work>, card: Card)
    requires card in RenderGrid(path, works).cards
    ensures exists w ::
      && w in works && w.id == card.workId
      && (CategoryOf(path).Some? ==> Matches(w, CategoryOf(path).value))
  {
    var shown := FilterWorks(works, CategoryOf(path));
    var cards := RenderGrid(path, works).cards;
    var i :| 0 <= i < |cards| && cards[i] == card;
    var w := shown[i];
    if CategoryOf(path).Some? {
      FilterMembership(works, CategoryOf(path).value, w);
    }
    assert w in works && w.id == card.workId;
  }
}
