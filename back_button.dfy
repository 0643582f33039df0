/** The back button (`initBackButton`): shown on work, category and contact pages. */
module BackButton {
  import opened JsStrings
  import opened PortfolioGrid

  /** The path holds one of the six fragments of a page that gets a back button. */
  predicate ShowBackButton(path: string)
  {
    || Includes(path, "/work/")
    || Includes(path, "/portfolio/video")
    || Includes(path, "/portfolio/photo")
    || Includes(path, "/portfolio/shorts")
    || Includes(path, "/portfolio/design")
    || Includes(path, "/contact/")
  }

  /** Each `/portfolio/<category>` fragment lies under `/portfolio/`. */
  lemma PortfolioPagesArePortfolio(path: string)
    ensures Includes(path, "/portfolio/video") ==> Includes(path, "/portfolio/")
    ensures Includes(path, "/portfolio/photo") ==> Includes(path, "/portfolio/")
    ensures Includes(path, "/portfolio/shorts") ==> Includes(path, "/portfolio/")
    ensures Includes(path, "/portfolio/design") ==> Includes(path, "/portfolio/")
  {
    var fragments := ["video", "photo", "shorts", "design"];
    forall k | 0 <= k < 4 && Includes(path, "/portfolio/" + fragments[k])
      ensures Includes(path, "/portfolio/")
    {
      IncludesInfix("", "/portfolio/", fragments[k]);
      assert "" + "/portfolio/" + fragments[k] == "/portfolio/" + fragments[k];
      IncludesTransitive(path, "/portfolio/" + fragments[k], "/portfolio/");
    }
    assert "/portfolio/" + fragments[0] == "/portfolio/video";
    assert "/portfolio/" + fragments[1] == "/portfolio/photo";
    assert "/portfolio/" + fragments[2] == "/portfolio/shorts";
    assert "/portfolio/" + fragments[3] == "/portfolio/design";
  }

  /** The back button only ever shows on a work page, a page under `/portfolio/`, or a contact page. */
  lemma BackButtonPagesAreSections(path: string)
    requires ShowBackButton(path)
    ensures Includes(path, "/work/") || Includes(path, "/portfolio/") || Includes(path, "/contact/")
  {
    PortfolioPagesArePortfolio(path);
  }

  /** Every work detail page and every contact page shows the back button, wherever the fragment sits. */
  lemma WorkAndContactPagesShowIt(before: string, after: string)
    ensures ShowBackButton(before + "/work/" + after)
    ensures ShowBackButton(before + "/contact/" + after)
  {
    IncludesInfix(before, "/work/", after);
    IncludesInfix(before, "/contact/", after);
  }

  /** Every category page under `/portfolio` shows the back button. */
  lemma CategoryPagesShowIt(before: string, c: Category, after: string)
    ensures ShowBackButton(before + "/portfolio" + Marker(c) + after)
  {
    var fragment := "/portfolio" + Marker(c);
    assert before + "/portfolio" + Marker(c) + after == before + fragment + after;
    IncludesInfix(before, fragment, after);
    match c
    case Photo => assert fragment == "/portfolio/photo";
    case Video => assert fragment == "/portfolio/video";
    case Shorts => assert fragment == "/portfolio/shorts";
    case Design => assert fragment == "/portfolio/design";
  }

  /** The site root and the portfolio index are top-level pages: no back button. */
  lemma TopLevelPagesHideIt()
    ensures !ShowBackButton("/")
    ensures !ShowBackButton("/portfolio/")
  {
    MissingCharExcludes("/", "/work/", 1);
    MissingCharExcludes("/", "/contact/", 1);
    MissingCharExcludes("/portfolio/", "/work/", 1);
    MissingCharExcludes("/portfolio/", "/contact/", 1);
    assert !Includes("/", "/portfolio/video") && !Includes("/", "/portfolio/photo");
    assert !Includes("/", "/portfolio/shorts") && !Includes("/", "/portfolio/design");
    assert !Includes("/portfolio/", "/portfolio/video") && !Includes("/portfolio/", "/portfolio/photo");
    assert !Includes("/portfolio/", "/portfolio/shorts") && !Includes("/portfolio/", "/portfolio/design");
  }

  /**
   A page that shows the back button for a category fragment (rather than for
   `/work/` or `/contact/`) is always a filtered grid page: its category
   fragment contains the grid's own fragment.
   */
  lemma BackButtonCategoryPagesAreFiltered(path: string)
    requires ShowBackButton(path)
    requires !Includes(path, "/work/") && !Includes(path, "/contact/")
    ensures CategoryOf(path).Some?
  {
    if Includes(path, "/portfolio/video") {
      assert "/portfolio" + "/video" == "/portfolio/video";
      FragmentHoldsMarker(path, "/portfolio", "/video");
    } else if Includes(path, "/portfolio/photo") {
      assert "/portfolio" + "/photo" == "/portfolio/photo";
      FragmentHoldsMarker(path, "/portfolio", "/photo");
    } else if Includes(path, "/portfolio/shorts") {
      assert "/portfolio" + "/shorts" == "/portfolio/shorts";
      FragmentHoldsMarker(path, "/portfolio", "/shorts");
    } else {
      assert "/portfolio" + "/design" == "/portfolio/design";
      FragmentHoldsMarker(path, "/portfolio", "/design");
    }
  }

  /** A path holding `prefix + marker` holds `marker`. */
  lemma FragmentHoldsMarker(path: string, prefix: string, marker: string)
    requires Includes(path, prefix + marker)
    ensures Includes(path, marker)
  {
    IncludesInfix(prefix, marker, "");
    assert prefix + marker + "" == prefix + marker;
    IncludesTransitive(path, prefix + marker, marker);
  }
}
