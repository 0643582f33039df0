/**
 The work detail page (`initWorkDetail`): the `id` query parameter picks a
 work, its neighbours in the list become the previous/next links (wrapping
 around), and the work's media is a YouTube player, an Instagram embed or an
 image gallery, in that order of precedence.
 */
module WorkDetail {
  import opened Wrappers
  import opened JsStrings
  import opened Works
  import PortfolioGrid

  /** `works.findIndex(w => w.id === id)`: the first work with that id. */
  function FindIndex(works: seq<Work>, id: string): (r: Option<nat>)
    ensures r.Some? ==> r.value < |works| && works[r.value].id == id
    ensures r.Some? ==> forall k :: 0 <= k < r.value ==> works[k].id != id
    ensures r.None? <==> forall k :: 0 <= k < |works| ==> works[k].id != id
  {
    if works == [] then None
    else if works[0].id == id then Some(0)
    else match FindIndex(works[1..], id)
      case None => None
      case Some(i) => Some(i + 1)
  }

  /** Index of the next work, `(i + 1) % n`: the last work's next is the first. */
  function NextIndex(i: nat, n: nat): (r: nat)
    requires i < n
    ensures r < n
    ensures r == if i == n - 1 then 0 else i + 1
  {
    (i + 1) % n
  }

  /** Index of the previous work, `(i - 1 + n) % n`: the first work's previous is the last. */
  function PrevIndex(i: nat, n: nat): (r: nat)
    requires i < n
    ensures r < n
    ensures r == if i == 0 then n - 1 else i - 1
  {
    (i - 1 + n) % n
  }

  /** Previous and next undo each other. */
  lemma NeighboursAreInverse(i: nat, n: nat)
    requires i < n
    ensures PrevIndex(NextIndex(i, n), n) == i
    ensures NextIndex(PrevIndex(i, n), n) == i
  {
  }

  /** With a single work both links lead back to it; with two, both lead to the other one. */
  lemma SmallListNeighbours(i: nat, n: nat)
    requires i < n <= 2
    ensures n == 1 ==> NextIndex(i, n) == i && PrevIndex(i, n) == i
    ensures n == 2 ==> NextIndex(i, n) == PrevIndex(i, n) == 1 - i
  {
  }

  /** What the detail page embeds for a work. */
  datatype Media =
    | YouTube(src: string)
    | Instagram(src: string)
    | Gallery(images: seq<string>)
    | NoMedia

  /**
   The Instagram embed address: the first `/reel/` becomes `/p/`, one trailing
   slash is dropped, and `/embed/` is appended.
   */
  function InstagramEmbedUrl(url: string): (r: string)
    ensures |r| >= 7 && r[|r| - 7..] == "/embed/"
    ensures !Includes(url, "/reel/") ==> r == StripTrailingSlash(url) + "/embed/"
  {
    StripTrailingSlash(ReplaceFirst(url, "/reel/", "/p/")) + "/embed/"
  }

  /** A reel address turns into the post embed address. */
  lemma ReelEmbedExample()
    ensures InstagramEmbedUrl("/reel/C1/") == "/p/C1/embed/"
  {
    assert ReplaceFirst("/reel/C1/", "/reel/", "/p/") == "/p/C1/";
  }

  /** Only the first `/reel/` is rewritten; a later one stays. */
  lemma OnlyFirstReelRewritten()
    ensures InstagramEmbedUrl("/reel/x/reel/") == "/p/x/reel/embed/"
  {
    assert ReplaceFirst("/reel/x/reel/", "/reel/", "/p/") == "/p/x/reel/";
  }

  /** Only one trailing slash is dropped: `//` at the end leaves one behind. */
  lemma OneTrailingSlashDropped()
    ensures InstagramEmbedUrl("/p/C1//") == "/p/C1//embed/"
  {
    MissingCharExcludes("/p/C1//", "/reel/", 1);
    assert StripTrailingSlash("/p/C1//") == "/p/C1/";
  }

  /** The YouTube player address for a video id. */
  function YouTubeEmbedUrl(videoId: string): string
  {
    "https://www.youtube.com/embed/" + videoId
  }

  /**
   The media of a work: a truthy `videoId` wins over a truthy `instagramUrl`,
   which wins over a present `images` list (an empty list still counts).
   */
  function MediaOf(w: Work): (m: Media)
    ensures m.YouTube? <==> Truthy(w.videoId)
    ensures m.Instagram? <==> !Truthy(w.videoId) && Truthy(w.instagramUrl)
    ensures m.Gallery? <==> !Truthy(w.videoId) && !Truthy(w.instagramUrl) && w.images.Some?
    ensures m.NoMedia? <==> !Truthy(w.videoId) && !Truthy(w.instagramUrl) && w.images.None?
    ensures m.YouTube? ==> m.src == YouTubeEmbedUrl(w.videoId.value)
    ensures m.Instagram? ==> m.src == InstagramEmbedUrl(w.instagramUrl.value)
    ensures m.Gallery? ==> m.images == w.images.value
  {
    if Truthy(w.videoId) then YouTube(YouTubeEmbedUrl(w.videoId.value))
    else if Truthy(w.instagramUrl) then Instagram(InstagramEmbedUrl(w.instagramUrl.value))
    else if w.images.Some? then Gallery(w.images.value)
    else NoMedia
  }

  /** A rendered detail page: the work, its neighbours, its media, its credits and the lightbox's images if any. */
  datatype Detail = Detail(
    work: Work, prev: Work, next: Work, media: Media, credits: seq<string>, lightbox: Option<seq<string>>)

  /**
   What the detail page ends up showing: "Work not found.", nothing at all
   (the template's `work.credits.map` throws, so the page is never written
   and no lightbox is set up), or the rendered page.
   */
  datatype DetailPage = NotFound | Broken | Shown(detail: Detail)

  /**
   The detail page for the `id` query parameter: "Work not found." when the
   parameter is missing or empty or no work has that id; a broken page when
   the first work with that id has no `credits` array.
   */
  function ResolveDetail(works: seq<Work>, idParam: Option<string>): (r: DetailPage)
    ensures r.NotFound? <==> !Truthy(idParam) || forall k :: 0 <= k < |works| ==> works[k].id != idParam.value
    ensures r.Broken? <==>
      && Truthy(idParam)
      && FindIndex(works, idParam.value).Some?
      && works[FindIndex(works, idParam.value).value].credits.None?
    ensures r.Shown? ==>
      && r.detail.work.id == idParam.value
      && r.detail.media == MediaOf(r.detail.work)
      && r.detail.work.credits == Some(r.detail.credits)
      && (r.detail.lightbox.Some? <==> r.detail.work.images.Some?)
      && (r.detail.lightbox.Some? ==> r.detail.lightbox == r.detail.work.images)
  {
    if !Truthy(idParam) then NotFound
    else match FindIndex(works, idParam.value)
      case None => NotFound
      case Some(i) =>
        var n := |works|;
        var w := works[i];
        if w.credits.None? then Broken
        else Shown(Detail(w, works[PrevIndex(i, n)], works[NextIndex(i, n)], MediaOf(w), w.credits.value, w.images))
  }

  /**
   A field holding `""` behaves exactly like a missing one: an empty `videoId`
   or `instagramUrl` falls through to the next kind of media, and an empty or
   missing `id` parameter gives "Work not found.".
   */
  lemma FalsyFieldsFallThrough(works: seq<Work>, w: Work)
    ensures MediaOf(w.(videoId := Some(""))) == MediaOf(w.(videoId := None))
    ensures MediaOf(w.(instagramUrl := Some(""))) == MediaOf(w.(instagramUrl := None))
    ensures ResolveDetail(works, Some("")) == NotFound && ResolveDetail(works, None) == NotFound
  {
  }

  /** The page shows the first work with the id, flanked by its circular neighbours in the full list. */
  lemma DetailNeighbours(works: seq<Work>, id: string)
    requires ResolveDetail(works, Some(id)).Shown?
    ensures var d := ResolveDetail(works, Some(id)).detail;
      exists i :: 0 <= i < |works|
        && (forall k :: 0 <= k < i ==> works[k].id != id)
        && d.work == works[i]
        && d.prev == works[if i == 0 then |works| - 1 else i - 1]
        && d.next == works[if i == |works| - 1 then 0 else i + 1]
  {
  }

  /** On a one-work list the previous and next links both show the work itself. */
  lemma SingleWorkLinksToItself(works: seq<Work>, id: string)
    requires |works| == 1 && ResolveDetail(works, Some(id)).Shown?
    ensures ResolveDetail(works, Some(id)).detail.prev == works[0]
    ensures ResolveDetail(works, Some(id)).detail.next == works[0]
  {
  }

  /**
   The lightbox markup is there whenever `images` is, even when a video or an
   Instagram embed takes the media slot, so no thumbnail can open it.
   */
  lemma LightboxWithoutGallery(works: seq<Work>, id: string)
    requires ResolveDetail(works, Some(id)).Shown?
    ensures var d := ResolveDetail(works, Some(id)).detail;
      d.media.Gallery? ==> d.lightbox == Some(d.media.images)
    ensures var d := ResolveDetail(works, Some(id)).detail;
      d.lightbox.Some? && !d.media.Gallery? ==> Truthy(d.work.videoId) || Truthy(d.work.instagramUrl)
  {
  }

  /**
   Characters that survive the unencoded `href="/work/?id=..."` and the
   `URLSearchParams` read-back unchanged: letters, digits and `-_.~`.
   */
  predicate UrlSafe(id: string)
  {
    forall i :: 0 <= i < |id| ==>
      || 'a' <= id[i] <= 'z' || 'A' <= id[i] <= 'Z' || '0' <= id[i] <= '9'
      || id[i] == '-' || id[i] == '_' || id[i] == '.' || id[i] == '~'
  }

  /**
   Every grid card whose id is non-empty and URL-safe links to a detail page
   that finds a work with that id: it renders that work, or breaks when the
   work has no credits.
   */
  lemma GridLinksResolve(path: string, works: seq<Work>, card: PortfolioGrid.Card)
    requires card in PortfolioGrid.RenderGrid(path, works).cards
    requires card.workId != "" && UrlSafe(card.workId)
    ensures !ResolveDetail(works, Some(card.workId)).NotFound?
    ensures ResolveDetail(works, Some(card.workId)).Shown? ==>
      ResolveDetail(works, Some(card.workId)).detail.work.id == card.workId
  {
    PortfolioGrid.CardsComeFromShownWorks(path, works, card);
    var w :| w in works && w.id == card.workId;
    var k :| 0 <= k < |works| && works[k] == w;
    assert works[k].id == card.workId;
  }
}
