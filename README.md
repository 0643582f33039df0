# SA Visual portfolio script — a Dafny model

This project models the decision logic of the portfolio site's single client
script, `assets/app.js`:

- **Category routing and filtering** of the portfolio grid. The URL path picks
  a category by the first fragment found, in the order `/photo`, `/video`,
  `/shorts`, `/design`. The works list is then filtered by `type`. Video pages
  list `Full Video` and `Teaser` works. Every other category lists works whose
  type equals its name. A path with no fragment lists every work. Photo and
  Shorts pages use the `photo-grid` layout. Each card's class depends on its
  work's type.
- **The back button**, shown when the path holds one of six fragments.
- **The work detail page.** The `id` query parameter finds the first work with
  that id. The previous and next links are its circular neighbours in the
  full list. The media slot is a YouTube player, an Instagram embed or an
  image gallery, in that order of precedence. A found work without a
  `credits` array breaks the page: the template throws before anything is
  written, and no lightbox is set up. The Instagram address is
  rewritten: the first `/reel/` becomes `/p/`, one trailing slash is dropped,
  and `/embed/` is appended.
- **The image lightbox.** It holds a current index, an open flag, the shown
  image, the "n / total" counter and the page-scroll lock. Thumbnails open it.
  The arrows and arrow keys step with wrap-around. The close control and
  Escape close it. Keys act only while it is open.

Modules:

- `Wrappers`: the `Option` type.
- `JsStrings`: `includes`, string-pattern `replace` and the trailing-slash
  regex, over `seq<char>`.
- `Works`: the work record and JavaScript truthiness of its optional fields.
- `PortfolioGrid`, `BackButton` and `WorkDetail`: pure functions and lemmas.
- `Lightbox`: the `Step` arithmetic, plus the class `Lightbox.Controller`.
  The class holds the state the source keeps in closure variables and page
  styles.

Inputs that the browser supplies are parameters of the model. These are
`window.location.pathname`, the `id` query parameter (absent, or a string)
and the fetched works list.

## Model

| member | source | states |
|---|---|---|
| `JsStrings.Includes` | assets/app.js:11-16 | `s.includes(t)`: `t` is a prefix of `s` or of one of its tails; an included string is never longer than the including one |
| `JsStrings.IncludesIff` | assets/app.js:11-16 | `path.includes(t)` holds exactly when `t` occurs at some index of `path` |
| `JsStrings.IncludesInfix` | assets/app.js:88-98 | a fragment glued anywhere into a path is found by `includes` |
| `JsStrings.IncludesTransitive` | assets/app.js:11-16 | a fragment of a fragment found in the path is itself found in the path |
| `JsStrings.IndexOf` | assets/app.js:176 | the search used by `replace` finds the first occurrence; it finds none exactly when `includes` is false |
| `JsStrings.ReplaceFirst` | assets/app.js:176 | `replace('/reel/', '/p/')` swaps only the first occurrence and keeps the text before and after it; with no occurrence the string is unchanged |
| `JsStrings.StripTrailingSlash` | assets/app.js:176 | `replace(/\/$/, '')` yields a prefix at most one character shorter; it is shorter exactly when the string ends in `/` |
| `PortfolioGrid.CategoryOf` | assets/app.js:88-98 | the category the path selects, first match in the order photo, video, shorts, design; the chosen category's fragment always occurs in the path |
| `PortfolioGrid.CategoryIsFirstMatch` | assets/app.js:88-98 | the chosen category's fragment occurs in the path and no fragment checked earlier does; there is no category exactly when none of the four occurs |
| `PortfolioGrid.PhotoWins` | assets/app.js:88-92 | any path holding `/photo` is a Photo page, even if it also holds `/video` |
| `PortfolioGrid.Filter` | assets/app.js:103-112 | the filtered list is no longer than the input and every work in it matches the category |
| `PortfolioGrid.FilterWorks` | assets/app.js:103-113 | without a category the list passes through unchanged; with one, every listed work matches it |
| `PortfolioGrid.FilterMembership` | assets/app.js:103-112 | a work is listed exactly when it is in the input and matches the category (Video: `Full Video` or `Teaser`) |
| `PortfolioGrid.FilterConcat` | assets/app.js:103-112 | filtering a concatenation is the concatenation of the filtered parts |
| `PortfolioGrid.FilterSingleton` | assets/app.js:103-112 | a one-work list keeps the work exactly when it matches; with `FilterConcat` this fixes the filtered list as the in-order list of all matching works, duplicates included |
| `PortfolioGrid.FilterKeepsAllMatching` | assets/app.js:103-112 | when every work matches, the filter drops none |
| `PortfolioGrid.FilterIdempotent` | assets/app.js:103-112 | filtering an already filtered list changes nothing |
| `PortfolioGrid.FilterIsSubsequence` | assets/app.js:103-112 | the filtered list keeps the input's order |
| `PortfolioGrid.CardClass` | assets/app.js:121 | a card's class list starts with `work-card`; it is only `work-card` exactly when the type is none of Photo, Shorts, Design |
| `PortfolioGrid.MatchingCardClass` | assets/app.js:121 | a work listed on a category page gets that page's card class |
| `PortfolioGrid.CategoryPageLayout` | assets/app.js:88-128 | on a category page, the grid is `photo-grid` exactly for Photo and Shorts; every card is `work-card photo-card` (Photo, Shorts), `work-card` (Video) or `work-card design-card` (Design) |
| `PortfolioGrid.AllWorksPage` | assets/app.js:103-128 | with no category every work gets a card, in list order, and the grid is not a photo grid |
| `PortfolioGrid.CardsComeFromShownWorks` | assets/app.js:120-128 | each card links to a work of the list that matches the page's category |
| `PortfolioGrid.RenderGrid` | assets/app.js:103-128 | the grid never has more cards than there are works; on a category page it has one card per filtered work, in the filtered order |
| `PortfolioGrid.MatchingWorkGetsCard` | assets/app.js:103-128 | on a category page every matching work of the list gets its card |
| `BackButton.BackButtonPagesAreSections` | assets/app.js:11-16 | every path that shows the back button (one of the six fragments) holds `/work/`, `/portfolio/` or `/contact/` |
| `BackButton.WorkAndContactPagesShowIt` | assets/app.js:11-16 | every path holding `/work/` or `/contact/` shows the back button |
| `BackButton.CategoryPagesShowIt` | assets/app.js:11-16 | every path holding `/portfolio` followed by a category fragment (`/portfolio/photo`, `/portfolio/video`, `/portfolio/shorts`, `/portfolio/design`) shows the back button |
| `BackButton.TopLevelPagesHideIt` | assets/app.js:11-18 | `/` and `/portfolio/` show no back button |
| `BackButton.BackButtonCategoryPagesAreFiltered` | assets/app.js:11-16 | a path that shows the back button for a category fragment always selects a grid category |
| `WorkDetail.FalsyFieldsFallThrough` | assets/app.js:138-174 | a `videoId` or `instagramUrl` of `""` gives the same media as a missing one, so it takes the next branch; an `id` parameter that is `""` or missing gives "Work not found." |
| `WorkDetail.FindIndex` | assets/app.js:145-153 | the index found holds the first work with the id; none is found exactly when no work has it |
| `WorkDetail.NextIndex` | assets/app.js:154 | `(i + 1) % n` is in range and is `i + 1`, or 0 after the last work |
| `WorkDetail.PrevIndex` | assets/app.js:155 | `(i - 1 + n) % n` is in range and is `i - 1`, or the last work before the first |
| `WorkDetail.NeighboursAreInverse` | assets/app.js:153-155 | previous of next and next of previous are the work itself |
| `WorkDetail.SmallListNeighbours` | assets/app.js:153-155 | with one work both neighbours are the work; with two, both are the other work |
| `WorkDetail.InstagramEmbedUrl` | assets/app.js:176 | the embed address ends with `/embed/`; without `/reel/` it is the address less one trailing slash, plus `/embed/` |
| `WorkDetail.ReelEmbedExample` | assets/app.js:176 | `/reel/C1/` becomes `/p/C1/embed/` |
| `WorkDetail.OnlyFirstReelRewritten` | assets/app.js:176 | in `/reel/x/reel/` only the first `/reel/` becomes `/p/` |
| `WorkDetail.OneTrailingSlashDropped` | assets/app.js:176 | from `/p/C1//` only one trailing slash is dropped |
| `WorkDetail.MediaOf` | assets/app.js:160-206 | media precedence: a truthy `videoId` gives YouTube, else a truthy `instagramUrl` gives Instagram, else present `images` give a gallery, else nothing; with the embed address of each |
| `WorkDetail.ResolveDetail` | assets/app.js:136-254 | "Work not found." exactly when the id parameter is missing or empty or no work has it; a broken page exactly when the first work with the id has no `credits` array; otherwise the page shows that work with `MediaOf` as its media, its credits, and a lightbox over its `images` exactly when it has them |
| `WorkDetail.DetailNeighbours` | assets/app.js:144-155 | a rendered page shows the first work with the id, with the circularly previous and next works of the full list |
| `WorkDetail.SingleWorkLinksToItself` | assets/app.js:153-155 | in a one-work list both navigation links show the work itself |
| `WorkDetail.LightboxWithoutGallery` | assets/app.js:242-254 | a gallery always comes with a lightbox over the same images; a lightbox without a gallery happens only when a video or Instagram embed took the media slot |
| `WorkDetail.GridLinksResolve` | assets/app.js:120-150 | every grid card whose id is non-empty and made of letters, digits and `-_.~` links to a detail page that finds a work with that id, and shows it when it is rendered |
| `Lightbox.Step` | assets/app.js:270-273 | with at least one image the stepped index is always a valid index, for any direction |
| `Lightbox.StepInside` | assets/app.js:270-273 | a step that stays inside the list moves by exactly the direction |
| `Lightbox.StepWraps` | assets/app.js:270-273 | +1 from the last image gives 0; -1 from 0 gives the last image |
| `Lightbox.StepRoundTrip` | assets/app.js:270-273 | +1 then -1, or -1 then +1, returns to the starting image |
| `Lightbox.Controller.constructor` | assets/app.js:248-255 | the lightbox starts closed at index 0 with the counter at 1 and the invariant established |
| `Lightbox.Controller.CounterInRange` | assets/app.js:277-280 | the counter is always between 1 and the number of images |
| `Lightbox.Controller.UpdateImage` | assets/app.js:277-280 | shows the current image and the counter index + 1 |
| `Lightbox.Controller.Open` | assets/app.js:258-263 | opening at `i` shows image `i`, counter `i + 1`, opens the lightbox and locks page scroll |
| `Lightbox.Controller.Close` | assets/app.js:265-268 | closing hides the lightbox and unlocks page scroll; index, image and counter stay |
| `Lightbox.Controller.ChangeImage` | assets/app.js:270-275 | the new index is `Step(old index, direction)`; it shows that image and its counter; the open flag is unchanged |
| `Lightbox.Controller.HandleKey` | assets/app.js:283-290 | closed: nothing changes. Open: ArrowLeft steps -1 and ArrowRight +1, staying open; Escape closes and keeps the index; other keys change nothing |

## Left out

- `loadWorksData`: the `fetch` of `/data/works.json`, JSON parsing and its error fallback are network I/O. The works list is a parameter.
- Reading `window.location` and `URLSearchParams`: the path and the `id` parameter are parameters.
- Markup: the HTML template strings and `innerHTML` writes. Only the decisions behind them are modelled: card class, grid class, card link target, media kind and embed address, and lightbox presence. Title, year, client and thumbnail are only printed, so `Works.Work` does not keep them. `credits` is kept because its `map` call throws when it is missing.
- `initScrollAnimation`: it uses IntersectionObserver, timers and style changes.
- The contact page: static markup, plus clipboard and timer calls.
- `history.back`, the event-listener wiring and `init`'s page dispatch.
- JSON value types: ids and types are compared as strings. `images` is either absent or a list of strings. A present `images` list is truthy even when empty, as in JavaScript.
- WorkDetail.GridLinksResolve: covers only ids made of letters, digits and `-_.~`. The card link puts the id into the URL unencoded, and `URLSearchParams` reads it back decoded. `&`, `#`, `+` and `%` escapes do not survive that round trip, and that URL parsing is not modelled.
- A truthy `images` value that is not an array: its `map` call would throw too. The model takes `images` to be absent or an array. A `credits` value that is not an array is treated like a missing one.
- Lightbox.Controller.Open: requires `0 <= i < |images|`. The source does no bounds check, but its only callers are the thumbnails, which pass their own index.
- Lightbox.Controller.ChangeImage: requires at least one image. Its controls sit inside the lightbox and the key handler checks that it is open, and opening needs a thumbnail.
- Lightbox.Controller.HandleKey: the handler's check that the lightbox element exists is always true where the handler is registered, so it is not modelled.
- The lightbox index is an unbounded integer. The source uses JavaScript numbers, which are exact at these sizes.
