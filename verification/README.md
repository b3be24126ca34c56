# Blog post template: logo layout, visibility and canonical address

This project models the computational part of the site's blog post template
(`src/templates/blog.tsx`) in Dafny and proves properties of it:

- **Logo layout.** Fourteen hand-placed decorative markers `(x, y, size)` are
  tiled down the page. The markers are folded over the offsets `[3700, 8000]`,
  and each fold appends a copy of everything so far, moved down by the offset.
  This gives 56 markers.
- **Visibility.** Only markers whose `y` lies above the current page height
  less 200 pixels are drawn. The page height is the largest of five document
  measurements, or 500 when there is no browser window (server-side
  rendering).
- **Canonical address.** The address handed to the page layout is the
  post's front-matter `url` when it is truthy. Otherwise it is
  `https://www.gitpod.io` followed by the post's slug. A canonical
  `<link>` tag is emitted only for a truthy front-matter `url`.

Modules:

| file | module | contents |
|---|---|---|
| `wrappers.dfy` | `Wrappers` | `Option`, standing for `undefined`/`null` |
| `placement.dfy` | `Placement` | markers, the fold (`ShiftAll`, `FoldStep`, `Expand`) and its general properties, for any seed and any offsets |
| `visibility.dfy` | `Visibility` | the page height (`CurrentHeight`) and the filter (`VisibleMarkers`) |
| `canonical.dfy` | `Canonical` | the canonical address and the canonical link tag |
| `blog_logos.dfy` | `BlogLogos` | the template's own seed and offsets, and what they give |

Modelling choices:

- JavaScript truthiness of the optional front-matter `url` is
  `Some(s)` with `s` non-empty. `undefined`, `null` and `""` are all falsy.
- The DOM measurements are a parameter, `Option<Measurements>`, where `None`
  means no `window`. The measurements are integers.
- The filter calls `currentHeight()` once per marker. During one render every
  call reads the same document, so the model takes a single height value.

## Model

| member | source | states |
|---|---|---|
| Placement.ShiftAll | src/templates/blog.tsx:61 | the copy has the same length; each copied marker keeps its x and size and has its y increased by the offset |
| Placement.FoldStepShape | src/templates/blog.tsx:58-62 | one fold doubles the length, keeps everything so far as its prefix, and appends a copy moved down by the offset |
| Placement.ShiftAllTwice | src/templates/blog.tsx:61 | moving a copy down by b and then by c is the same as moving it down by b + c |
| Placement.ShiftAllAppend | src/templates/blog.tsx:59-62 | copying a concatenation copies each part |
| Placement.ExpandLength | src/templates/blog.tsx:58-78 | folding over n offsets multiplies the seed's length by 2^n |
| Placement.ExpandPrefix | src/templates/blog.tsx:58-78 | the folded layout starts with the seed, unchanged |
| Placement.ExpandAt | src/templates/blog.tsx:58-78 | the marker at position q·\|seed\| + j is seed marker j moved down by the sum of the offsets selected by the binary digits of q |
| Placement.ExpandOrigin | src/templates/blog.tsx:58-78 | every marker of the layout is a seed marker moved down by a subset sum of the offsets, with x and size unchanged |
| Placement.ExpandCovers | src/templates/blog.tsx:58-78 | conversely, every seed marker moved down by every subset sum of the offsets is in the layout |
| Placement.SubsetSumBlock | src/templates/blog.tsx:58-62 | every subset sum of the offsets is selected by some block index below 2^n |
| Placement.SelectedSumIsSubsetSum | src/templates/blog.tsx:58-62 | the offsets selected by any block index form a subset sum |
| Placement.CopiesBelow | src/templates/blog.tsx:58-78 | with non-negative offsets of at least lo, and seed markers at y ≥ top, every marker after the seed lies at y ≥ top + lo |
| Placement.ExpandTwo | src/templates/blog.tsx:58-63 | folding over two offsets a, b gives the seed, then copies moved by a, by b and by a + b, in that order |
| Visibility.CurrentHeight | src/templates/blog.tsx:47-56 | without a window the height is 500; with one it is one of the five measurements and no measurement exceeds it |
| Visibility.VisibleMarkers | src/templates/blog.tsx:113 | each marker keeps its number of occurrences when its y is above height − 200 and has none otherwise; the result is no longer than the input |
| Visibility.VisibleMembership | src/templates/blog.tsx:113 | a marker is drawn if and only if it is in the layout and lies above height − 200 |
| Visibility.VisibleAppend | src/templates/blog.tsx:113 | filtering a concatenation filters each part in turn, so the relative order is kept |
| Visibility.VisibleAll | src/templates/blog.tsx:113 | when every marker is visible, the filter returns the input unchanged |
| Visibility.VisibleNone | src/templates/blog.tsx:113 | when no marker is visible, the filter returns nothing |
| Visibility.ShortPageShowsNothing | src/templates/blog.tsx:113 | on a page no taller than 200, no marker at a non-negative y is drawn |
| Visibility.VisibleMonotone | src/templates/blog.tsx:113 | a taller page draws every marker a shorter one draws |
| Canonical.CanonicalUrl | src/templates/blog.tsx:92 | the front-matter url when truthy, otherwise the site origin followed by the slug; never empty |
| Canonical.CanonicalLink | src/templates/blog.tsx:107-109 | the tag is emitted exactly when the front-matter url is truthy, and its href is that url |
| Canonical.LinkAgreesWithLayout | src/templates/blog.tsx:92-109 | an emitted tag points at the layout's canonical address; without a tag the address is the site origin plus the slug, and the slug can be read back from it |
| Canonical.EmptyUrlIsAbsent | src/templates/blog.tsx:92-109 | an empty front-matter url behaves exactly like a missing one |
| BlogLogos.OffsetSums | src/templates/blog.tsx:58 | the subset sums of [3700, 8000] are exactly 0, 3700, 8000 and 11700 |
| BlogLogos.LogosBlocks | src/templates/blog.tsx:58-78 | the layout is the seed, then the seed moved by 3700, by 8000 and by 11700 |
| BlogLogos.LogosCount | src/templates/blog.tsx:58-78 | the layout has 56 markers |
| BlogLogos.SeedDepths | src/templates/blog.tsx:63-78 | the seed has 14 markers; the first two are (20, 160, 25) and (40, 80, 60); all are at y ≥ 80 and all but the first two at y ≥ 830 |
| BlogLogos.CopiesAreDeep | src/templates/blog.tsx:58-78 | every marker after the seed lies at y ≥ 3780 |
| BlogLogos.LogosStartWithSeed | src/templates/blog.tsx:58-78 | the layout starts with the 14 seed markers |
| BlogLogos.FirstTwoDrawn | src/templates/blog.tsx:113 | when the first two seed markers are the only visible ones, the filter returns exactly those two, in order |
| BlogLogos.FallbackVisibility | src/templates/blog.tsx:113 | at height 500 the first two seed markers are visible and no other marker of the layout is |
| BlogLogos.FallbackLogos | src/templates/blog.tsx:113 | without a window exactly two markers are drawn: (20, 160, 25) and (40, 80, 60) |
| BlogLogos.RenderedFromLayout | src/templates/blog.tsx:113 | every drawn marker belongs to the layout |
| BlogLogos.LayoutOrigin | src/templates/blog.tsx:58-78 | every layout marker is a seed marker, with x and size kept, moved down by 0, 3700, 8000 or 11700 |
| BlogLogos.RenderedOrigin | src/templates/blog.tsx:113 | for any window, every drawn marker is a seed marker, with x and size kept, moved down by 0, 3700, 8000 or 11700 |

## Left out

- The page markup is not modelled: the JSX tree, the `Helmet` title, the
  description, keyword, Twitter and Open Graph meta tags, the `og:url`
  built from the site metadata, and the subtitle and teaser-image
  conditionals. They only place data into markup.
- Styled components, breakpoints and CSS are presentation only.
- Date formatting (`toLocaleDateString`) depends on the runtime locale
  library.
- The share links built with `encodeURIComponent` are left out; URI
  encoding is a library call.
- The post body injected through `dangerouslySetInnerHTML` is left out.
- The GraphQL page query and the data it returns are left out. The post is
  reduced to its `url` and `slug`.
- Reading the document's measurements is DOM I/O. They are a parameter
  instead.
- Visibility.CurrentHeight: `Math.max` over `NaN` or fractional pixel
  values is not modelled; measurements are integers.
- Visibility.VisibleMarkers: the source calls `currentHeight()` once per
  marker. The model uses one height for the whole filter, which matches the
  source whenever the document does not change during one render.
