/**
 * The derived layout values of components/valentines/ValentinesRose.tsx:
 * the static gallery, the number of full-height screens, the mobile
 * breakpoint, the rose's largest scale, and the section that triggers the
 * footer reveal. Scales are exact `real`s.
 */
module RoseLayout {
  import opened Wrappers

  datatype Side = Left | Right

  /** One gallery entry: an image path (also the entry's rendering key), a caption and a side. */
  datatype Entry = Entry(image: string, caption: string, side: Side)

  const Gallery: seq<Entry> := [
    Entry("/val1.png", "When we first started dating", Left),
    Entry("/val2.png", "We became fond of each other", Right),
    Entry("/val3.png", "I couldn't be away from you", Left),
    Entry("/val4.png", "Little addition to our family", Right),
    Entry("/val5.png", "The moments that matter the most", Left),
    Entry("/val6.png", "The waterfall couldn't keep us apart", Right),
    Entry("/val7.png", "Realizing our future together", Left),
    Entry("/val8.png", "I love you more than words can say", Right)
  ]

  /** Viewports narrower than this many CSS pixels are mobile. */
  const MobileBreakpoint: int := 768

  /** The scale the rose starts from at the top of the page. */
  const InitialScale: real := 0.2

  /** The full-height layers the page renders, top to bottom. */
  datatype Screen = Intro | Photo(index: nat) | Spacer

  function Screens(g: seq<Entry>): (s: seq<Screen>)
    ensures |s| == |g| + 2
    ensures s[0] == Intro && s[|s| - 1] == Spacer
    ensures forall i :: 0 <= i < |g| ==> s[i + 1] == Photo(i)
  {
    [Intro] + seq(|g|, (i: nat) => Photo(i)) + [Spacer]
  }

  /** `totalScreens`: the page height in viewport heights. */
  function TotalScreens(g: seq<Entry>): nat {
    |g| + 2
  }

  /** The container's CSS height in `vh`. */
  function DocumentHeightVh(g: seq<Entry>): nat {
    TotalScreens(g) * 100
  }

  /** `checkMobile`: the viewport class of a width. */
  function IsMobile(width: int): bool {
    width < MobileBreakpoint
  }

  function Min(a: real, b: real): (r: real)
    ensures r <= a && r <= b
    ensures r == a || r == b
  {
    if a <= b then a else b
  }

  /** `maxScale` for a gallery of `n` entries. */
  function MaxScale(n: nat, mobile: bool): (r: real)
    ensures mobile ==> r <= 4.0
    ensures !mobile ==> r <= 8.0
    ensures r > InitialScale
  {
    if mobile then Min(4.0, n as real * 0.3 + 1.5)
    else Min(8.0, n as real * 0.5 + 2.0)
  }

  /**
   * The index of the photo section the footer reveal is attached to, given
   * how many photo sections are in the document when the deferred lookup runs;
   * None when that section is absent and the reveal is skipped.
   */
  function FooterTrigger(galleryLength: nat, rendered: nat): (r: Option<nat>)
    ensures r.Some? <==> 1 <= galleryLength <= rendered
    ensures r.Some? ==> r.value + 1 == galleryLength && r.value < rendered
  {
    if 0 <= galleryLength - 1 < rendered then Some(galleryLength - 1) else None
  }

  // ---- The gallery ---------------------------------------------------------

  lemma GalleryLayout()
    ensures |Gallery| == 8
    ensures TotalScreens(Gallery) == 10 && DocumentHeightVh(Gallery) == 1000
    ensures FooterTrigger(|Gallery|, |Gallery|) == Some(7)
  {
  }

  /** The page height counts every full-height layer the page renders. */
  lemma TotalScreensCountsLayers(g: seq<Entry>)
    ensures TotalScreens(g) == |Screens(g)|
    ensures |Screens(g)| == 1 + |g| + 1
  {
  }

  /** Entry i is on the left exactly when i is even. */
  lemma GallerySidesAlternate(i: int)
    requires 0 <= i < |Gallery|
    ensures Gallery[i].side == Left <==> i % 2 == 0
  {
  }

  /** No two entries share an image path, so the rendering keys are unique. */
  lemma GalleryKeysAreDistinct(i: int, j: int)
    requires 0 <= i < j < |Gallery|
    ensures Gallery[i].image != Gallery[j].image
  {
  }

  // ---- The breakpoint and the largest scale -----------------------------

  /** The mobile class is closed downwards: every narrower viewport is mobile too. */
  lemma MobileIsDownwardClosed(narrow: int, wide: int)
    requires narrow <= wide
    ensures IsMobile(wide) ==> IsMobile(narrow)
    ensures !IsMobile(narrow) ==> !IsMobile(wide)
  {
  }

  /** A longer gallery never gives a smaller largest scale. */
  lemma MaxScaleIsMonotone(n: nat, m: nat, mobile: bool)
    requires n <= m
    ensures MaxScale(n, mobile) <= MaxScale(m, mobile)
  {
  }

  /** The caps are reached from 9 entries on mobile and from 12 on desktop. */
  lemma MaxScaleCapReached(n: nat)
    ensures MaxScale(n, true) == 4.0 <==> n >= 9
    ensures MaxScale(n, false) == 8.0 <==> n >= 12
  {
  }

  lemma MaxScaleOfGallery()
    ensures MaxScale(|Gallery|, true) == 3.9
    ensures MaxScale(|Gallery|, false) == 6.0
  {
  }

  /** For every gallery the desktop rose grows larger than the mobile one. */
  lemma DesktopScaleExceedsMobile(n: nat)
    ensures MaxScale(n, false) > MaxScale(n, true)
  {
  }

  /**
   * `maxScale` changes between two viewport widths, which makes the page
   * re-register its scroll effects, exactly when the widths lie on
   * different sides of the breakpoint.
   */
  lemma MaxScaleChangesIffBreakpointCrossed(n: nat, w1: int, w2: int)
    ensures MaxScale(n, IsMobile(w1)) != MaxScale(n, IsMobile(w2))
        <==> (w1 < MobileBreakpoint) != (w2 < MobileBreakpoint)
  {
  }
}
