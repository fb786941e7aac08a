/**
 * The playback state of components/valentines/ValentinesRose.tsx: the
 * one-shot first-scroll handler, the manual music toggle, and the viewport
 * check whose result decides when the scroll handler is registered again.
 * The audio element is abstract: present or absent, a volume, and the log
 * of play and pause requests made to it; whether a request succeeds is not
 * part of the state, so `isPlaying` records intent.
 */
module RosePlayback {
  import RoseLayout

  datatype Command = Play | Pause

  /** The browser events the page reacts to. */
  datatype Event = Scroll | Toggle | Resize(width: int)

  /**
   * A snapshot of the page's state: `hasScrolledRef`, `isPlaying`,
   * `isMobile`, whether the first-scroll listener is registered, and the
   * audio element (present or not, its volume, the requests made to it).
   */
  datatype Page = Page(
    hasScrolled: bool,
    isPlaying: bool,
    isMobile: bool,
    scrollListening: bool,
    audioPresent: bool,
    volume: real,
    log: seq<Command>)

  /** The volume of a fresh media element. */
  const DefaultVolume: real := 1.0

  /** The volume the first-scroll handler sets. */
  const ActivationVolume: real := 0.25

  /** The first render, with the mount effect's scroll listener registered and its `checkMobile` result not yet rendered. */
  function Initial(audioPresent: bool): (p: Page)
    ensures !p.hasScrolled && !p.isPlaying && !p.isMobile && p.log == []
  {
    Page(false, false, false, true, audioPresent, DefaultVolume, [])
  }

  /** `maxScale` as the page computes it from its state. */
  function MaxScaleOf(p: Page): real {
    RoseLayout.MaxScale(|RoseLayout.Gallery|, p.isMobile)
  }

  /** The first-scroll handler is registered and its guard holds. */
  predicate Activates(p: Page) {
    p.scrollListening && !p.hasScrolled && p.audioPresent
  }

  /** A scroll event, as seen by `handleFirstScroll` when it is registered. */
  function OnScroll(p: Page): (q: Page)
    ensures q.audioPresent == p.audioPresent && q.isMobile == p.isMobile
    ensures Activates(p) ==> q == p.(hasScrolled := true, volume := ActivationVolume,
                                    log := p.log + [Play], isPlaying := true,
                                    scrollListening := false)
    ensures !Activates(p) ==> q == p
  {
    if p.scrollListening && !p.hasScrolled && p.audioPresent then
      p.(hasScrolled := true, volume := ActivationVolume, log := p.log + [Play],
         isPlaying := true, scrollListening := false)
    else
      p
  }

  /** `toggleMusic`. */
  function OnToggle(p: Page): (q: Page)
    ensures p.audioPresent ==> q == p.(log := p.log + [if p.isPlaying then Pause else Play],
                                       isPlaying := !p.isPlaying)
    ensures !p.audioPresent ==> q == p
  {
    if p.audioPresent then
      var cmd := if p.isPlaying then Pause else Play;
      p.(log := p.log + [cmd], isPlaying := !p.isPlaying)
    else
      p
  }

  /**
   * `checkMobile` on a resize. When the result changes `maxScale`, the
   * mount effect runs again: its cleanup removes the scroll listener and its
   * body registers a fresh one. `hasScrolledRef` is a ref and survives.
   */
  function OnResize(p: Page, width: int): (q: Page)
    ensures q.isMobile == (width < RoseLayout.MobileBreakpoint)
    ensures q.scrollListening == (p.scrollListening || MaxScaleOf(q) != MaxScaleOf(p))
    ensures q.(isMobile := p.isMobile, scrollListening := p.scrollListening) == p
  {
    var mobile := RoseLayout.IsMobile(width);
    var rerun := RoseLayout.MaxScale(|RoseLayout.Gallery|, mobile) != MaxScaleOf(p);
    p.(isMobile := mobile, scrollListening := p.scrollListening || rerun)
  }

  function Step(p: Page, e: Event): Page {
    match e
    case Scroll => OnScroll(p)
    case Toggle => OnToggle(p)
    case Resize(w) => OnResize(p, w)
  }

  function Run(p: Page, es: seq<Event>): Page
    decreases |es|
  {
    if es == [] then p else Run(Step(p, es[0]), es[1..])
  }

  /** How many play requests the first-scroll handler makes along a run. */
  function ScrollPlays(p: Page, es: seq<Event>): nat
    decreases |es|
  {
    if es == [] then 0
    else (if es[0] == Scroll && Activates(p) then 1 else 0) + ScrollPlays(Step(p, es[0]), es[1..])
  }

  /** The last request made to the audio element asks it to play. */
  predicate LastRequestIsPlay(p: Page) {
    |p.log| > 0 && p.log[|p.log| - 1] == Play
  }

  /** What every reachable state satisfies. */
  predicate Consistent(p: Page) {
    // `isPlaying` is the intent of the latest request, not confirmed playback
    (p.isPlaying <==> LastRequestIsPlay(p)) &&
    // the volume is set once, by the activation
    (p.hasScrolled ==> p.audioPresent && p.volume == ActivationVolume) &&
    (!p.hasScrolled ==> p.volume == DefaultVolume) &&
    // a missing audio element is never asked anything
    (!p.audioPresent ==> p.log == []) &&
    // only the activation removes the first-scroll listener
    (!p.hasScrolled ==> p.scrollListening)
  }

  // ---- The first-scroll handler ------------------------------------------

  /** Once the page has scrolled, a scroll event changes nothing at all. */
  lemma ScrollAfterActivationIsInert(p: Page)
    requires p.hasScrolled
    ensures OnScroll(p) == p
  {
  }

  /** Activation: volume 0.25, one play request, `isPlaying` set whatever it was before. */
  lemma ActivationEffect(p: Page)
    requires !p.hasScrolled && p.audioPresent && p.scrollListening
    ensures OnScroll(p).hasScrolled && OnScroll(p).isPlaying
    ensures OnScroll(p).volume == ActivationVolume
    ensures OnScroll(p).log == p.log + [Play]
    ensures !OnScroll(p).scrollListening
  {
  }

  /** Without an audio element the handler leaves everything alone, `hasScrolled` included. */
  lemma ScrollWithoutAudioIsInert(p: Page)
    requires !p.audioPresent
    ensures OnScroll(p) == p
  {
  }

  lemma ScrollIsIdempotent(p: Page)
    ensures OnScroll(OnScroll(p)) == OnScroll(p)
  {
  }

  /** Every step keeps `hasScrolled` once it is set, and no step adds or removes the audio element. */
  lemma StepKeepsActivation(p: Page, e: Event)
    ensures p.hasScrolled ==> Step(p, e).hasScrolled
    ensures Step(p, e).audioPresent == p.audioPresent
  {
  }

  /**
   * Along any run, including runs where resizes register the handler again,
   * the first-scroll handler requests playback at most once, and not at all
   * once the page has scrolled.
   */
  lemma {:induction false} ScrollPlaysAtMostOnce(p: Page, es: seq<Event>)
    ensures ScrollPlays(p, es) <= (if p.hasScrolled then 0 else 1)
    decreases |es|
  {
    if es != [] {
      var q := Step(p, es[0]);
      StepKeepsActivation(p, es[0]);
      ScrollPlaysAtMostOnce(q, es[1..]);
      if es[0] == Scroll && Activates(p) {
        assert q.hasScrolled;
      }
    }
  }

  /**
   * From any consistent state with an audio element that has not scrolled
   * yet, any run that contains a scroll event requests playback from the
   * handler exactly once, and ends with the page marked as scrolled.
   */
  lemma {:induction false} FirstScrollFiresExactlyOnce(p: Page, es: seq<Event>)
    requires Consistent(p) && p.audioPresent && !p.hasScrolled
    requires Scroll in es
    ensures ScrollPlays(p, es) == 1
    ensures Run(p, es).hasScrolled
    decreases |es|
  {
    var q := Step(p, es[0]);
    StepKeepsActivation(p, es[0]);
    StepPreservesConsistency(p, es[0]);
    if es[0] == Scroll {
      ScrollPlaysAtMostOnce(q, es[1..]);
      HasScrolledPersists(q, es[1..]);
    } else {
      assert Scroll in es[1..];
      FirstScrollFiresExactlyOnce(q, es[1..]);
    }
  }

  lemma {:induction false} HasScrolledPersists(p: Page, es: seq<Event>)
    requires p.hasScrolled
    ensures Run(p, es).hasScrolled
    decreases |es|
  {
    if es != [] {
      StepKeepsActivation(p, es[0]);
      HasScrolledPersists(Step(p, es[0]), es[1..]);
    }
  }

  /** With no audio element, no run changes anything but the viewport class and the listener. */
  lemma {:induction false} RunWithoutAudioIsInert(p: Page, es: seq<Event>)
    requires !p.audioPresent
    ensures Run(p, es).(isMobile := p.isMobile, scrollListening := p.scrollListening) == p
    decreases |es|
  {
    if es != [] {
      var q := Step(p, es[0]);
      assert q.(isMobile := p.isMobile, scrollListening := p.scrollListening) == p;
      RunWithoutAudioIsInert(q, es[1..]);
    }
  }

  // ---- The toggle ----------------------------------------------------------

  /** Toggling twice restores `isPlaying` and everything else except the log, which gains the two requests. */
  lemma ToggleTwiceRestores(p: Page)
    requires p.audioPresent
    ensures OnToggle(OnToggle(p)).isPlaying == p.isPlaying
    ensures OnToggle(OnToggle(p)) == p.(log := p.log + (if p.isPlaying then [Pause, Play] else [Play, Pause]))
  {
  }

  /** A pause is requested exactly when the page believed it was playing. */
  lemma ToggleRequest(p: Page)
    requires p.audioPresent
    ensures |OnToggle(p).log| == |p.log| + 1
    ensures OnToggle(p).log[|p.log|] == Pause <==> p.isPlaying
    ensures OnToggle(p).isPlaying == !p.isPlaying
  {
  }

  lemma ToggleWithoutAudioIsInert(p: Page)
    requires !p.audioPresent
    ensures OnToggle(p) == p
  {
  }

  /**
   * The first-scroll handler does not consult `isPlaying`: a user who
   * started and then paused the music before scrolling has the music
   * requested again by the first scroll.
   */
  lemma ScrollOverridesEarlierPause()
    ensures Run(Initial(true), [Toggle, Toggle]).isPlaying == false
    ensures Run(Initial(true), [Toggle, Toggle, Scroll]).isPlaying
    ensures Run(Initial(true), [Toggle, Toggle, Scroll]).log == [Play, Pause, Play]
  {
  }

  // ---- The invariant ----------------------------------------------------

  lemma InitialIsConsistent(audioPresent: bool)
    ensures Consistent(Initial(audioPresent))
  {
  }

  lemma StepPreservesConsistency(p: Page, e: Event)
    requires Consistent(p)
    ensures Consistent(Step(p, e))
  {
  }

  /** Every state reachable from the first render is consistent; in particular `isPlaying` mirrors the latest request. */
  lemma {:induction false} RunPreservesConsistency(p: Page, es: seq<Event>)
    requires Consistent(p)
    ensures Consistent(Run(p, es))
    ensures Run(p, es).isPlaying <==> LastRequestIsPlay(Run(p, es))
    decreases |es|
  {
    if es != [] {
      StepPreservesConsistency(p, es[0]);
      RunPreservesConsistency(Step(p, es[0]), es[1..]);
    }
  }

  // ---- The component as an object ------------------------------------------

  /** The component instance: its refs and state variables, updated in place by the event handlers. */
  class PageController {
    var hasScrolled: bool
    var isPlaying: bool
    var isMobile: bool
    var scrollListening: bool
    var audioPresent: bool
    var volume: real
    var log: seq<Command>

    function Snapshot(): Page
      reads this
    {
      Page(hasScrolled, isPlaying, isMobile, scrollListening, audioPresent, volume, log)
    }

    predicate Valid()
      reads this
    {
      Consistent(Snapshot())
    }

    /** The first render: nothing scrolled, not playing, desktop layout, scroll listener registered on mount. */
    constructor (audio: bool)
      ensures Snapshot() == Initial(audio)
      ensures Valid()
    {
      hasScrolled, isPlaying, isMobile, scrollListening := false, false, false, true;
      audioPresent, volume, log := audio, DefaultVolume, [];
    }

    /** The derived `maxScale` of the current render. */
    function MaxScale(): (r: real)
      reads this
      ensures isMobile ==> r <= 4.0
      ensures !isMobile ==> r <= 8.0
    {
      RoseLayout.MaxScale(|RoseLayout.Gallery|, isMobile)
    }

    method CheckMobile(width: int)
      requires Valid()
      modifies this
      ensures Valid()
      ensures Snapshot() == Step(old(Snapshot()), Resize(width))
      ensures isMobile == (width < RoseLayout.MobileBreakpoint)
      ensures scrollListening == (old(scrollListening) || MaxScale() != old(MaxScale()))
      ensures hasScrolled == old(hasScrolled) && isPlaying == old(isPlaying)
      ensures volume == old(volume) && log == old(log) && audioPresent == old(audioPresent)
    {
      var before := MaxScale();
      isMobile := RoseLayout.IsMobile(width);
      if MaxScale() != before {
        // the mount effect runs again: old listener removed, new one added
        scrollListening := true;
      }
      StepPreservesConsistency(old(Snapshot()), Resize(width));
    }

    method HandleFirstScroll()
      requires Valid()
      modifies this
      ensures Valid()
      ensures Snapshot() == Step(old(Snapshot()), Scroll)
      ensures old(Activates(Snapshot())) ==>
                hasScrolled && isPlaying && !scrollListening &&
                volume == ActivationVolume && log == old(log) + [Play]
      ensures !old(Activates(Snapshot())) ==> Snapshot() == old(Snapshot())
      ensures isMobile == old(isMobile) && audioPresent == old(audioPresent)
    {
      if scrollListening && !hasScrolled && audioPresent {
        hasScrolled := true;
        volume := ActivationVolume;
        log := log + [Play];
        isPlaying := true;
        scrollListening := false;
      }
      StepPreservesConsistency(old(Snapshot()), Scroll);
    }

    method ToggleMusic()
      requires Valid()
      modifies this
      ensures Valid()
      ensures Snapshot() == Step(old(Snapshot()), Toggle)
      ensures old(audioPresent) ==>
                log == old(log) + [if old(isPlaying) then Pause else Play] &&
                isPlaying == !old(isPlaying)
      ensures !old(audioPresent) ==> Snapshot() == old(Snapshot())
      ensures hasScrolled == old(hasScrolled) && volume == old(volume)
      ensures isMobile == old(isMobile) && scrollListening == old(scrollListening)
    {
      if audioPresent {
        if isPlaying {
          log := log + [Pause];
        } else {
          log := log + [Play];
        }
        isPlaying := !isPlaying;
      }
      StepPreservesConsistency(old(Snapshot()), Toggle);
    }
  }

  /** Mounting the component: the first render, then the effect's own `checkMobile` call. */
  method Mount(audio: bool, width: int) returns (c: PageController)
    ensures fresh(c) && c.Valid()
    ensures c.Snapshot() == Step(Initial(audio), Resize(width))
    ensures c.scrollListening && !c.hasScrolled && !c.isPlaying
  {
    c := new PageController(audio);
    c.CheckMobile(width);
  }
}
