/** The brand wordmark coordinator of the application shell (App.tsx:35-45,
    124-157): the scroll progress of the first viewport, the docked flag, and the
    wordmark's colour, shadow and transform derived from it. Progress is an exact
    `real` here where the browser computes a double. */
module Logo {
  import opened Router

  /** `Math.min` on reals. */
  function MinReal(a: real, b: real): (m: real)
    ensures m <= a && m <= b && (m == a || m == b)
  {
    if a <= b then a else b
  }

  /** Multiplying by a positive factor keeps the sign. */
  lemma PositiveFactorKeepsSign(x: real, factor: real)
    requires factor > 0.0
    ensures x * factor >= 0.0 <==> x >= 0.0
    ensures x * factor > 0.0 <==> x > 0.0
  {
    if x > 0.0 {
      assert x * factor > 0.0;
    } else if x < 0.0 {
      assert (-x) * factor > 0.0;
    }
  }

  /** `handleScroll` (App.tsx:39): scroll position over 40% of the viewport height,
      clamped above at 1 only; a negative (overscrolled) position gives a negative
      progress. */
  function ScrollProgress(scrollY: real, innerHeight: real): (p: real)
    requires innerHeight > 0.0
    ensures p <= 1.0
    ensures p == 1.0 <==> scrollY >= 0.4 * innerHeight
    ensures p < 0.0 <==> scrollY < 0.0
    ensures p * (0.4 * innerHeight) == if scrollY >= 0.4 * innerHeight then 0.4 * innerHeight else scrollY
  {
    var band := innerHeight * 0.4;
    var ratio := scrollY / band;
    assert ratio * band == scrollY;
    assert (ratio - 1.0) * band == scrollY - band;
    PositiveFactorKeepsSign(ratio - 1.0, band);
    PositiveFactorKeepsSign(ratio, band);
    MinReal(ratio, 1.0)
  }

  /** Progress never decreases as the page scrolls further down. */
  lemma ProgressMonotone(y1: real, y2: real, innerHeight: real)
    requires innerHeight > 0.0 && y1 <= y2
    ensures ScrollProgress(y1, innerHeight) <= ScrollProgress(y2, innerHeight)
  {
    var band := innerHeight * 0.4;
    var p1, p2 := ScrollProgress(y1, innerHeight), ScrollProgress(y2, innerHeight);
    if p2 < 1.0 {
      assert p1 * band <= y1 && p2 * band == y2;
      assert (p1 - p2) * band == p1 * band - p2 * band;
      PositiveFactorKeepsSign(p1 - p2, band);
    }
  }

  /** At the top of the page the progress is 0, whatever the viewport height:
      this is what the scroll listener records after a scroll to the top. */
  lemma ProgressAtTop(innerHeight: real)
    requires innerHeight > 0.0
    ensures ScrollProgress(0.0, innerHeight) == 0.0
  {
    var p := ScrollProgress(0.0, innerHeight);
    PositiveFactorKeepsSign(p, 0.4 * innerHeight);
  }

  /** `isDocked` (App.tsx:125). */
  predicate IsDocked(progress: real, view: View)
  {
    progress == 1.0 || view != Home
  }

  datatype Colour = White | Black

  /** The wordmark colour (App.tsx:150). */
  function LogoColour(view: View, progress: real): Colour
  {
    if view == Home && progress < 0.15 then White else Black
  }

  datatype Shadow = DropShadow | NoShadow

  /** The wordmark text shadow: `0 4px 30px rgba(0,0,0,0.5)` or `none` (App.tsx:152). */
  function TextShadow(view: View, progress: real): Shadow
  {
    if view == Home && progress < 0.5 then DropShadow else NoShadow
  }

  /** A wordmark transform `translateY(calc(offsetVh vh + offsetRem rem)) scale(scale)`. */
  datatype Transform = Transform(offsetVh: real, offsetRem: real, scale: real)

  /** The docked preset: `translateY(calc(-50vh + 2.2rem)) scale(0.12)` (App.tsx:146). */
  const DockedTransform := Transform(-50.0, 2.2, 0.12)

  /** The wordmark transform (App.tsx:145-147): the docked preset, or a linear
      interpolation in the progress while undocked. */
  function LogoTransform(docked: bool, progress: real): Transform
  {
    if docked then DockedTransform
    else Transform(-(progress * 50.0), progress * 2.2, 1.0 - progress * 0.88)
  }

  /** On the home page the wordmark docks exactly when the page has been scrolled
      through the first 40% of the viewport; on every other view it is docked. */
  lemma DockedIffScrolledPastBand(scrollY: real, innerHeight: real, view: View)
    requires innerHeight > 0.0
    ensures IsDocked(ScrollProgress(scrollY, innerHeight), view) <==>
      view != Home || scrollY >= 0.4 * innerHeight
  {
  }

  /** White implies the shadow is shown and the wordmark is not docked, and the
      shadow in turn is shown only on an undocked wordmark. */
  lemma WhiteImpliesShadowAndUndocked(view: View, progress: real)
    ensures LogoColour(view, progress) == White ==> TextShadow(view, progress) == DropShadow
    ensures TextShadow(view, progress) == DropShadow ==> !IsDocked(progress, view)
  {
  }

  /** The undocked interpolation reaches the docked preset at progress 1, so
      docking does not make the wordmark jump. */
  lemma DockingIsContinuous()
    ensures LogoTransform(false, 1.0) == DockedTransform
  {
  }

  /** While the home page scrolls through its first band, the undocked scale
      shrinks strictly from 1 towards the docked 0.12 and stays between them. */
  lemma UndockedScaleShrinks(p1: real, p2: real)
    requires 0.0 <= p1 < p2 <= 1.0
    ensures LogoTransform(false, p1).scale > LogoTransform(false, p2).scale
    ensures DockedTransform.scale <= LogoTransform(false, p2).scale <= 1.0
  {
  }
}
