/** The scroll handler of script.js: on every scroll event the race car icon is
    placed along a fixed vertical band of the viewport, in proportion to how far
    the page has been scrolled. */
module ScrollProgress {

  /** Where the band starts, in vh. */
  const StartVh: real := 10.0
  /** How far the car travels along the band, in vh (so it ends at 90 vh). */
  const MoveRangeVh: real := 80.0

  /** The value written to the car's `top` style. When the page has no
      scrollable extent the division yields NaN or an infinity, which the
      browser refuses as a length: the car then stays where it was. */
  datatype CarTop = Vh(top: real) | NonFinite

  /** Scrollable extent: `scrollHeight - innerHeight`. */
  function DocHeight(scrollHeight: real, innerHeight: real): (d: real)
  {
    scrollHeight - innerHeight
  }

  /** The handler's formula: the scrolled fraction of the extent, scaled onto
      the band and offset by its start. */
  function CarPosition(scrollY: real, scrollHeight: real, innerHeight: real): (t: CarTop)
    ensures t.NonFinite? <==> DocHeight(scrollHeight, innerHeight) == 0.0
  {
    var docHeight := DocHeight(scrollHeight, innerHeight);
    if docHeight == 0.0 then NonFinite
    else Vh(StartVh + (scrollY / docHeight) * MoveRangeVh)
  }

  /** At the top of the page the car sits at the start of the band. */
  lemma CarAtStart(scrollHeight: real, innerHeight: real)
    requires DocHeight(scrollHeight, innerHeight) != 0.0
    ensures CarPosition(0.0, scrollHeight, innerHeight) == Vh(10.0)
  {
  }

  /** Scrolled all the way down, the car sits at the end of the band. */
  lemma CarAtEnd(scrollHeight: real, innerHeight: real)
    requires DocHeight(scrollHeight, innerHeight) != 0.0
    ensures CarPosition(DocHeight(scrollHeight, innerHeight), scrollHeight, innerHeight) == Vh(90.0)
  {
  }

  /** Half way down the page, the car is at the middle of the band. */
  lemma CarHalfway(scrollHeight: real, innerHeight: real)
    requires DocHeight(scrollHeight, innerHeight) != 0.0
    ensures CarPosition(DocHeight(scrollHeight, innerHeight) / 2.0, scrollHeight, innerHeight) == Vh(50.0)
  {
  }

  /** Scrolling further down never moves the car up. */
  lemma CarMonotone(y1: real, y2: real, scrollHeight: real, innerHeight: real)
    requires DocHeight(scrollHeight, innerHeight) > 0.0
    requires y1 <= y2
    ensures CarPosition(y1, scrollHeight, innerHeight).top <= CarPosition(y2, scrollHeight, innerHeight).top
  {
  }

  /** For any offset within the scrollable extent the car stays inside the
      band [10, 90] vh. */
  lemma CarWithinBand(scrollY: real, scrollHeight: real, innerHeight: real)
    requires DocHeight(scrollHeight, innerHeight) > 0.0
    requires 0.0 <= scrollY <= DocHeight(scrollHeight, innerHeight)
    ensures 10.0 <= CarPosition(scrollY, scrollHeight, innerHeight).top <= 90.0
  {
  }

  /** The position determines the scroll progress: reading the car's offset
      into the band back gives `scrollY / docHeight`. */
  lemma CarProgressRecovered(scrollY: real, scrollHeight: real, innerHeight: real)
    requires DocHeight(scrollHeight, innerHeight) != 0.0
    ensures (CarPosition(scrollY, scrollHeight, innerHeight).top - StartVh) / MoveRangeVh
            == scrollY / DocHeight(scrollHeight, innerHeight)
  {
  }
}
