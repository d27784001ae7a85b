/** The reveal-on-scroll animation of script.js: every `.content-box` starts
    transparent and shifted to one side, and an IntersectionObserver (visible
    fraction threshold 0.2) moves it to its resting style once it comes into
    view. Elements are modelled as an array of their inline styles; the
    observer reports an element by its index in that array. */
module Reveal {

  /** The three inline style properties the script writes. */
  datatype Style = Style(opacity: string, transform: string, transition: string)

  /** One IntersectionObserver entry: which element, and whether it now
      intersects the viewport. */
  datatype Entry = Entry(target: nat, isIntersecting: bool)

  const Transparent: string := "0"
  const Opaque: string := "1"
  const SlideFromLeft: string := "translateX(-50px) rotate(-2deg)"
  const SlideFromRight: string := "translateX(50px) rotate(2deg)"
  const RestingTransform: string := "translate(0, 0) scale(1) rotate(0deg)"
  const Ease: string := "all 0.8s cubic-bezier(0.175, 0.885, 0.32, 1.275)"

  /** The element has reached its resting style. */
  predicate IsResting(s: Style)
  {
    s.opacity == Opaque && s.transform == RestingTransform
  }

  /** The style an element is given at setup, chosen by its index. */
  function InitialStyle(index: nat): (s: Style)
    ensures s.opacity == Transparent && s.transition == Ease
    ensures s.transform == SlideFromLeft <==> index % 2 == 0
    ensures s.transform == SlideFromRight <==> index % 2 == 1
    ensures !IsResting(s)
  {
    Style(Transparent, if index % 2 == 0 then SlideFromLeft else SlideFromRight, Ease)
  }

  /** Neighbouring elements slide in from opposite sides, and the pattern
      repeats every two elements. */
  lemma InitialStylesAlternate(index: nat)
    ensures InitialStyle(index).transform != InitialStyle(index + 1).transform
    ensures InitialStyle(index + 2) == InitialStyle(index)
  {
  }

  /** The observer callback's effect on one entry's target. */
  function OnEntry(s: Style, isIntersecting: bool): (r: Style)
    ensures r.transition == s.transition
    ensures isIntersecting ==> IsResting(r)
    ensures !isIntersecting ==> r == s
  {
    if isIntersecting then s.(opacity := Opaque, transform := RestingTransform) else s
  }

  /** Applying the update a second time changes nothing. */
  lemma OnEntryIdempotent(s: Style, isIntersecting: bool)
    ensures OnEntry(OnEntry(s, isIntersecting), isIntersecting) == OnEntry(s, isIntersecting)
  {
  }

  /** A revealed element is never hidden again, whatever the observer reports. */
  lemma RestingIsFinal(s: Style, isIntersecting: bool)
    requires IsResting(s)
    ensures OnEntry(s, isIntersecting) == s
  {
  }

  predicate TargetsIn(entries: seq<Entry>, n: nat)
  {
    forall k :: 0 <= k < |entries| ==> entries[k].target < n
  }

  /** Some entry reports element `i` as intersecting. */
  predicate SeenIntersecting(entries: seq<Entry>, i: nat)
  {
    exists k :: 0 <= k < |entries| && entries[k].target == i && entries[k].isIntersecting
  }

  /** The styles after the callback has handled `entries` in order. */
  function Notified(styles: seq<Style>, entries: seq<Entry>): (r: seq<Style>)
    requires TargetsIn(entries, |styles|)
    ensures |r| == |styles|
    decreases |entries|
  {
    if entries == [] then styles
    else
      var prior := Notified(styles, entries[..|entries| - 1]);
      var e := entries[|entries| - 1];
      prior[e.target := OnEntry(prior[e.target], e.isIntersecting)]
  }

  /** What the callback does to each element: an element reported as
      intersecting by some entry is at its resting style with its transition
      kept; every other element is exactly as it was. */
  lemma {:induction false} NotifiedAt(styles: seq<Style>, entries: seq<Entry>, i: nat)
    requires TargetsIn(entries, |styles|)
    requires i < |styles|
    ensures Notified(styles, entries)[i]
            == if SeenIntersecting(entries, i) then OnEntry(styles[i], true) else styles[i]
  {
    if entries != [] {
      var init := entries[..|entries| - 1];
      var e := entries[|entries| - 1];
      NotifiedAt(styles, init, i);
      NotifiedAt(styles, init, e.target);
      if SeenIntersecting(init, i) {
        var k :| 0 <= k < |init| && init[k].target == i && init[k].isIntersecting;
        assert entries[k] == init[k];
      }
      if SeenIntersecting(entries, i) && !(e.target == i && e.isIntersecting) {
        var k :| 0 <= k < |entries| && entries[k].target == i && entries[k].isIntersecting;
        assert k < |init| && init[k] == entries[k];
      }
    }
  }

  /** Replaying the same notifications a second time changes nothing. */
  lemma NotifiedIdempotent(styles: seq<Style>, entries: seq<Entry>)
    requires TargetsIn(entries, |styles|)
    ensures Notified(Notified(styles, entries), entries) == Notified(styles, entries)
  {
    var once := Notified(styles, entries);
    forall i | 0 <= i < |styles|
      ensures Notified(once, entries)[i] == once[i]
    {
      NotifiedAt(styles, entries, i);
      NotifiedAt(once, entries, i);
    }
  }

  /** The styles of `n` elements right after setup. */
  function InitialStyles(n: nat): (r: seq<Style>)
    ensures |r| == n
    ensures forall i :: 0 <= i < n ==> r[i] == InitialStyle(i) && !IsResting(r[i])
  {
    seq(n, i requires 0 <= i => InitialStyle(i))
  }

  /** After setup and any sequence of notifications, an element is revealed
      exactly when some entry reported it as intersecting; one never reported
      keeps its initial transparent, offset style. */
  lemma RevealedIffSeen(n: nat, entries: seq<Entry>, i: nat)
    requires TargetsIn(entries, n)
    requires i < n
    ensures IsResting(Notified(InitialStyles(n), entries)[i]) <==> SeenIntersecting(entries, i)
    ensures !SeenIntersecting(entries, i) ==> Notified(InitialStyles(n), entries)[i] == InitialStyle(i)
  {
    NotifiedAt(InitialStyles(n), entries, i);
  }

  /** The setup loop: each element gets its index-chosen initial style. */
  method Prepare(elements: array<Style>)
    modifies elements
    ensures forall i :: 0 <= i < elements.Length ==> elements[i] == InitialStyle(i)
    ensures elements[..] == InitialStyles(elements.Length)
  {
    for i := 0 to elements.Length
      invariant forall j :: 0 <= j < i ==> elements[j] == InitialStyle(j)
    {
      elements[i] := InitialStyle(i);
    }
    assert elements[..] == InitialStyles(elements.Length);
  }

  /** The observer callback: the entries are handled in order, each one
      updating its target in place. */
  method Observe(elements: array<Style>, entries: seq<Entry>)
    requires TargetsIn(entries, elements.Length)
    modifies elements
    ensures elements[..] == Notified(old(elements[..]), entries)
  {
    ghost var before := elements[..];
    for k := 0 to |entries|
      invariant TargetsIn(entries[..k], |before|)
      invariant elements[..] == Notified(before, entries[..k])
    {
      var e := entries[k];
      elements[e.target] := OnEntry(elements[e.target], e.isIntersecting);
      assert entries[..k + 1][..k] == entries[..k];
    }
    assert entries[..|entries|] == entries;
  }

  /** Setup followed by one observer callback: each box is revealed exactly
      when the callback reported it as intersecting, and a box not reported
      keeps its initial style. */
  method SetUpAndObserve(elements: array<Style>, entries: seq<Entry>)
    requires TargetsIn(entries, elements.Length)
    modifies elements
    ensures forall i :: 0 <= i < elements.Length ==>
              (IsResting(elements[i]) <==> SeenIntersecting(entries, i))
    ensures forall i :: 0 <= i < elements.Length && !SeenIntersecting(entries, i) ==>
              elements[i] == InitialStyle(i)
  {
    Prepare(elements);
    Observe(elements, entries);
    forall i | 0 <= i < elements.Length
      ensures IsResting(elements[i]) <==> SeenIntersecting(entries, i)
      ensures !SeenIntersecting(entries, i) ==> elements[i] == InitialStyle(i)
    {
      RevealedIffSeen(elements.Length, entries, i);
    }
  }
}
