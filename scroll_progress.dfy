/** `ScrollProgress`: the side indicator that highlights the page section being read.
    On every scroll event it scans the sections from last to first and takes the first one
    whose element exists and starts above the reading line (a third of the viewport below
    the top of the window); near the top of the page it always shows the hero.

    The document is given as `layout`, mapping each element id present in the page to its
    `offsetTop`; an id absent from it is an element `getElementById` does not find. */
module ScrollProgress {
  import opened Options

  /** The section ids, in page order. */
  const Sections: seq<string> := ["hero", "projects", "about", "contact"]

  /** Section `i` exists in the page and starts at or above the reading line `line`. */
  predicate Reached(layout: map<string, real>, line: real, i: nat)
    requires i < |Sections|
  {
    Sections[i] in layout && layout[Sections[i]] <= line
  }

  /** The last of the first `n` sections that is reached, if any. */
  function LastReached(layout: map<string, real>, line: real, n: nat): (r: Option<nat>)
    requires n <= |Sections|
    ensures r.Some? ==> r.value < n && Reached(layout, line, r.value)
    ensures r.Some? ==> forall j :: r.value < j < n ==> !Reached(layout, line, j)
    ensures r.None? ==> forall j :: 0 <= j < n ==> !Reached(layout, line, j)
  {
    if n == 0 then None
    else if Reached(layout, line, n - 1) then Some(n - 1)
    else LastReached(layout, line, n - 1)
  }

  /** The scan's result is determined by which sections are reached: it is the last one. */
  lemma LastReachedIs(layout: map<string, real>, line: real, i: nat)
    requires i < |Sections| && Reached(layout, line, i)
    requires forall j :: i < j < |Sections| ==> !Reached(layout, line, j)
    ensures LastReached(layout, line, |Sections|) == Some(i)
  {
    var r := LastReached(layout, line, |Sections|);
    assert r.Some?;
    assert r.value <= i;
  }

  /** The reading line: `scrollY + innerHeight / 3`. */
  function ReadingLine(scrollY: real, innerHeight: real): real
  {
    scrollY + innerHeight / 3.0
  }

  /** The section a scroll event leaves active, given the one active before it. */
  function Select(previous: string, scrollY: real, innerHeight: real, layout: map<string, real>): string
  {
    if scrollY < 100.0 then "hero"
    else match LastReached(layout, ReadingLine(scrollY, innerHeight), |Sections|)
      case Some(i) => Sections[i]
      case None => previous
  }

  /** Near the top of the page the hero is active, whatever the scan found. */
  lemma SelectAtTop(previous: string, scrollY: real, innerHeight: real, layout: map<string, real>)
    requires scrollY < 100.0
    ensures Select(previous, scrollY, innerHeight, layout) == "hero"
  {
  }

  /** Further down, the active section is the LAST section in page order whose element
      exists and starts at or above the reading line. */
  lemma SelectIsLastReached(previous: string, scrollY: real, innerHeight: real,
                            layout: map<string, real>, i: nat)
    requires scrollY >= 100.0 && i < |Sections|
    requires Reached(layout, ReadingLine(scrollY, innerHeight), i)
    requires forall j :: i < j < |Sections| ==> !Reached(layout, ReadingLine(scrollY, innerHeight), j)
    ensures Select(previous, scrollY, innerHeight, layout) == Sections[i]
  {
    LastReachedIs(layout, ReadingLine(scrollY, innerHeight), i);
  }

  /** Further down, when no section qualifies, the previous section stays active. */
  lemma SelectKeepsPrevious(previous: string, scrollY: real, innerHeight: real, layout: map<string, real>)
    requires scrollY >= 100.0
    requires forall j :: 0 <= j < |Sections| ==> !Reached(layout, ReadingLine(scrollY, innerHeight), j)
    ensures Select(previous, scrollY, innerHeight, layout) == previous
  {
  }

  /** A section whose element is missing is never chosen by the scan: it becomes active
      only as the top-of-page default or by already being active. */
  lemma MissingSectionSkipped(previous: string, scrollY: real, innerHeight: real,
                              layout: map<string, real>, i: nat)
    requires i < |Sections| && Sections[i] !in layout
    requires Select(previous, scrollY, innerHeight, layout) == Sections[i]
    ensures (scrollY < 100.0 && Sections[i] == "hero") || Sections[i] == previous
  {
  }

  /** The active section is always one of the four ids, provided the previous one was. */
  lemma SelectInSections(previous: string, scrollY: real, innerHeight: real, layout: map<string, real>)
    requires previous in Sections
    ensures Select(previous, scrollY, innerHeight, layout) in Sections
  {
  }

  class ScrollProgress {
    var activeSection: string

    ghost predicate Valid()
      reads this
    {
      activeSection in Sections
    }

    constructor ()
      ensures Valid() && activeSection == "hero"
    {
      activeSection := "hero";
    }

    /** `handleScroll`: the backward scan with `break`, then the top-of-page override. */
    method HandleScroll(scrollY: real, innerHeight: real, layout: map<string, real>)
      requires Valid()
      modifies this
      ensures Valid()
      ensures activeSection == Select(old(activeSection), scrollY, innerHeight, layout)
    {
      var scrollPosition := scrollY + innerHeight / 3.0;
      var i := |Sections| - 1;
      while i >= 0
        invariant -1 <= i < |Sections|
        invariant forall j :: i < j < |Sections| ==> !Reached(layout, scrollPosition, j)
        invariant activeSection == old(activeSection)
      {
        if Sections[i] in layout && layout[Sections[i]] <= scrollPosition {
          activeSection := Sections[i];
          LastReachedIs(layout, scrollPosition, i);
          break;
        }
        i := i - 1;
      }
      if scrollY < 100.0 {
        activeSection := "hero";
      }
    }
  }
}
