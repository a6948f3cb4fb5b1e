/** The navigation dots: one dot per registered section, the one whose id is
    the active section highlighted, a click scrolling to that section. `R` is
    the section's opaque position ref. */
module NavDots {
  import opened JsValues

  datatype Section<R> = Section(id: string, name: string, ref: R)

  /** One rendered dot: its React key, whether it is active, the ref its click
      hands to `handleScrollTo`, and its tooltip. */
  datatype Dot<R> = Dot(key: string, isActive: bool, target: R, tooltip: string)

  /** The spring targets and background colour of a dot. */
  datatype DotStyle = DotStyle(transform: string, opacity: real, backgroundColor: string)

  /** `activeSection === id`; an unset active section equals no id. */
  function IsActive(activeSection: Option<string>, id: string): (b: bool)
    ensures b <==> activeSection.Some? && activeSection.value == id
  {
    activeSection == Some(id)
  }

  /** `sections.map(...)` */
  function Dots<R>(activeSection: Option<string>, sections: seq<Section<R>>): (ds: seq<Dot<R>>)
    ensures |ds| == |sections|
    ensures forall k :: 0 <= k < |ds| ==>
              && ds[k].key == sections[k].id
              && (ds[k].isActive <==> activeSection == Some(sections[k].id))
              && ds[k].target == sections[k].ref
              && ds[k].tooltip == sections[k].name
  {
    if sections == [] then []
    else
      var s := sections[0];
      [Dot(s.id, IsActive(activeSection, s.id), s.ref, s.name)] + Dots(activeSection, sections[1..])
  }

  /** The click handler of the `k`-th rendered dot: `handleScrollTo(ref)`. */
  function Click<R>(activeSection: Option<string>, sections: seq<Section<R>>, k: nat): (target: R)
    requires k < |sections|
    ensures target == sections[k].ref
  {
    Dots(activeSection, sections)[k].target
  }

  /** `NavDotComponent`'s targets, a function of `isActive` alone. */
  function StyleOf(isActive: bool): (st: DotStyle)
    ensures isActive ==> st == DotStyle("scale(1.5)", 1.0, "#feca57")
    ensures !isActive ==> st == DotStyle("scale(1)", 0.7, "white")
  {
    if isActive then DotStyle("scale(1.5)", 1.0, "#feca57")
    else DotStyle("scale(1)", 0.7, "white")
  }

  predicate UniqueIds<R>(sections: seq<Section<R>>)
  {
    forall i, j :: 0 <= i < j < |sections| ==> sections[i].id != sections[j].id
  }

  /** Clicking the dot for section `k` scrolls to section `k`'s ref, whichever
      section is active, and with distinct refs to no other section's. */
  lemma ClickTargetsItsSection<R>(a: Option<string>, b: Option<string>, sections: seq<Section<R>>, k: nat, j: nat)
    requires k < |sections| && j < |sections|
    ensures Click(a, sections, k) == Click(b, sections, k)
    ensures sections[j].ref != sections[k].ref ==> Click(a, sections, k) != sections[j].ref
  {
  }

  /** A dot is active iff the active section is set and names that dot's
      section; some dot is active iff some section has the active id. */
  lemma SomeDotActiveIff<R>(activeSection: Option<string>, sections: seq<Section<R>>)
    ensures var ds := Dots(activeSection, sections);
            (exists k :: 0 <= k < |ds| && ds[k].isActive) <==>
            (activeSection.Some? && exists k :: 0 <= k < |sections| && sections[k].id == activeSection.value)
  {
  }

  /** With unique ids, at most one dot is active. */
  lemma AtMostOneActive<R>(activeSection: Option<string>, sections: seq<Section<R>>, i: nat, j: nat)
    requires UniqueIds(sections)
    requires i < |sections| && j < |sections|
    requires Dots(activeSection, sections)[i].isActive && Dots(activeSection, sections)[j].isActive
    ensures i == j
  {
  }

  /** Distinct section ids give distinct React keys. */
  lemma KeysAreUnique<R>(activeSection: Option<string>, sections: seq<Section<R>>)
    requires UniqueIds(sections)
    ensures var ds := Dots(activeSection, sections);
            forall i, j :: 0 <= i < j < |ds| ==> ds[i].key != ds[j].key
  {
  }

  /** The active and the inactive look differ in every target, so the
      rendered style tells the two states apart. */
  lemma StyleDistinguishesActive(a: bool, b: bool)
    ensures StyleOf(a) == StyleOf(b) <==> a == b
    ensures StyleOf(true).opacity > StyleOf(false).opacity
  {
  }
}
