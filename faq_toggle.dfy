/**
 * The JackWeb FAQ accordion: a list of `.faq-toggle` buttons, each with its
 * `aria-expanded` attribute and, when present on the page, a content panel
 * (named by `aria-controls`), an enclosing `.faq-item` container and a
 * `.chevron` glyph. Clicking a button collapses every other button and flips
 * the clicked one, so at most one item is ever left open.
 */
module FaqToggle {
  import opened Wrappers

  const Up := "▲"
  const Down := "▼"

  /**
   * One button and what hangs off it. `hidden` is the panel's `hidden`
   * attribute, `isOpen` the container's `is-open` class, `chevron` the
   * chevron's text; each is meaningful only when its element is present.
   */
  datatype Item = Item(
    ariaExpanded: Option<string>,
    hasPanel: bool, hidden: bool,
    hasContainer: bool, isOpen: bool,
    hasChevron: bool, chevron: string)

  /** What a click reads: `aria-expanded` is exactly "true". */
  predicate IsExpanded(it: Item)
  {
    it.ariaExpanded == Some("true")
  }

  /** `String(expanded)` in JavaScript. */
  function BoolString(b: bool): string
  {
    if b then "true" else "false"
  }

  function ChevronFor(expanded: bool): string
  {
    if expanded then Up else Down
  }

  /** Every element present around the button shows the button's expanded state. */
  predicate Consistent(it: Item)
  {
    && (it.hasPanel ==> it.hidden == !IsExpanded(it))
    && (it.hasContainer ==> it.isOpen == IsExpanded(it))
    && (it.hasChevron ==> it.chevron == ChevronFor(IsExpanded(it)))
  }

  /** Same elements present; what absent elements carry is left as it was. */
  predicate SameShape(a: Item, b: Item)
  {
    && a.hasPanel == b.hasPanel && a.hasContainer == b.hasContainer && a.hasChevron == b.hasChevron
    && (!a.hasPanel ==> a.hidden == b.hidden)
    && (!a.hasContainer ==> a.isOpen == b.isOpen)
    && (!a.hasChevron ==> a.chevron == b.chevron)
  }

  /** The item after `setExpandedState(button, expanded)`. */
  function Applied(it: Item, expanded: bool): (r: Item)
    ensures r.ariaExpanded == Some(BoolString(expanded))
    ensures IsExpanded(r) == expanded
    ensures Consistent(r)
    ensures SameShape(r, it)
  {
    Item(Some(BoolString(expanded)),
         it.hasPanel, if it.hasPanel then !expanded else it.hidden,
         it.hasContainer, if it.hasContainer then expanded else it.isOpen,
         it.hasChevron, if it.hasChevron then ChevronFor(expanded) else it.chevron)
  }

  /** Applying the same state twice is the same as applying it once. */
  lemma AppliedIdempotent(it: Item, expanded: bool)
    ensures Applied(Applied(it, expanded), expanded) == Applied(it, expanded)
  {
  }

  /** A consistent item is fully determined by its shape and its expanded flag. */
  lemma AppliedOnConsistent(it: Item)
    requires Consistent(it) && it.ariaExpanded.Some? && it.ariaExpanded.value in {"true", "false"}
    ensures Applied(it, IsExpanded(it)) == it
  {
  }

  /** The items after a click on item `i`. */
  function ClickResult(s: seq<Item>, i: nat): (r: seq<Item>)
    requires i < |s|
    ensures |r| == |s|
    ensures IsExpanded(r[i]) == !IsExpanded(s[i])
    ensures r[i].ariaExpanded == Some(BoolString(!IsExpanded(s[i])))
    ensures forall k :: 0 <= k < |r| && k != i ==> r[k].ariaExpanded == Some("false")
    ensures forall k :: 0 <= k < |r| ==> Consistent(r[k]) && SameShape(r[k], s[k])
  {
    seq(|s|, k requires 0 <= k < |s| => if k == i then Applied(s[i], !IsExpanded(s[i])) else Applied(s[k], false))
  }

  /** How many items are expanded. */
  function ExpandedCount(s: seq<Item>): nat
  {
    if s == [] then 0 else (if IsExpanded(s[0]) then 1 else 0) + ExpandedCount(s[1..])
  }

  /** When every item but `i` is collapsed, the count is that of item `i` alone. */
  lemma {:induction false} CountWithOneCandidate(s: seq<Item>, i: nat)
    requires i < |s|
    requires forall k :: 0 <= k < |s| && k != i ==> !IsExpanded(s[k])
    ensures ExpandedCount(s) == if IsExpanded(s[i]) then 1 else 0
  {
    if i == 0 {
      CountNone(s[1..]);
    } else {
      CountWithOneCandidate(s[1..], i - 1);
    }
  }

  lemma {:induction false} CountNone(s: seq<Item>)
    requires forall k :: 0 <= k < |s| ==> !IsExpanded(s[k])
    ensures ExpandedCount(s) == 0
  {
    if s != [] {
      CountNone(s[1..]);
    }
  }

  /**
   * After any click, whatever the starting state, at most one item is open:
   * none when the clicked item was open, exactly the clicked one otherwise.
   */
  lemma AtMostOneExpanded(s: seq<Item>, i: nat)
    requires i < |s|
    ensures ExpandedCount(ClickResult(s, i)) == if IsExpanded(s[i]) then 0 else 1
    ensures ExpandedCount(ClickResult(s, i)) <= 1
  {
    CountWithOneCandidate(ClickResult(s, i), i);
  }

  /** A second click on the same item restores its state and leaves the others collapsed. */
  lemma ClickTwice(s: seq<Item>, i: nat)
    requires i < |s|
    ensures IsExpanded(ClickResult(ClickResult(s, i), i)[i]) == IsExpanded(s[i])
    ensures ExpandedCount(ClickResult(ClickResult(s, i), i)) == if IsExpanded(s[i]) then 1 else 0
  {
    AtMostOneExpanded(ClickResult(s, i), i);
  }

  /** The accordion: the `.faq-toggle` buttons of the page, in document order. */
  class Accordion {
    const items: array<Item>

    constructor (initial: seq<Item>)
      ensures items[..] == initial && fresh(items)
    {
      items := new Item[|initial|](k requires 0 <= k < |initial| => initial[k]);
    }

    /** `setExpandedState(button, expanded)` for the button at index `j`. */
    method SetExpandedState(j: nat, expanded: bool)
      requires j < items.Length
      modifies items
      ensures items[..] == old(items[..])[j := Applied(old(items[j]), expanded)]
    {
      var it := items[j];
      it := it.(ariaExpanded := Some(if expanded then "true" else "false"));
      if it.hasPanel {
        it := it.(hidden := !expanded);
      }
      if it.hasContainer {
        it := it.(isOpen := expanded);
      }
      if it.hasChevron {
        it := it.(chevron := if expanded then Up else Down);
      }
      items[j] := it;
    }

    /** The click listener of the button at index `i`. */
    method Click(i: nat)
      requires i < items.Length
      modifies items
      ensures items[..] == ClickResult(old(items[..]), i)
    {
      var isExpanded := items[i].ariaExpanded == Some("true");
      var j := 0;
      while j < items.Length
        invariant 0 <= j <= items.Length
        invariant forall k :: 0 <= k < j && k != i ==> items[k] == Applied(old(items[k]), false)
        invariant forall k :: 0 <= k < items.Length && (j <= k || k == i) ==> items[k] == old(items[k])
      {
        if j != i {
          SetExpandedState(j, false);
        }
        j := j + 1;
      }
      SetExpandedState(i, !isExpanded);
    }
  }
}
