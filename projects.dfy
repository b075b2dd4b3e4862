/**
 * The project accordion: each `.project-card` is expanded or collapsed, and
 * its header's `aria-expanded` and its details' `aria-hidden` attributes
 * are meant to mirror that. Opening one card closes every other.
 */
module Projects {
  import opened Keys

  /** One card: the `expanded` class and the two ARIA attributes (as booleans). */
  datatype Card = Card(expanded: bool, ariaExpanded: bool, ariaHidden: bool)

  /** The ARIA attributes agree with the `expanded` class. */
  predicate Mirrored(c: Card) {
    c.ariaExpanded == c.expanded && c.ariaHidden == !c.expanded
  }

  predicate AllMirrored(cs: seq<Card>) {
    forall i :: 0 <= i < |cs| ==> Mirrored(cs[i])
  }

  predicate NoneExpanded(cs: seq<Card>) {
    forall i :: 0 <= i < |cs| ==> !cs[i].expanded
  }

  predicate AtMostOneExpanded(cs: seq<Card>) {
    forall i, j :: 0 <= i < |cs| && 0 <= j < |cs| && cs[i].expanded && cs[j].expanded ==> i == j
  }

  /**
   * What `closeAllProjects` does to one card: an expanded card loses the
   * class and gets `aria-expanded="false"`, `aria-hidden="true"`; a card
   * that is not expanded is not selected and is left alone.
   */
  function Collapse(c: Card): Card {
    if c.expanded then Card(false, false, true) else c
  }

  /** What `expandProject` does to a card. */
  function Expand(c: Card): Card {
    c.(expanded := true, ariaExpanded := true, ariaHidden := false)
  }

  /** `closeAllProjects` on the whole collection. */
  function CollapseAll(cs: seq<Card>): (r: seq<Card>)
    ensures |r| == |cs|
  {
    if cs == [] then [] else [Collapse(cs[0])] + CollapseAll(cs[1..])
  }

  /** `toggleProject` on card `k`: close everything, then expand `k` unless it was the expanded one. */
  function Toggle(cs: seq<Card>, k: nat): seq<Card>
    requires k < |cs|
  {
    var closed := CollapseAll(cs);
    if cs[k].expanded then closed else closed[k := Expand(closed[k])]
  }

  /** `CollapseAll` collapses each card in place and keeps the number of cards. */
  lemma {:induction false} CollapseAllAt(cs: seq<Card>)
    ensures forall i :: 0 <= i < |cs| ==> CollapseAll(cs)[i] == Collapse(cs[i])
  {
    if cs != [] {
      CollapseAllAt(cs[1..]);
    }
  }

  /** After `closeAllProjects` no card is expanded, and doing it again changes nothing. */
  lemma CollapseAllClosesEverything(cs: seq<Card>)
    ensures NoneExpanded(CollapseAll(cs))
    ensures CollapseAll(CollapseAll(cs)) == CollapseAll(cs)
  {
    CollapseAllAt(cs);
    CollapseAllAt(CollapseAll(cs));
  }

  /**
   * `closeAllProjects` keeps the ARIA attributes mirrored; a card it
   * touches ends mirrored even if it was not before.
   */
  lemma CollapseAllKeepsMirror(cs: seq<Card>)
    ensures forall i :: 0 <= i < |cs| && (cs[i].expanded || Mirrored(cs[i])) ==> Mirrored(CollapseAll(cs)[i])
    ensures AllMirrored(cs) ==> AllMirrored(CollapseAll(cs))
  {
    CollapseAllAt(cs);
  }

  /** Toggling the expanded card leaves every card collapsed. */
  lemma ToggleExpandedCloses(cs: seq<Card>, k: nat)
    requires k < |cs| && cs[k].expanded
    ensures NoneExpanded(Toggle(cs, k))
  {
    CollapseAllClosesEverything(cs);
  }

  /** Toggling a collapsed card makes it the one and only expanded card. */
  lemma ToggleCollapsedOpensOnlyIt(cs: seq<Card>, k: nat)
    requires k < |cs| && !cs[k].expanded
    ensures forall i :: 0 <= i < |cs| ==> (Toggle(cs, k)[i].expanded <==> i == k)
  {
    CollapseAllClosesEverything(cs);
  }

  /** Whatever the state before, after a toggle at most one card is expanded. */
  lemma ToggleAtMostOne(cs: seq<Card>, k: nat)
    requires k < |cs|
    ensures AtMostOneExpanded(Toggle(cs, k))
  {
    if cs[k].expanded {
      ToggleExpandedCloses(cs, k);
    } else {
      ToggleCollapsedOpensOnlyIt(cs, k);
    }
  }

  /** A toggle keeps the ARIA attributes mirrored. */
  lemma ToggleKeepsMirror(cs: seq<Card>, k: nat)
    requires k < |cs| && AllMirrored(cs)
    ensures AllMirrored(Toggle(cs, k))
  {
    CollapseAllKeepsMirror(cs);
  }

  /**
   * Toggling the same card twice brings that card back to whether it was
   * expanded before, with every other card collapsed.
   */
  lemma ToggleTwice(cs: seq<Card>, k: nat)
    requires k < |cs|
    ensures forall i :: 0 <= i < |cs| ==>
      (Toggle(Toggle(cs, k), k)[i].expanded <==> i == k && cs[k].expanded)
  {
    var once := Toggle(cs, k);
    if cs[k].expanded {
      ToggleExpandedCloses(cs, k);
      ToggleCollapsedOpensOnlyIt(once, k);
    } else {
      ToggleCollapsedOpensOnlyIt(cs, k);
      ToggleExpandedCloses(once, k);
    }
  }

  class Accordion {
    const cards: array<Card>

    constructor (initial: seq<Card>)
      ensures cards[..] == initial
      ensures fresh(cards)
    {
      cards := new Card[|initial|](i requires 0 <= i < |initial| => initial[i]);
    }

    /** `closeAllProjects`: collapses every expanded card, leaving the others untouched. */
    method CloseAllProjects()
      modifies cards
      ensures cards[..] == CollapseAll(old(cards[..]))
    {
      var i := 0;
      while i < cards.Length
        invariant 0 <= i <= cards.Length
        invariant forall j :: 0 <= j < i ==> cards[j] == Collapse(old(cards[j]))
        invariant forall j :: i <= j < cards.Length ==> cards[j] == old(cards[j])
      {
        if cards[i].expanded {
          cards[i] := Card(false, false, true);
        }
        i := i + 1;
      }
      CollapseAllAt(old(cards[..]));
    }

    /** `expandProject`: adds the class and sets the ARIA attributes to match. */
    method ExpandProject(k: nat)
      requires k < cards.Length
      modifies cards
      ensures cards[..] == old(cards[..])[k := Expand(old(cards[k]))]
    {
      cards[k] := Card(true, true, false);
    }

    /** `toggleProject` on the card whose header was activated. */
    method ToggleProject(k: nat)
      requires k < cards.Length
      modifies cards
      ensures cards[..] == Toggle(old(cards[..]), k)
      ensures AtMostOneExpanded(cards[..])
    {
      var wasExpanded := cards[k].expanded;
      CloseAllProjects();
      if !wasExpanded {
        ExpandProject(k);
      }
      ToggleAtMostOne(old(cards[..]), k);
    }

    /** `keydown` on the header of card `k`: Enter or Space toggles the card. */
    method HeaderKeyDown(k: nat, key: Key)
      requires k < cards.Length
      modifies cards
      ensures key == Enter || key == Space ==> cards[..] == Toggle(old(cards[..]), k)
      ensures key != Enter && key != Space ==> cards[..] == old(cards[..])
    {
      if key == Enter || key == Space {
        ToggleProject(k);
      }
    }

    /** Document `click`: a click outside every card closes them all. */
    method DocumentClick(insideCard: bool)
      modifies cards
      ensures !insideCard ==> cards[..] == CollapseAll(old(cards[..]))
      ensures insideCard ==> cards[..] == old(cards[..])
    {
      if !insideCard {
        CloseAllProjects();
      }
    }

    /** Document `keydown`: Escape closes every card. */
    method DocumentKeyDown(key: Key)
      modifies cards
      ensures key == Escape ==> cards[..] == CollapseAll(old(cards[..]))
      ensures key != Escape ==> cards[..] == old(cards[..])
    {
      if key == Escape {
        CloseAllProjects();
      }
    }
  }
}
