/** The project-card reveal: the shared observer, the mobile slide-in
    directions with their per-card observers, and the one-shot callback that
    both observers run. */
module Cards {

  const Visible := "visible"
  const SlideInLeft := "slide-in-left"
  const SlideInRight := "slide-in-right"

  /** The widest viewport, in pixels, that counts as mobile. */
  const MobileMaxWidth := 991

  /** A `.project-card` element, seen through its class list. */
  class Card {
    var classes: set<string>

    constructor (classes: set<string>)
      ensures this.classes == classes
    {
      this.classes := classes;
    }
  }

  /** One notification of an intersection callback: which card, and whether
      it now crosses the threshold. */
  datatype Entry = Entry(target: Card, isIntersecting: bool)

  /** The cards a batch of entries is about. */
  function Targets(entries: seq<Entry>): set<Card> {
    set e | e in entries :: e.target
  }

  /** The cards a batch reports as intersecting. */
  function Reached(entries: seq<Entry>): set<Card> {
    set e | e in entries && e.isIntersecting :: e.target
  }

  /** Extending a batch by one entry adds that entry's card to the reached
      cards exactly when the entry is intersecting. */
  lemma {:induction false} ReachedSnoc(entries: seq<Entry>, e: Entry)
    ensures Reached(entries + [e]) == Reached(entries) + (if e.isIntersecting then {e.target} else {})
  {
    var both := entries + [e];
    forall c | c in Reached(both)
      ensures c in Reached(entries) + (if e.isIntersecting then {e.target} else {})
    {
      var x :| x in both && x.isIntersecting && x.target == c;
      var k :| 0 <= k < |both| && both[k] == x;
      if k < |entries| { assert entries[k] == x; }
    }
    forall c | c in Reached(entries) ensures c in Reached(both) {
      var x :| x in entries && x.isIntersecting && x.target == c;
      assert x in both;
    }
    if e.isIntersecting { assert e in both; }
  }

  /** An IntersectionObserver with threshold 0.3 running the reveal callback:
      `targets` is the set of cards it still observes. */
  class Observer {
    var targets: set<Card>

    constructor ()
      ensures targets == {}
    {
      targets := {};
    }

    /** `observer.observe(card)`. */
    method Observe(card: Card)
      modifies this
      ensures targets == old(targets) + {card}
    {
      targets := targets + {card};
    }

    /** `observer.unobserve(card)`. */
    method Unobserve(card: Card)
      modifies this
      ensures targets == old(targets) - {card}
    {
      targets := targets - {card};
    }

    /** The callback: every intersecting entry adds `visible` to its card and
        stops observing it; a non-intersecting entry changes nothing. */
    method OnEntries(entries: seq<Entry>)
      modifies this, Targets(entries)
      ensures targets == old(targets) - Reached(entries)
      ensures forall c | c in Targets(entries) ::
        c.classes == if c in Reached(entries) then old(c.classes) + {Visible} else old(c.classes)
    {
      for i := 0 to |entries|
        invariant targets == old(targets) - Reached(entries[..i])
        invariant forall c | c in Targets(entries) ::
          c.classes == if c in Reached(entries[..i]) then old(c.classes) + {Visible} else old(c.classes)
      {
        var entry := entries[i];
        assert entries[..i + 1] == entries[..i] + [entry];
        ReachedSnoc(entries[..i], entry);
        if entry.isIntersecting {
          assert entry in entries;
          entry.target.classes := entry.target.classes + {Visible};
          Unobserve(entry.target);
        }
      }
      assert entries[..|entries|] == entries;
    }
  }

  /** Whether a viewport of this width gets the mobile slide-in directions. */
  predicate IsMobile(width: int) {
    width <= MobileMaxWidth
  }

  /** The direction class chosen for the card at `index`: left for even
      positions, right for odd ones, and the empty string off mobile. */
  function Direction(isMobile: bool, index: nat): string {
    if isMobile then (if index % 2 == 0 then SlideInLeft else SlideInRight) else ""
  }

  /** The classes the mobile set-up adds to the card at `index`. */
  function DirectionClasses(width: int, index: nat): set<string> {
    if IsMobile(width) then {Direction(true, index)} else {}
  }

  /** On a viewport at most 991 pixels wide even positions slide in from the
      left and odd ones from the right; on a wider one no class is added, so
      the empty direction is never added to a card. */
  lemma DirectionByWidth(width: int, index: nat)
    ensures width <= 991 && index % 2 == 0 ==> DirectionClasses(width, index) == {SlideInLeft}
    ensures width <= 991 && index % 2 == 1 ==> DirectionClasses(width, index) == {SlideInRight}
    ensures width > 991 ==> DirectionClasses(width, index) == {}
    ensures "" !in DirectionClasses(width, index)
  {
  }

  /** On mobile, neighbouring cards slide in from opposite sides. */
  lemma NeighboursAlternate(width: int, index: nat)
    requires width <= 991
    ensures DirectionClasses(width, index) != DirectionClasses(width, index + 1)
  {
    assert SlideInLeft != SlideInRight by { assert SlideInLeft[9] != SlideInRight[9]; }
  }

  /** The shared observer of the page (the first `cards.forEach`): one
      observer watching every card. */
  method ObserveCards(cards: seq<Card>) returns (observer: Observer)
    ensures fresh(observer)
    ensures observer.targets == set c | c in cards
  {
    observer := new Observer();
    for i := 0 to |cards|
      invariant observer.targets == set c | c in cards[..i]
    {
      assert cards[..i + 1] == cards[..i] + [cards[i]];
      observer.Observe(cards[i]);
    }
    assert cards[..|cards|] == cards;
  }

  /** The mobile set-up (the `mobiCards.forEach`): on a mobile viewport each
      card gets its direction class, and every card gets an observer of its
      own that watches only it. The cards are distinct elements, as a query
      of the page returns them. */
  method SetUpMobileCards(cards: seq<Card>, width: int) returns (observers: seq<Observer>)
    requires forall i, j | 0 <= i < j < |cards| :: cards[i] != cards[j]
    modifies set c | c in cards
    ensures |observers| == |cards|
    ensures forall i | 0 <= i < |cards| :: cards[i].classes == old(cards[i].classes) + DirectionClasses(width, i)
    ensures forall i | 0 <= i < |observers| :: fresh(observers[i]) && observers[i].targets == {cards[i]}
    ensures forall i, j | 0 <= i < j < |observers| :: observers[i] != observers[j]
  {
    var isMobile := width <= MobileMaxWidth;
    observers := [];
    for i := 0 to |cards|
      invariant |observers| == i
      invariant forall k | 0 <= k < i :: cards[k].classes == old(cards[k].classes) + DirectionClasses(width, k)
      invariant forall k | i <= k < |cards| :: cards[k].classes == old(cards[k].classes)
      invariant forall k | 0 <= k < i :: fresh(observers[k]) && observers[k].targets == {cards[k]}
      invariant forall k, l | 0 <= k < l < i :: observers[k] != observers[l]
    {
      var card := cards[i];
      var direction := Direction(isMobile, i);
      if isMobile {
        card.classes := card.classes + {direction};
      }
      var mobileObserver := new Observer();
      mobileObserver.Observe(card);
      observers := observers + [mobileObserver];
    }
  }

  /** A card reported as intersecting to both of its observers ends up with
      `visible` once and is watched by neither, while every other card each
      observer watches stays watched: the second reveal is harmless. */
  method RevealTwice(card: Card, shared: Observer, own: Observer)
    modifies card, shared, own
    ensures card.classes == old(card.classes) + {Visible}
    ensures shared.targets == old(shared.targets) - {card}
    ensures own.targets == old(own.targets) - {card}
  {
    var entries := [Entry(card, true)];
    assert Targets(entries) == {card} && Reached(entries) == {card} by {
      assert entries[0] == Entry(card, true);
    }
    shared.OnEntries(entries);
    own.OnEntries(entries);
  }
}
