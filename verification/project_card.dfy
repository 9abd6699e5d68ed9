/**
 * `Project3DCard` (components/portfolio/project-3d-card.tsx): a flip card whose
 * front lists the first four technologies and a "+N" badge for the rest, whose
 * back lists the first four features and an optional live link.
 */
module ProjectCard {
  import opened Common

  /** The fields of a project that the card's logic reads. */
  datatype Project = Project(title: string, technologies: seq<string>, features: seq<string>, link: Option<string>)

  /** How many items a preview lists. */
  const PreviewLimit: nat := 4

  /** `items.slice(0, 4)`. */
  function Preview(items: seq<string>): (shown: seq<string>)
    ensures |shown| == Min(PreviewLimit, |items|)
    ensures shown <= items
  {
    if |items| <= PreviewLimit then items else items[..PreviewLimit]
  }

  /** The "+N" badge: present iff more than four technologies, with N the number not listed. */
  function OverflowBadge(items: seq<string>): (badge: Option<nat>)
    ensures badge.Some? <==> |items| > PreviewLimit
    ensures badge.Some? ==> badge.value > 0
  {
    if |items| > PreviewLimit then Some(|items| - PreviewLimit) else None
  }

  /** Listed plus hidden is always the whole list: nothing is lost or counted twice. */
  lemma PreviewAccountsForAll(items: seq<string>)
    ensures |Preview(items)| + (if OverflowBadge(items).Some? then OverflowBadge(items).value else 0) == |items|
    ensures OverflowBadge(items).Some? ==> items == Preview(items) + items[PreviewLimit..]
  {
  }

  /** The technology preview on the front face. */
  function TechnologyPreview(p: Project): (shown: seq<string>)
    ensures shown <= p.technologies && |shown| == Min(PreviewLimit, |p.technologies|)
  {
    Preview(p.technologies)
  }

  /** The feature list on the back face. */
  function FeatureList(p: Project): (listed: seq<string>)
    ensures listed <= p.features && |listed| == Min(PreviewLimit, |p.features|)
  {
    Preview(p.features)
  }

  /** `project.link && <a …>`: rendered only for a present, non-empty link. */
  predicate LinkShown(p: Project) {
    p.link.Some? && p.link.value != ""
  }

  // ---------------------------------------------------------------------
  // Flip and hover state
  // ---------------------------------------------------------------------

  /** The pointer events the card reacts to. */
  datatype CardEvent = CardClick | LinkClick | MouseEnter | MouseLeave

  /** A click on the live link stops propagation, so only a card click flips. */
  predicate Flips(e: CardEvent) { e == CardClick }

  /** The flip decisions of a run of events. */
  function FlipsOf(events: seq<CardEvent>): (f: seq<bool>)
    ensures |f| == |events|
  {
    if events == [] then [] else FlipsOf(events[..|events| - 1]) + [Flips(events[|events| - 1])]
  }

  /** `isFlipped` after a run of events. */
  function FlippedAfter(flipped: bool, events: seq<CardEvent>): bool {
    FlipEach(flipped, FlipsOf(events))
  }

  /** One more event flips the card once more exactly when it is a card click. */
  lemma FlippedAfterStep(flipped: bool, events: seq<CardEvent>, e: CardEvent)
    ensures FlippedAfter(flipped, events + [e])
      == (if Flips(e) then !FlippedAfter(flipped, events) else FlippedAfter(flipped, events))
  {
    var all := events + [e];
    assert all[..|all| - 1] == events;
    assert FlipsOf(all) == FlipsOf(events) + [Flips(e)];
    assert FlipsOf(all)[..|all| - 1] == FlipsOf(events);
  }

  /** `isHovered` after a run of events: set by entering, cleared by leaving. */
  function HoveredAfter(hovered: bool, events: seq<CardEvent>): bool {
    if events == [] then hovered
    else
      var last := events[|events| - 1];
      if last == MouseEnter then true
      else if last == MouseLeave then false
      else HoveredAfter(hovered, events[..|events| - 1])
  }

  /** Clicks flip the card, two restore it, and link clicks never count. */
  lemma FlippedParity(flipped: bool, events: seq<CardEvent>)
    ensures FlippedAfter(flipped, events) == (if CountTrue(FlipsOf(events)) % 2 == 0 then flipped else !flipped)
  {
    FlipEachParity(flipped, FlipsOf(events));
  }

  /** The card is hovered exactly when the last enter/leave event was an enter (or, with none, as before). */
  lemma {:induction false} HoveredBetweenEnterAndLeave(hovered: bool, events: seq<CardEvent>)
    ensures (forall j :: 0 <= j < |events| ==> events[j] != MouseEnter && events[j] != MouseLeave)
      ==> HoveredAfter(hovered, events) == hovered
    ensures HoveredAfter(hovered, events) && (exists j :: 0 <= j < |events| && events[j] == MouseLeave)
      ==> exists k :: 0 <= k < |events| && events[k] == MouseEnter
            && forall j :: k < j < |events| ==> events[j] != MouseLeave
    ensures (exists k :: 0 <= k < |events| && events[k] == MouseEnter
              && forall j :: k < j < |events| ==> events[j] != MouseLeave)
      ==> HoveredAfter(hovered, events)
  {
    if events != [] {
      var n := |events|;
      var init := events[..n - 1];
      HoveredBetweenEnterAndLeave(hovered, init);
      forall j | 0 <= j < n - 1 ensures init[j] == events[j] { }
      if events[n - 1] != MouseEnter && events[n - 1] != MouseLeave {
        if exists k :: 0 <= k < n && events[k] == MouseEnter && forall j :: k < j < n ==> events[j] != MouseLeave {
          var k :| 0 <= k < n && events[k] == MouseEnter && forall j :: k < j < n ==> events[j] != MouseLeave;
          assert k < n - 1;
          assert init[k] == MouseEnter;
        }
        if HoveredAfter(hovered, events) && exists j :: 0 <= j < n && events[j] == MouseLeave {
          var j :| 0 <= j < n && events[j] == MouseLeave;
          assert init[j] == MouseLeave;
          var k :| 0 <= k < n - 1 && init[k] == MouseEnter && forall j :: k < j < n - 1 ==> init[j] != MouseLeave;
          assert events[k] == MouseEnter;
        }
      }
    }
  }

  /** The card's `isFlipped` and `isHovered` state. */
  class Card {
    var isFlipped: bool
    var isHovered: bool

    constructor ()
      ensures !isFlipped && !isHovered
    {
      isFlipped := false;
      isHovered := false;
    }

    /** One pointer event on the card. */
    method Handle(e: CardEvent)
      modifies this
      ensures isFlipped == (if Flips(e) then !old(isFlipped) else old(isFlipped))
      ensures isHovered == (if e == MouseEnter then true else if e == MouseLeave then false else old(isHovered))
    {
      match e
      case CardClick => isFlipped := !isFlipped;
      case LinkClick =>
      case MouseEnter => isHovered := true;
      case MouseLeave => isHovered := false;
    }

    /** A run of events, handled one at a time. */
    method HandleAll(events: seq<CardEvent>)
      modifies this
      ensures isFlipped == FlippedAfter(old(isFlipped), events)
      ensures isHovered == HoveredAfter(old(isHovered), events)
    {
      var i := 0;
      while i < |events|
        invariant 0 <= i <= |events|
        invariant isFlipped == FlippedAfter(old(isFlipped), events[..i])
        invariant isHovered == HoveredAfter(old(isHovered), events[..i])
      {
        assert events[..i + 1][..i] == events[..i];
        assert events[..i + 1] == events[..i] + [events[i]];
        FlippedAfterStep(old(isFlipped), events[..i], events[i]);
        Handle(events[i]);
        i := i + 1;
      }
      assert events[..i] == events;
    }
  }
}
