/**
 * `ExperienceSection` (components/portfolio/experience-section.tsx): a
 * timeline of jobs where one selected entry shows its detail card.
 */
module Experience {
  import opened Common

  /** The `type` of an entry. */
  datatype Kind = Current | Past | Freelance

  /** The parts of an entry that the section's logic reads. */
  datatype Entry = Entry(id: string, kind: Kind)

  /** The `experiences` table, in display order. */
  const Experiences: seq<Entry> := [
    Entry("clearline", Current),
    Entry("freelance", Freelance),
    Entry("starlabs", Past),
    Entry("pdfkgj-work", Past)
  ]

  /** The entries' ids, in display order. */
  function Ids(entries: seq<Entry>): (ids: seq<string>)
    ensures |ids| == |entries|
    ensures forall i :: 0 <= i < |entries| ==> ids[i] == entries[i].id
  {
    seq(|entries|, i requires 0 <= i < |entries| => entries[i].id)
  }

  /** The selection the section starts with. */
  const InitialExperience: string := "clearline"

  /** The ids are unique, and the initial selection is the first entry. */
  lemma ExperiencesWellFormed()
    ensures Unique(Ids(Experiences))
    ensures InitialExperience == Experiences[0].id
  {
    var ids := Ids(Experiences);
    assert ids == ["clearline", "freelance", "starlabs", "pdfkgj-work"];
  }

  /** The badge on a detail card. */
  function BadgeLabel(kind: Kind): (badge: string)
    ensures badge == "Active" <==> kind == Current
    ensures badge == "Freelance" <==> kind == Freelance
    ensures badge == "Completed" <==> kind == Past
  {
    match kind
    case Current => "Active"
    case Freelance => "Freelance"
    case Past => "Completed"
  }

  /** The CSS `display` of the detail card for `id`. */
  function CardDisplay(activeExperience: string, id: string): (display: string)
    ensures display == "block" <==> activeExperience == id
    ensures display == "none" <==> activeExperience != id
  {
    if activeExperience == id then "block" else "none"
  }

  /** The indicator bar is drawn on a timeline button iff it is the selected entry. */
  predicate IndicatorShown(activeExperience: string, id: string) {
    activeExperience == id
  }

  /** For each entry in order, whether its card is displayed. */
  function Displayed(activeExperience: string): (d: seq<bool>)
    ensures |d| == |Experiences|
    ensures forall i :: 0 <= i < |Experiences| ==>
      (d[i] <==> CardDisplay(activeExperience, Experiences[i].id) == "block")
      && (d[i] <==> IndicatorShown(activeExperience, Experiences[i].id))
  {
    MatchesOf(Ids(Experiences), activeExperience)
  }

  /** When the selection is an entry's id, exactly one card shows; otherwise none does. */
  lemma ExactlyOneCardDisplayed(activeExperience: string)
    ensures CountTrue(Displayed(activeExperience)) == (if activeExperience in Ids(Experiences) then 1 else 0)
  {
    ExperiencesWellFormed();
    UniqueMatchCount(Ids(Experiences), activeExperience);
  }

  /** The section's state: the selected entry. */
  class ExperienceSection {
    var activeExperience: string

    ghost predicate Valid()
      reads this
    {
      activeExperience in Ids(Experiences)
    }

    constructor ()
      ensures Valid()
      ensures activeExperience == Experiences[0].id
    {
      activeExperience := InitialExperience;
      new;
      assert Ids(Experiences)[0] == InitialExperience;
    }

    /** A click on the timeline button of entry `i`. */
    method Select(i: nat)
      requires Valid() && i < |Experiences|
      modifies this
      ensures Valid()
      ensures activeExperience == Experiences[i].id
    {
      activeExperience := Experiences[i].id;
      assert Ids(Experiences)[i] == activeExperience;
    }
  }

  /** Under the section's invariant exactly one detail card is displayed. */
  lemma ValidSelectionShowsOneCard(activeExperience: string)
    requires activeExperience in Ids(Experiences)
    ensures CountTrue(Displayed(activeExperience)) == 1
  {
    ExactlyOneCardDisplayed(activeExperience);
  }
}
