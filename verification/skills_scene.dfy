/**
 * `Skills3DScene` (components/portfolio/skills-3d-scene.tsx): each skill is
 * placed around its category hub by its rank within the category and a
 * level-dependent radius; the active tab (or "all") selects the orbs, lines
 * and hubs that are drawn.
 */
module SkillsScene {
  import opened Common
  import opened Skills

  /** The skill table of the 3D scene (shorter names than the section's). */
  const SceneSkills: seq<Skill> := [
    Skill("JavaScript/TS", 5, "frontend"),
    Skill("React", 5, "frontend"),
    Skill("HTML/CSS", 5, "frontend"),
    Skill("UI/UX", 4, "frontend"),
    Skill("Node.js", 5, "backend"),
    Skill("PHP", 5, "backend"),
    Skill("Python", 3, "backend"),
    Skill("C#/.NET", 3, "backend"),
    Skill("REST APIs", 5, "backend"),
    Skill("MySQL", 5, "infrastructure"),
    Skill("MongoDB", 4, "infrastructure"),
    Skill("AWS", 4, "infrastructure"),
    Skill("GitHub", 5, "infrastructure")
  ]

  /** No two skills share a name (the scene finds a skill's rank by its name). */
  predicate NamesUnique(skills: seq<Skill>) {
    forall i, j :: 0 <= i < j < |skills| ==> skills[i].name != skills[j].name
  }

  lemma SceneSkillsWellFormed()
    ensures NamesUnique(SceneSkills) && LevelsInRange(SceneSkills) && CategoriesKnown(SceneSkills)
  {
  }

  // ---------------------------------------------------------------------
  // Rank within the category
  // ---------------------------------------------------------------------

  /** `s.findIndex(x => x.name === name)`: the first position with that name, or -1. */
  function FindIndexByName(s: seq<Skill>, name: string): (i: int)
    ensures -1 <= i < |s|
    ensures i >= 0 ==> s[i].name == name && forall j :: 0 <= j < i ==> s[j].name != name
    ensures i == -1 ==> forall j :: 0 <= j < |s| ==> s[j].name != name
  {
    if s == [] then -1
    else if s[0].name == name then 0
    else
      var k := FindIndexByName(s[1..], name);
      if k == -1 then -1 else k + 1
  }

  /** `catIndex` of skill `k`: its position, found by name, in its category's filter. */
  function CategoryIndex(skills: seq<Skill>, k: nat): (i: int)
    requires k < |skills|
    ensures 0 <= i < |FilterByCategory(skills, skills[k].category)|
    ensures FilterByCategory(skills, skills[k].category)[i].name == skills[k].name
  {
    FilterMembers(skills, skills[k].category);
    assert skills[k] in FilterByCategory(skills, skills[k].category);
    FindIndexByName(FilterByCategory(skills, skills[k].category), skills[k].name)
  }

  /** The number of skills of the same category before position `k`. */
  function Rank(skills: seq<Skill>, k: nat): nat
    requires k < |skills|
  {
    |FilterByCategory(skills[..k], skills[k].category)|
  }

  /** The filter of a list split around position `k`. */
  lemma FilterAround(skills: seq<Skill>, k: nat)
    requires k < |skills|
    ensures FilterByCategory(skills, skills[k].category)
         == FilterByCategory(skills[..k], skills[k].category) + [skills[k]]
          + FilterByCategory(skills[k + 1..], skills[k].category)
  {
    SplitAt(skills, k);
    FilterOfThree(skills[..k], [skills[k]], skills[k + 1..], skills[k].category);
    FilterSingleton(skills[k], skills[k].category);
  }

  lemma SplitAt<T>(s: seq<T>, k: nat)
    requires k < |s|
    ensures s == s[..k] + [s[k]] + s[k + 1..]
  {
  }

  /** With unique names, `catIndex` is the skill's rank among the skills of its category. */
  lemma CategoryIndexIsRank(skills: seq<Skill>, k: nat)
    requires NamesUnique(skills) && k < |skills|
    ensures CategoryIndex(skills, k) == Rank(skills, k)
  {
    var x := skills[k];
    var before := FilterByCategory(skills[..k], x.category);
    var s := FilterByCategory(skills, x.category);
    FilterAround(skills, k);
    assert s[|before|] == x;
    forall j | 0 <= j < |before| ensures s[j].name != x.name {
      assert s[j] == before[j];
      FilterMembers(skills[..k], x.category);
      assert before[j] in skills[..k];
      var m :| 0 <= m < k && skills[..k][m] == before[j];
    }
    var i := FindIndexByName(s, x.name);
    assert i == |before|;
  }

  /** Ranks stay below the size of the category. */
  lemma RankBelowCount(skills: seq<Skill>, k: nat)
    requires k < |skills|
    ensures Rank(skills, k) < |FilterByCategory(skills, skills[k].category)|
  {
    FilterAround(skills, k);
  }

  /** Two skills of one category have different ranks, in list order. */
  lemma RankIncreasing(skills: seq<Skill>, k1: nat, k2: nat)
    requires k1 < k2 < |skills| && skills[k1].category == skills[k2].category
    ensures Rank(skills, k1) < Rank(skills, k2)
  {
    var c := skills[k1].category;
    var pre := skills[..k2];
    assert pre[k1] == skills[k1];
    assert pre[..k1] == skills[..k1];
    FilterAround(pre, k1);
  }

  // ---------------------------------------------------------------------
  // Placements
  // ---------------------------------------------------------------------

  /** Orbit radius around the hub: `0.8 + (5 - level) * 0.1`. */
  function OrbitRadius(level: int): (r: real)
    ensures 1 <= level <= 5 ==> 0.8 <= r <= 1.2
  {
    0.8 + (5 - level) as real * 0.1
  }

  /** Radius of a skill orb: `0.08 + level * 0.02`. */
  function OrbSize(level: int): (size: real)
    ensures 1 <= level <= 5 ==> 0.10 <= size <= 0.18
  {
    0.08 + level as real * 0.02
  }

  /** For levels 1..5 the orbit radius lies in 0.8..1.2 and the orb size in 0.10..0.18. */
  lemma PlacementBounds(level: int)
    requires 1 <= level <= 5
    ensures 0.8 <= OrbitRadius(level) <= 1.2
    ensures 0.10 <= OrbSize(level) <= 0.18
  {
  }

  /** A higher level orbits closer to its hub and is drawn larger. */
  lemma PlacementMonotone(l1: int, l2: int)
    requires l1 < l2
    ensures OrbitRadius(l2) < OrbitRadius(l1)
    ensures OrbSize(l1) < OrbSize(l2)
  {
  }

  /**
   * One entry of `skillPositions`: the skill, its `catIndex`, the size of its
   * category and its orbit radius (the angle is `catIndex / catCount` of a turn).
   */
  datatype Placement = Placement(skill: Skill, catIndex: int, catCount: nat, radius: real)

  function PlacementOf(skills: seq<Skill>, k: nat): Placement
    requires k < |skills|
  {
    Placement(skills[k], CategoryIndex(skills, k), |FilterByCategory(skills, skills[k].category)|,
              OrbitRadius(skills[k].level))
  }

  /** `skillPositions`: one placement per skill, in the same order. */
  function SkillPositions(skills: seq<Skill>): (ps: seq<Placement>)
    ensures |ps| == |skills|
    ensures forall k :: 0 <= k < |skills| ==> ps[k] == PlacementOf(skills, k)
  {
    seq(|skills|, k requires 0 <= k < |skills| => PlacementOf(skills, k))
  }

  /** The skills a list of placements is about. */
  function SkillsOf(ps: seq<Placement>): (r: seq<Skill>)
    ensures |r| == |ps|
    ensures forall k :: 0 <= k < |ps| ==> r[k] == ps[k].skill
  {
    if ps == [] then [] else SkillsOf(ps[..|ps| - 1]) + [ps[|ps| - 1].skill]
  }

  /** `skillPositions.filter(item => item.skill.category === category)`. */
  function FilterPlacements(ps: seq<Placement>, category: string): (r: seq<Placement>)
    ensures |r| <= |ps|
  {
    if ps == [] then []
    else
      var last := ps[|ps| - 1];
      FilterPlacements(ps[..|ps| - 1], category) + (if last.skill.category == category then [last] else [])
  }

  /** Filtering placements filters the skills they carry, in the same order. */
  lemma {:induction false} FilterPlacementsSkills(ps: seq<Placement>, category: string)
    ensures SkillsOf(FilterPlacements(ps, category)) == FilterByCategory(SkillsOf(ps), category)
  {
    if ps != [] {
      var init := ps[..|ps| - 1];
      FilterPlacementsSkills(init, category);
      assert SkillsOf(ps)[..|ps| - 1] == SkillsOf(init);
      var last := ps[|ps| - 1];
      if last.skill.category == category {
        assert SkillsOf(FilterPlacements(init, category) + [last])
            == SkillsOf(FilterPlacements(init, category)) + [last.skill];
      } else {
        assert FilterPlacements(ps, category) == FilterPlacements(init, category);
      }
    }
  }

  /** Within each category the placements carry the indices 0, 1, ..., n - 1, in order. */
  lemma CategoryIndicesConsecutive(skills: seq<Skill>, category: string)
    requires NamesUnique(skills)
    ensures var shown := FilterPlacements(SkillPositions(skills), category);
      forall j :: 0 <= j < |shown| ==> shown[j].catIndex == j
  {
    ConsecutiveUpTo(skills, category, |skills|);
    assert SkillPositions(skills)[..|skills|] == SkillPositions(skills);
  }

  lemma {:induction false} ConsecutiveUpTo(skills: seq<Skill>, category: string, m: nat)
    requires NamesUnique(skills) && m <= |skills|
    ensures var shown := FilterPlacements(SkillPositions(skills)[..m], category);
      && |shown| == |FilterByCategory(skills[..m], category)|
      && forall j :: 0 <= j < |shown| ==> shown[j].catIndex == j
  {
    if m > 0 {
      var ps := SkillPositions(skills);
      ConsecutiveUpTo(skills, category, m - 1);
      PlacementPrefixStep(ps, m, category);
      SkillPrefixStep(skills, m, category);
      if skills[m - 1].category == category {
        CategoryIndexIsRank(skills, m - 1);
      }
    }
  }

  /** Filtering placement prefixes: one more placement adds at most itself, at the end. */
  lemma PlacementPrefixStep(ps: seq<Placement>, m: nat, category: string)
    requires 0 < m <= |ps|
    ensures FilterPlacements(ps[..m], category)
         == FilterPlacements(ps[..m - 1], category) + (if ps[m - 1].skill.category == category then [ps[m - 1]] else [])
  {
    assert ps[..m][..m - 1] == ps[..m - 1];
  }

  /** Filtering skill prefixes: one more skill adds at most itself, at the end. */
  lemma SkillPrefixStep(skills: seq<Skill>, m: nat, category: string)
    requires 0 < m <= |skills|
    ensures FilterByCategory(skills[..m], category)
         == FilterByCategory(skills[..m - 1], category) + (if skills[m - 1].category == category then [skills[m - 1]] else [])
  {
    assert skills[..m][..m - 1] == skills[..m - 1];
  }

  // ---------------------------------------------------------------------
  // What the active tab shows
  // ---------------------------------------------------------------------

  /** `filteredSkills`: every placement for "all", otherwise those of the active category. */
  function SceneFilter(ps: seq<Placement>, activeCategory: string): (shown: seq<Placement>)
    ensures |shown| <= |ps|
    ensures activeCategory == "all" ==> shown == ps
    ensures activeCategory != "all" ==> forall k :: 0 <= k < |shown| ==> shown[k].skill.category == activeCategory
  {
    FilterPlacementsSkills(ps, activeCategory);
    FilterMembers(SkillsOf(ps), activeCategory);
    assert forall k :: 0 <= k < |FilterPlacements(ps, activeCategory)| ==>
      FilterPlacements(ps, activeCategory)[k].skill == SkillsOf(FilterPlacements(ps, activeCategory))[k];
    if activeCategory == "all" then ps else FilterPlacements(ps, activeCategory)
  }

  /** The shown skills are all of them for "all", and otherwise exactly the active category's, in order. */
  lemma SceneFilterShows(skills: seq<Skill>, activeCategory: string)
    ensures SkillsOf(SceneFilter(SkillPositions(skills), activeCategory))
         == if activeCategory == "all" then skills else FilterByCategory(skills, activeCategory)
  {
    var ps := SkillPositions(skills);
    assert SkillsOf(ps) == skills;
    FilterPlacementsSkills(ps, activeCategory);
  }

  /** A connection line from a hub (named by its category) to a skill orb. */
  datatype Line = Line(hub: string, skillName: string)

  /** `ConnectionLines`: one line per shown placement, from its category hub. */
  function ConnectionLines(shown: seq<Placement>): (lines: seq<Line>)
    ensures |lines| == |shown|
  {
    if shown == [] then []
    else
      var last := shown[|shown| - 1];
      ConnectionLines(shown[..|shown| - 1]) + [Line(last.skill.category, last.skill.name)]
  }

  /** There is one line per shown skill, joining it to its own hub. */
  lemma {:induction false} LinesJoinOwnHub(shown: seq<Placement>)
    ensures forall k :: 0 <= k < |shown| ==>
      ConnectionLines(shown)[k] == Line(shown[k].skill.category, shown[k].skill.name)
  {
    if shown != [] {
      LinesJoinOwnHub(shown[..|shown| - 1]);
    }
  }

  /** `CategorySphere` for `category` is drawn iff the tab is "all" or that category. */
  predicate SphereShown(activeCategory: string, category: string) {
    activeCategory == "all" || activeCategory == category
  }

  /** The three hubs drawn, in hub order. */
  function SpheresShown(activeCategory: string): (shown: seq<bool>)
    ensures |shown| == |CategoryIds|
  {
    seq(|CategoryIds|, i requires 0 <= i < |CategoryIds| => SphereShown(activeCategory, CategoryIds[i]))
  }

  /** "all" draws the three hubs; a category tab draws its own hub only. */
  lemma SpheresShownCount(activeCategory: string)
    requires activeCategory == "all" || activeCategory in CategoryIds
    ensures CountTrue(SpheresShown(activeCategory)) == if activeCategory == "all" then 3 else 1
  {
    var shown := SpheresShown(activeCategory);
    if activeCategory == "all" {
      assert shown == [true, true, true];
      assert shown[..2] == [true, true];
      assert shown[..2][..1] == [true];
      assert shown[..2][..1][..0] == [];
      assert CountTrue(shown[..2][..1]) == 1;
      assert CountTrue(shown[..2]) == 2;
    } else {
      assert shown == MatchesOf(CategoryIds, activeCategory);
      UniqueMatchCount(CategoryIds, activeCategory);
    }
  }
}
