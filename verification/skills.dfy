/**
 * `SkillsSection` (components/portfolio/skills-section.tsx): the skill table,
 * the category tabs, the per-category filter, the orbit radius of a skill node
 * and its five level dots.
 */
module Skills {
  import opened Common

  /** A skill with its level (1..5) and its category id. */
  datatype Skill = Skill(name: string, level: int, category: string)

  /** The ids of the three category tabs, in tab order. */
  const CategoryIds: seq<string> := ["frontend", "backend", "infrastructure"]

  /** The skill table of the section. */
  const SkillTable: seq<Skill> := [
    Skill("JavaScript/TypeScript", 5, "frontend"),
    Skill("React", 5, "frontend"),
    Skill("HTML/CSS/Bootstrap", 5, "frontend"),
    Skill("UI/UX Development", 4, "frontend"),
    Skill("Node.js/Express.js", 5, "backend"),
    Skill("PHP", 5, "backend"),
    Skill("Python", 3, "backend"),
    Skill("C#/.NET", 3, "backend"),
    Skill("RESTful APIs", 5, "backend"),
    Skill("MySQL", 5, "infrastructure"),
    Skill("MongoDB", 4, "infrastructure"),
    Skill("AWS/Cloud Services", 4, "infrastructure"),
    Skill("GitHub", 5, "infrastructure")
  ]

  /** Every level lies in 1..5. */
  predicate LevelsInRange(skills: seq<Skill>) {
    forall i :: 0 <= i < |skills| ==> 1 <= skills[i].level <= 5
  }

  /** Every skill belongs to one of the three tabs. */
  predicate CategoriesKnown(skills: seq<Skill>) {
    forall i :: 0 <= i < |skills| ==> skills[i].category in CategoryIds
  }

  lemma SkillTableWellFormed()
    ensures LevelsInRange(SkillTable) && CategoriesKnown(SkillTable)
    ensures Unique(CategoryIds)
  {
  }

  // ---------------------------------------------------------------------
  // The category filter
  // ---------------------------------------------------------------------

  /** `skills.filter(skill => skill.category === category)`. */
  function FilterByCategory(skills: seq<Skill>, category: string): (r: seq<Skill>)
    ensures |r| <= |skills|
  {
    if skills == [] then []
    else
      var last := skills[|skills| - 1];
      FilterByCategory(skills[..|skills| - 1], category) + (if last.category == category then [last] else [])
  }

  /** The filter holds exactly the skills of the category. */
  lemma {:induction false} FilterMembers(skills: seq<Skill>, category: string)
    ensures forall s :: s in FilterByCategory(skills, category) <==> s in skills && s.category == category
  {
    if skills != [] {
      var init := skills[..|skills| - 1];
      FilterMembers(init, category);
      assert skills == init + [skills[|skills| - 1]];
    }
  }

  /** A one-skill list filters to itself or to nothing. */
  lemma FilterSingleton(x: Skill, category: string)
    ensures FilterByCategory([x], category) == if x.category == category then [x] else []
  {
    assert [x][..0] == [];
  }

  /** Filtering keeps the original order: it distributes over concatenation. */
  lemma {:induction false} FilterAppend(a: seq<Skill>, b: seq<Skill>, category: string)
    ensures FilterByCategory(a + b, category) == FilterByCategory(a, category) + FilterByCategory(b, category)
  {
    if b == [] {
      assert a + b == a;
    } else {
      var b' := b[..|b| - 1];
      assert (a + b)[..|a + b| - 1] == a + b';
      assert (a + b)[|a + b| - 1] == b[|b| - 1];
      FilterAppend(a, b', category);
    }
  }

  /** A sequence whose skills all have the category is its own filter. */
  lemma {:induction false} FilterKeepsAll(skills: seq<Skill>, category: string)
    requires forall i :: 0 <= i < |skills| ==> skills[i].category == category
    ensures FilterByCategory(skills, category) == skills
  {
    if skills != [] {
      FilterKeepsAll(skills[..|skills| - 1], category);
    }
  }

  /** The three category filters partition any list whose categories are known. */
  lemma {:induction false} FiltersPartition(skills: seq<Skill>)
    requires CategoriesKnown(skills)
    ensures |FilterByCategory(skills, "frontend")| + |FilterByCategory(skills, "backend")|
          + |FilterByCategory(skills, "infrastructure")| == |skills|
  {
    if skills != [] {
      FiltersPartition(skills[..|skills| - 1]);
    }
  }

  /** A sequence without a skill of the category filters to nothing. */
  lemma {:induction false} FilterDropsAll(skills: seq<Skill>, category: string)
    requires forall i :: 0 <= i < |skills| ==> skills[i].category != category
    ensures FilterByCategory(skills, category) == []
  {
    if skills != [] {
      FilterDropsAll(skills[..|skills| - 1], category);
    }
  }

  /** Filtering three concatenated runs filters each run. */
  lemma FilterOfThree(fe: seq<Skill>, be: seq<Skill>, inf: seq<Skill>, c: string)
    ensures FilterByCategory(fe + be + inf, c)
         == FilterByCategory(fe, c) + FilterByCategory(be, c) + FilterByCategory(inf, c)
  {
    FilterAppend(fe + be, inf, c);
    FilterAppend(fe, be, c);
  }

  /** The filter of a list made of three runs, each of one category. */
  lemma FilterOfRuns(fe: seq<Skill>, be: seq<Skill>, inf: seq<Skill>)
    requires forall i :: 0 <= i < |fe| ==> fe[i].category == "frontend"
    requires forall i :: 0 <= i < |be| ==> be[i].category == "backend"
    requires forall i :: 0 <= i < |inf| ==> inf[i].category == "infrastructure"
    ensures FilterByCategory(fe + be + inf, "frontend") == fe
    ensures FilterByCategory(fe + be + inf, "backend") == be
    ensures FilterByCategory(fe + be + inf, "infrastructure") == inf
  {
    FilterOfThree(fe, be, inf, "frontend");
    FilterKeepsAll(fe, "frontend");
    FilterDropsAll(be, "frontend");
    FilterDropsAll(inf, "frontend");
    assert FilterByCategory(fe + be + inf, "frontend") == fe + [] + [];
    FilterOfThree(fe, be, inf, "backend");
    FilterDropsAll(fe, "backend");
    FilterKeepsAll(be, "backend");
    FilterDropsAll(inf, "backend");
    assert FilterByCategory(fe + be + inf, "backend") == [] + be + [];
    FilterOfThree(fe, be, inf, "infrastructure");
    FilterDropsAll(fe, "infrastructure");
    FilterDropsAll(be, "infrastructure");
    FilterKeepsAll(inf, "infrastructure");
    assert FilterByCategory(fe + be + inf, "infrastructure") == [] + [] + inf;
  }

  /** The table splits 4 / 5 / 4 over the three tabs. */
  lemma SkillTableCounts()
    ensures |FilterByCategory(SkillTable, "frontend")| == 4
    ensures |FilterByCategory(SkillTable, "backend")| == 5
    ensures |FilterByCategory(SkillTable, "infrastructure")| == 4
  {
    var fe, be, inf := SkillTable[..4], SkillTable[4..9], SkillTable[9..];
    assert SkillTable == fe + be + inf;
    FilterOfRuns(fe, be, inf);
  }

  // ---------------------------------------------------------------------
  // Layout arithmetic and level dots
  // ---------------------------------------------------------------------

  /** Orbit radius of a skill node: `140 + (5 - level) * 15`. */
  function NodeRadius(level: int): (r: int)
    ensures 1 <= level <= 5 ==> 140 <= r <= 200
  {
    140 + (5 - level) * 15
  }

  /** For levels 1..5 the radius lies in 140..200, and a higher level sits closer to the hub. */
  lemma NodeRadiusBounds(level: int, other: int)
    requires 1 <= level <= 5
    ensures 140 <= NodeRadius(level) <= 200
    ensures level < other ==> NodeRadius(other) < NodeRadius(level)
  {
  }

  /** The five level dots: dot `i` is filled iff `i < level`. */
  function LevelDots(level: int): (dots: seq<bool>)
    ensures |dots| == 5
  {
    seq(5, i => i < level)
  }

  /** Exactly `level` of the five dots are filled, the first ones. */
  lemma LevelDotsCount(level: int)
    requires 0 <= level <= 5
    ensures CountTrue(LevelDots(level)) == level
  {
    var dots := LevelDots(level);
    FilledPrefixCount(dots, level, 5);
    assert dots[..5] == dots;
  }

  lemma {:induction false} FilledPrefixCount(dots: seq<bool>, level: int, k: nat)
    requires 0 <= level && k <= |dots|
    requires forall i :: 0 <= i < |dots| ==> (dots[i] <==> i < level)
    ensures CountTrue(dots[..k]) == Min(k, level)
  {
    if k > 0 {
      assert dots[..k][..k - 1] == dots[..k - 1];
      FilledPrefixCount(dots, level, k - 1);
    }
  }

  // ---------------------------------------------------------------------
  // The section state
  // ---------------------------------------------------------------------

  /** The section's `activeCategory` and `hoveredSkill` state. */
  class SkillsSection {
    var activeCategory: string
    var hoveredSkill: Option<string>

    ghost predicate Valid()
      reads this
    {
      activeCategory in CategoryIds
    }

    /** Mount: the front-end tab, nothing hovered. */
    constructor ()
      ensures Valid() && activeCategory == "frontend" && hoveredSkill == None
    {
      activeCategory := "frontend";
      hoveredSkill := None;
    }

    /** The skills shown for the active tab. */
    function VisibleSkills(): (r: seq<Skill>)
      reads this
      ensures forall s :: s in r <==> s in SkillTable && s.category == activeCategory
    {
      FilterMembers(SkillTable, activeCategory);
      FilterByCategory(SkillTable, activeCategory)
    }

    /** A click on tab `i` makes its category active. */
    method SelectCategory(i: nat)
      requires Valid() && i < |CategoryIds|
      modifies this`activeCategory
      ensures Valid() && activeCategory == CategoryIds[i]
    {
      activeCategory := CategoryIds[i];
    }

    /** The pointer enters a skill node. */
    method HoverEnter(name: string)
      modifies this`hoveredSkill
      ensures hoveredSkill == Some(name)
      ensures forall s :: IsHighlighted(s) <==> s.name == name
    {
      hoveredSkill := Some(name);
    }

    /** The pointer leaves a skill node. */
    method HoverLeave()
      modifies this`hoveredSkill
      ensures hoveredSkill == None
      ensures forall s :: !IsHighlighted(s)
    {
      hoveredSkill := None;
    }

    /** A node is highlighted iff it is the hovered one. */
    predicate IsHighlighted(s: Skill)
      reads this
    {
      hoveredSkill == Some(s.name)
    }
  }
}
