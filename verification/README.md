# Personal portfolio: state machines and display rules

This project models the behaviour of a single-page React portfolio site. The
page root keeps three pieces of state: a one-shot loading flag, a
developer-view flag, and the active section. The active section is written by
a viewport observer and read by the navigation. Global keyboard shortcuts
(digits 1 to 6, and `d`) navigate and toggle the developer view.

The interactive components around the page root are modelled as well:

- the typewriter line of the hero section;
- the four-timer loading sequence;
- the skills tabs and the 3D skills scene;
- the flip cards of the projects;
- the twinkling star background;
- the orbital navigation;
- the experience timeline.

Each component that holds state is a Dafny `class` whose fields are that
component's state. Each host event is a method: a timer or interval firing,
an observer batch, a key press, a click, an animation frame, a resize, or an
unmount. The decision rules these handlers apply are pure functions, and
lemmas state the properties the component promises about those rules.

Two kinds of input come from outside the model:

- Every `Math.random()` draw is an input in `[0, 1)`.
- The DOM is represented only by the facts the handlers read: the set of ids
  present in the document, and the tag name of the focused element.

Modules:

- `Common`: optional values, counting `true`s, toggling a flag once per event.
- `Page`: `app/page.tsx`. This includes JavaScript `parseInt` (no radix) on
  key texts, `handleKeyDown`, `handleNavigate`, the observer callback, and
  the `Portfolio` state.
- `Hero`: the typewriter of `hero-section.tsx`, and the orbit-radius clamp of
  `hero-3d-scene.tsx`.
- `Loading`: `loading-sequence.tsx`.
- `Skills`: `skills-section.tsx`.
- `SkillsScene`: `skills-3d-scene.tsx`.
- `ProjectCard`: `project-3d-card.tsx`.
- `Stars`: `star-background.tsx`. The pool is an `array<Star>` that each frame
  updates in place.
- `Navigation`: `orbital-navigation.tsx`.
- `Experience`: `experience-section.tsx`.

In these places the model follows what the code does, which a reader of the
page might not expect:

- The observer effect depends on `[isLoading]`, so it also runs at mount.
  The sections are always in the DOM, hidden only by opacity, so observer
  batches already move the active section while the loading screen shows.
  `Page.Portfolio.ObserverBatch` therefore has no loading precondition.
- A window resize only resizes the canvas. It does not recreate the star
  pool: `Stars.StarField.Resize` keeps the array and its contents.
- The page root never renders `LoadingSequence`. It runs its own 2000 ms
  timer instead (`Page.Portfolio.LoadingTimerFires`). The `Loading` module
  models the component on its own.
- The live link renders under `project.link && …`, which uses JavaScript
  truthiness. An empty link string therefore renders no link
  (`ProjectCard.LinkShown`).

## Model

| member | source | states |
|---|---|---|
| Page.SectionIdsUnique | app/page.tsx:52 | the six shortcut targets are distinct and non-empty |
| Page.TrimStart | app/page.tsx:56 | what `parseInt` keeps after skipping leading white space does not start with white space |
| Page.TrimStartIsSuffix | app/page.tsx:56 | the text after skipping white space is a suffix of the key text, and every character dropped before it is white space |
| Page.DigitValue | app/page.tsx:56 | a digit's value is below the radix; in base 10 exactly `0`-`9` are digits |
| Page.DigitRun | app/page.tsx:56 | the digit run `parseInt` reads is a prefix of digits ending at the first non-digit |
| Page.NoDigitIsNaN | app/page.tsx:56 | a key text containing no decimal digit parses to NaN |
| Page.LetterDIsNaN | app/page.tsx:56 | the keys `d` and `D` parse to NaN, so they never navigate |
| Page.ParseSingleDigit | app/page.tsx:56 | a one-character digit key parses to that digit |
| Page.ParseInt | app/page.tsx:56 | `parseInt(e.key)`: skip white space, optional sign, `0x` prefix, then the leading digit run; none is NaN (its properties are the lemmas above) |
| Page.HandleKeyDown | app/page.tsx:54-70 | navigation only ever targets a section id; the key's default action is cancelled iff it navigates; a navigating key never toggles; toggling requires `d`/`D`, no Ctrl, no Meta and no focused text field |
| Page.DigitKeyNavigates | app/page.tsx:56-60 | keys `1`..`6` navigate to the sections in page order, cancel the default action and do not toggle, whatever the modifiers or focus |
| Page.OtherDigitKeysIgnored | app/page.tsx:56-60 | keys `0` and `7`..`9` do nothing |
| Page.NonNumericKeyNeverNavigates | app/page.tsx:56-60 | a key whose text holds no digit never navigates |
| Page.LetterDToggles | app/page.tsx:63-69 | `d`/`D` toggles the developer view iff neither Ctrl nor Meta is held and no INPUT/TEXTAREA has focus |
| Page.TogglingPresses | app/page.tsx:63-69 | there is one toggle decision per key press |
| Page.DeveloperViewParity | app/page.tsx:63-69 | after a run of key presses the developer view is flipped iff an odd number of them toggled |
| Page.HandleNavigate | app/page.tsx:76-81 | scrolls iff an element with that id exists, and then to that id; otherwise a no-op |
| Page.AfterBatch | app/page.tsx:33-39 | the active section after the entries are visited in order, each intersecting one overwriting it (characterised by the next row) |
| Page.AfterBatchIsLastIntersecting | app/page.tsx:33-39 | after a batch, the active section is the target of the last intersecting entry, or is unchanged if none intersects |
| Page.Portfolio.constructor | app/page.tsx:15-23 | starts on `identity`, loading, developer view off, with the 2000 ms timer pending |
| Page.Portfolio.LoadingTimerFires | app/page.tsx:19-26 | the pending timer ends loading once; loading never comes back; other state unchanged |
| Page.Portfolio.Unmount | app/page.tsx:25 | the timer is cleared and listeners are released; state unchanged |
| Page.Portfolio.ObserverBatch | app/page.tsx:33-39 | the entry loop leaves the active section equal to `AfterBatch` of the batch; nothing after unmount |
| Page.Portfolio.KeyDown | app/page.tsx:54-81 | applies `HandleKeyDown`: cancels the default action and scrolls through `HandleNavigate` on a navigating key, flips the developer view on a toggle, and touches nothing else |
| Page.Portfolio.DeveloperViewButton | app/page.tsx:150 | the button flips the developer view |
| Page.TwoButtonClicksRestore | app/page.tsx:150 | two button clicks restore the developer view and leave the other state alone |
| Hero.IndexAfter | components/portfolio/hero-section.tsx:37-44 | the counter equals the number of ticks until it is capped at length + 1, and never exceeds either |
| Hero.TextAfter | components/portfolio/hero-section.tsx:40 | the shown text is always a prefix of the full text |
| Hero.TextGrowsByOne | components/portfolio/hero-section.tsx:37-42 | after tick t (t ≤ length + 1) the text has length t − 1, one more character than the tick before |
| Hero.TextOnlyGrows | components/portfolio/hero-section.tsx:39-41 | a later tick extends what an earlier tick showed |
| Hero.TextCompletes | components/portfolio/hero-section.tsx:39-44 | from tick length + 1 on, the full text shows and the index stays at length + 1 |
| Hero.Typewriter.constructor | components/portfolio/hero-section.tsx:33-38 | empty text, index 0, interval set |
| Hero.Typewriter.Tick | components/portfolio/hero-section.tsx:38-45 | a firing extends the prefix or clears the interval once the index passes the length; the index never exceeds length + 1; a cleared interval changes nothing |
| Hero.Typewriter.Unmount | components/portfolio/hero-section.tsx:47 | cleanup clears the interval |
| Hero.TypeOut | components/portfolio/hero-section.tsx:36-45 | running the interval until it clears ends with exactly the full text shown |
| Hero.TypeTitle | components/portfolio/hero-section.tsx:34-45 | the hero's own typewriter, run to the end, shows exactly "Full-Stack Developer" (20 characters) |
| Hero.OrbitRadius | components/portfolio/hero-3d-scene.tsx:213 | the orbit radius is the smaller of 2.2 and 0.35 × viewport width, so never above 2.2 |
| Loading.TimersOrderedByDelay | components/portfolio/loading-sequence.tsx:10-15 | the four delays are strictly increasing (500 < 1500 < 2500 < 3000) |
| Loading.PhaseAfter | components/portfolio/loading-sequence.tsx:10-15 | the phase after a sequence of callbacks never exceeds 3 |
| Loading.PhaseAfterInOrder | components/portfolio/loading-sequence.tsx:10-15 | with timers firing in delay order, after k firings the phase is min(k, 3) |
| Loading.PhaseMonotone | components/portfolio/loading-sequence.tsx:7-15 | in delay order the phase never decreases and stays within 0..3 |
| Loading.OverlayShown | components/portfolio/loading-sequence.tsx:22 | the overlay is rendered iff the phase is below 3 |
| Loading.StarsShown | components/portfolio/loading-sequence.tsx:33-70 | the flag and its stars are scaled in iff the phase is at least 1 |
| Loading.NameShown | components/portfolio/loading-sequence.tsx:79 | the name is faded in iff the phase is at least 2 |
| Loading.BarWidth | components/portfolio/loading-sequence.tsx:100 | the bar width in percent, within 0..100 for phases 0..3 |
| Loading.BarWidthBounds | components/portfolio/loading-sequence.tsx:100 | the bar is 0% exactly at phase 0, 100% exactly at phase 3, and between them otherwise |
| Loading.BarWidthIncreasing | components/portfolio/loading-sequence.tsx:100 | a higher phase shows a strictly wider bar |
| Loading.RevealsNest | components/portfolio/loading-sequence.tsx:22-79 | the name implies the stars; the overlay is gone iff phase is 3, with the name in and the bar full |
| Loading.LoadingSequence.constructor | components/portfolio/loading-sequence.tsx:7-15 | phase 0, no completion, all four timers pending |
| Loading.LoadingSequence.Fire | components/portfolio/loading-sequence.tsx:11-14 | the earliest pending timer leaves the pending set and sets its phase, never lowering it; the last calls `onComplete` exactly once, after phase 3 |
| Loading.RunToCompletion | components/portfolio/loading-sequence.tsx:9-15 | mounting and firing the four timers in delay order ends at phase 3 with `onComplete` called once and no timer pending |
| Loading.LoadingSequence.Unmount | components/portfolio/loading-sequence.tsx:17 | cleanup clears every pending timer |
| Skills.SkillTableWellFormed | components/portfolio/skills-section.tsx:8-29 | every level lies in 1..5, every category is a known tab, and the tab ids are distinct |
| Skills.FilterByCategory | components/portfolio/skills-section.tsx:104-106 | the filtered list is no longer than the input |
| Skills.FilterMembers | components/portfolio/skills-section.tsx:104-106 | a skill is in the filtered list iff it is in the input and has the category |
| Skills.FilterAppend | components/portfolio/skills-section.tsx:104-106 | filtering distributes over concatenation, so the original order is kept |
| Skills.FilterKeepsAll | components/portfolio/skills-section.tsx:104-106 | a list entirely of the category filters to itself |
| Skills.FilterDropsAll | components/portfolio/skills-section.tsx:104-106 | a list without the category filters to nothing |
| Skills.FiltersPartition | components/portfolio/skills-section.tsx:104-106 | the three category filters together count every skill exactly once |
| Skills.SkillTableCounts | components/portfolio/skills-section.tsx:12-29 | the table has 4 frontend, 5 backend and 4 infrastructure skills |
| Skills.NodeRadius | components/portfolio/skills-section.tsx:204-205 | the node radius lies in [140, 200] for levels 1..5 |
| Skills.NodeRadiusBounds | components/portfolio/skills-section.tsx:204-205 | the node radius lies in [140, 200] for levels 1..5 and strictly decreases as the level rises |
| Skills.LevelDots | components/portfolio/skills-section.tsx:244-248 | there are always five indicator dots |
| Skills.LevelDotsCount | components/portfolio/skills-section.tsx:244-248 | exactly `level` of the five dots are filled |
| Skills.SkillsSection.constructor | components/portfolio/skills-section.tsx:101-102 | starts on the frontend tab with nothing hovered |
| Skills.SkillsSection.VisibleSkills | components/portfolio/skills-section.tsx:104-106 | the shown skills are exactly the table's skills of the active tab |
| Skills.SkillsSection.SelectCategory | components/portfolio/skills-section.tsx:142-145 | a tab click sets the active category to that tab's id, always a known id |
| Skills.SkillsSection.HoverEnter | components/portfolio/skills-section.tsx:219 | entering a node marks that skill hovered, so exactly the skills of that name are highlighted |
| Skills.SkillsSection.HoverLeave | components/portfolio/skills-section.tsx:220 | leaving a node clears the hover, so nothing is highlighted |
| Skills.SkillsSection.IsHighlighted | components/portfolio/skills-section.tsx:219-220 | a node is highlighted iff its skill is the hovered one |
| SkillsScene.SceneSkillsWellFormed | components/portfolio/skills-3d-scene.tsx:14-28 | the scene's skill names are unique, levels lie in 1..5, categories are known |
| SkillsScene.FindIndexByName | components/portfolio/skills-3d-scene.tsx:213 | `findIndex` returns the first position with that name, or −1 when there is none |
| SkillsScene.CategoryIndex | components/portfolio/skills-3d-scene.tsx:212-213 | `catIndex` is a valid position in the skill's category list, holding a skill of the same name |
| SkillsScene.CategoryIndexIsRank | components/portfolio/skills-3d-scene.tsx:212-213 | with unique names, `catIndex` is the number of same-category skills before this one |
| SkillsScene.RankBelowCount | components/portfolio/skills-3d-scene.tsx:212-216 | `catIndex` is below the category's size |
| SkillsScene.RankIncreasing | components/portfolio/skills-3d-scene.tsx:212-213 | within a category a later skill has a larger index |
| SkillsScene.CategoryIndicesConsecutive | components/portfolio/skills-3d-scene.tsx:211-227 | the placements of one category carry the indices 0, 1, …, n − 1, in order |
| SkillsScene.OrbitRadius | components/portfolio/skills-3d-scene.tsx:217 | the orbit radius lies in [0.8, 1.2] for levels 1..5 |
| SkillsScene.OrbSize | components/portfolio/skills-3d-scene.tsx:49 | the orb size lies in [0.10, 0.18] for levels 1..5 |
| SkillsScene.PlacementBounds | components/portfolio/skills-3d-scene.tsx:49 | for levels 1..5 the orbit radius lies in [0.8, 1.2] and the orb size in [0.10, 0.18] |
| SkillsScene.PlacementMonotone | components/portfolio/skills-3d-scene.tsx:217 | a higher level orbits closer and has a bigger orb |
| SkillsScene.SkillPositions | components/portfolio/skills-3d-scene.tsx:211-227 | there is one placement per skill, in the same order |
| SkillsScene.FilterPlacementsSkills | components/portfolio/skills-3d-scene.tsx:229-232 | filtering placements by category keeps exactly the skills the category filter keeps, in order |
| SkillsScene.SceneFilter | components/portfolio/skills-3d-scene.tsx:229-232 | never more placements than given; "all" keeps them all; any other tab keeps only placements of that category |
| SkillsScene.SceneFilterShows | components/portfolio/skills-3d-scene.tsx:229-232 | "all" shows every skill; any other tab shows exactly that category's skills, in order |
| SkillsScene.ConnectionLines | components/portfolio/skills-3d-scene.tsx:177-197 | there is exactly one line per shown skill |
| SkillsScene.LinesJoinOwnHub | components/portfolio/skills-3d-scene.tsx:177-184 | line k joins shown skill k to its own category's hub |
| SkillsScene.SphereShown | components/portfolio/skills-3d-scene.tsx:253-264 | a category's sphere shows iff the tab is "all" or that category |
| SkillsScene.SpheresShownCount | components/portfolio/skills-3d-scene.tsx:253-264 | "all" shows the three category spheres; a single category shows only its own |
| ProjectCard.Preview | components/portfolio/project-3d-card.tsx:128 | the preview is the first min(4, n) items, in order |
| ProjectCard.OverflowBadge | components/portfolio/project-3d-card.tsx:136-140 | the "+N" badge appears iff there are more than 4 technologies, with a positive N |
| ProjectCard.PreviewAccountsForAll | components/portfolio/project-3d-card.tsx:128-140 | shown plus hidden is always n, and with a badge the list is the preview followed by the hidden rest |
| ProjectCard.TechnologyPreview | components/portfolio/project-3d-card.tsx:128 | the front face lists the first min(4, n) technologies, in order |
| ProjectCard.FeatureList | components/portfolio/project-3d-card.tsx:208 | the back face lists the first min(4, n) features, in order |
| ProjectCard.LinkShown | components/portfolio/project-3d-card.tsx:180 | the live link renders iff the project has a non-empty link |
| ProjectCard.FlippedAfter | components/portfolio/project-3d-card.tsx:59-80 | `isFlipped` after a run of events, flipped once per card click (characterised by `FlippedParity`) |
| ProjectCard.HoveredAfter | components/portfolio/project-3d-card.tsx:60-71 | `isHovered` after a run of events, set by enter and cleared by leave (characterised by `HoveredBetweenEnterAndLeave`) |
| ProjectCard.FlippedAfterStep | components/portfolio/project-3d-card.tsx:80-185 | one more event flips the card iff it is a card click; a link click does not |
| ProjectCard.FlippedParity | components/portfolio/project-3d-card.tsx:59-80 | the card ends flipped iff an odd number of card clicks occurred, so two clicks restore it |
| ProjectCard.HoveredBetweenEnterAndLeave | components/portfolio/project-3d-card.tsx:60-71 | the card is hovered iff the last enter/leave event was an enter (or as before when there was none) |
| ProjectCard.Card.constructor | components/portfolio/project-3d-card.tsx:59-60 | starts unflipped and not hovered |
| ProjectCard.Card.Handle | components/portfolio/project-3d-card.tsx:70-80 | a card click flips; enter and leave set and clear the hover; a link click changes nothing |
| ProjectCard.Card.HandleAll | components/portfolio/project-3d-card.tsx:59-80 | handling a run of events yields `FlippedAfter` and `HoveredAfter` of that run |
| Stars.ScaleBelow | components/portfolio/star-background.tsx:37-38 | a random value times a positive extent lies in [0, extent) |
| Stars.NewStar | components/portfolio/star-background.tsx:36-42 | fresh stars have opacity in [0.2, 1.0), size in [0.5, 2.5), speed in [0.1, 0.6), and a position inside the canvas |
| Stars.Twinkle | components/portfolio/star-background.tsx:53-54 | the opacity stays within [0.2, 1] and moves by at most 0.01 |
| Stars.StepStar | components/portfolio/star-background.tsx:51-82 | a frame never changes size or speed, keeps the opacity within [0.2, 1], and leaves the star no lower than the canvas height |
| Stars.StepStarInRange | components/portfolio/star-background.tsx:51-82 | a star stays in range through a frame; a wrapped star's new column lies in [0, width) |
| Stars.StepStarDrifts | components/portfolio/star-background.tsx:77-81 | a star that stays on the canvas keeps its column and moves down by speed × 0.1; one that falls off restarts at y = 0 at column `rX × width` |
| Stars.StepStarOpacityNudged | components/portfolio/star-background.tsx:53-54 | a frame changes a star's opacity by at most 0.01 |
| Stars.Pool | components/portfolio/star-background.tsx:32-43 | the pool holds one star per draw, in order |
| Stars.FrameOf | components/portfolio/star-background.tsx:51-82 | a frame maps every star through `StepStar`, so no star is added or removed |
| Stars.PoolInRange | components/portfolio/star-background.tsx:35-43 | every created star is in range and on the canvas |
| Stars.FrameInRange | components/portfolio/star-background.tsx:51-82 | a frame keeps every star in range and on the canvas |
| Stars.DotAlpha | components/portfolio/star-background.tsx:59 | the dot alpha lies in [0.12, 0.6] |
| Stars.GlowRadius | components/portfolio/star-background.tsx:63-70 | the glow radius is three times the size, within [1.5, 7.5) |
| Stars.CreatePool | components/portfolio/star-background.tsx:32-43 | the creation loop fills a fresh array of exactly 150 stars with `Pool` of the draws |
| Stars.StarField.constructor | components/portfolio/star-background.tsx:16-43 | without a canvas or 2D context nothing is set up and no frame runs; otherwise the canvas takes the viewport size, 150 stars are created and the first frame runs |
| Stars.StarField.Frame | components/portfolio/star-background.tsx:47-85 | the in-place loop leaves the array equal to `FrameOf` of its old contents, keeps every star in range and on the canvas |
| Stars.StarField.Resize | components/portfolio/star-background.tsx:23-29 | the canvas takes the new viewport size; the pool is untouched |
| Stars.StarField.Unmount | components/portfolio/star-background.tsx:89-92 | cleanup stops frames and the resize listener |
| Navigation.NavItemsAreSections | components/portfolio/orbital-navigation.tsx:14-133 | the nav item ids equal the page's section ids in order, and are unique |
| Navigation.IsHighlighted | components/portfolio/orbital-navigation.tsx:163-185 | an item is highlighted, and carries the indicator line, iff its id is the active section |
| Navigation.Highlights | components/portfolio/orbital-navigation.tsx:163-185 | item i is highlighted iff its id equals the active section |
| Navigation.AtMostOneHighlighted | components/portfolio/orbital-navigation.tsx:163-185 | exactly one item is highlighted when the active section is a nav id, otherwise none |
| Navigation.ItemClickScrollsToItsSection | components/portfolio/orbital-navigation.tsx:158 | an item click scrolls to that item's section iff the section exists |
| Navigation.OrbitalNavigation.constructor | components/portfolio/orbital-navigation.tsx:144 | the mobile menu starts collapsed |
| Navigation.OrbitalNavigation.MobileMenuItems | components/portfolio/orbital-navigation.tsx:203-210 | the mobile menu lists exactly the page's sections when expanded, and nothing otherwise |
| Navigation.OrbitalNavigation.ToggleMenu | components/portfolio/orbital-navigation.tsx:231 | the menu button flips the expansion |
| Navigation.OrbitalNavigation.DesktopClick | components/portfolio/orbital-navigation.tsx:158 | a desktop click navigates to the item's id and leaves the expansion unchanged |
| Navigation.OrbitalNavigation.MobileClick | components/portfolio/orbital-navigation.tsx:213-216 | a mobile click navigates to the item's id and then collapses the menu |
| Navigation.ToggleTwiceRestores | components/portfolio/orbital-navigation.tsx:231 | two toggles restore the expansion |
| Experience.Ids | components/portfolio/experience-section.tsx:17-82 | one id per entry, in order |
| Experience.ExperiencesWellFormed | components/portfolio/experience-section.tsx:17-87 | the entry ids are unique, and the initial selection `clearline` is the first entry's id |
| Experience.BadgeLabel | components/portfolio/experience-section.tsx:185-189 | "Active" iff current, "Freelance" iff freelance, "Completed" iff past |
| Experience.CardDisplay | components/portfolio/experience-section.tsx:157-161 | a card is displayed as "block" iff it is the selected entry, otherwise "none" |
| Experience.IndicatorShown | components/portfolio/experience-section.tsx:136-141 | the indicator bar is drawn on a timeline button iff it is the selected entry |
| Experience.Displayed | components/portfolio/experience-section.tsx:136-161 | entry i's card shows iff its indicator bar shows iff it is the selected entry |
| Experience.ExactlyOneCardDisplayed | components/portfolio/experience-section.tsx:157-161 | exactly one card shows when the selection is an entry's id, otherwise none |
| Experience.ValidSelectionShowsOneCard | components/portfolio/experience-section.tsx:87-161 | under the section's invariant exactly one card shows |
| Experience.ExperienceSection.constructor | components/portfolio/experience-section.tsx:87 | the first entry starts selected |
| Experience.ExperienceSection.Select | components/portfolio/experience-section.tsx:128 | a timeline click selects that entry's id and nothing else changes |

## Left out

- Rendering is not modelled: JSX and SVG markup, Tailwind classes, framer-motion animations and `AnimatePresence` transitions. They only read the modelled state.
- Host scheduling is modelled as event methods only. `setTimeout`, `setInterval`, `IntersectionObserver`, `requestAnimationFrame`, resize listeners and `scrollIntoView` become method calls in the order the host delivers them. Timing, threshold geometry and smooth scrolling are not modelled.
- The observer cleanup in `app/page.tsx` unobserves its sections but never disconnects, and the effect re-subscribes on every `isLoading` change. Only the callback's effect on the active section is modelled.
- Page.ParseInt: covers leading white space, an optional sign, a `0x`/`0X` prefix and a digit run. JavaScript number rounding for very long digit runs is not modelled, because key texts are short.
- Canvas drawing is not modelled: `fillRect`, `arc`, `fill` and radial gradients are graphics calls. Only the particle update and the dot alpha and glow radius it draws with are modelled.
- Stars.StarField.constructor: when the effect returns early (no canvas or no 2D context), the canvas keeps its default HTML size, which the model records as 0 × 0 because nothing reads it.
- Stars.StarField.Frame: each star's two random draws come from two per-star sequences rather than one interleaved stream. Any values in [0, 1) are allowed, so the set of behaviours is the same.
- Floating-point arithmetic is modelled as exact real arithmetic (`real`). Canvas sizes are naturals, as the canvas stores them.
- Trigonometric positions are left out: the `Math.cos`/`Math.sin` angles in the skills views, the loading flag's stars and the hero scene are floating-point graphics. Only the radius, size and index arithmetic is modelled.
- `hero-3d-scene.tsx` is left out apart from the orbit-radius clamp: its WebGL scene, camera easing and particle buffers are graphics.
- The `onComplete` identity change that re-runs the `LoadingSequence` effect is not modelled, because no component in the repository renders `LoadingSequence`.
- The contact, education and projects sections and the app layout hold static content and markup, and are not part of this model.
- Hover highlighting inside the 3D scene (`useFrame` mesh scaling) is rendering and is not modelled.
