/**
 * The portfolio gallery (components/Portfolio.tsx): the fixed project list,
 * the category filter chosen by three tabs, and the aspect-ratio rule each
 * tile applies.
 */
module Portfolio {

  datatype Project = Project(id: int, title: string, category: string, image: string, size: string)

  /** `projects`: six entries, in display order. */
  const Projects: seq<Project> := [
    Project(1, "Obsidian Loft", "Residential",
            "https://images.unsplash.com/photo-1586023492125-27b2c045efd7?q=80&w=2158&auto=format&fit=crop", "tall"),
    Project(2, "Gilded Lounge", "Commercial",
            "https://images.unsplash.com/photo-1600566753376-12c8ab7fb75b?q=80&w=2670&auto=format&fit=crop", "short"),
    Project(3, "Matte Kitchen", "Residential",
            "https://images.unsplash.com/photo-1600585154340-be6161a56a0c?q=80&w=2670&auto=format&fit=crop", "short"),
    Project(4, "Stone Bath", "Residential",
            "https://images.unsplash.com/photo-1552321554-5fefe8c9ef14?q=80&w=2658&auto=format&fit=crop", "tall"),
    Project(5, "The Onyx Hall", "Commercial",
            "https://images.unsplash.com/photo-1519710164239-da123dc03ef4?q=80&w=2600&auto=format&fit=crop", "tall"),
    Project(6, "Minimal Study", "Residential",
            "https://images.unsplash.com/photo-1595526114035-0d45ed16cfbf?q=80&w=2670&auto=format&fit=crop", "short")
  ]

  const AllFilter := "All"

  /** `useState<string>('All')` */
  const InitialFilter := AllFilter

  /** The labels of the three filter tabs, each of which sets the filter to itself. */
  const FilterTabs: seq<string> := [AllFilter, "Residential", "Commercial"]

  /** xs keeps some of ys's elements, in ys's order. */
  predicate IsSubsequence(xs: seq<Project>, ys: seq<Project>)
    decreases |ys|
  {
    if xs == [] then true
    else if ys == [] then false
    else if xs[0] == ys[0] then IsSubsequence(xs[1..], ys[1..])
    else IsSubsequence(xs, ys[1..])
  }

  /** `ps.filter(project => project.category === c)` */
  function Filter(ps: seq<Project>, c: string): seq<Project>
    decreases |ps|
  {
    if ps == [] then []
    else if ps[0].category == c then [ps[0]] + Filter(ps[1..], c)
    else Filter(ps[1..], c)
  }

  /**
   * The filter keeps exactly the projects of category c, each as often as
   * it occurs, in their original order, and never more than it was given.
   */
  lemma {:induction false} FilterKeepsCategory(ps: seq<Project>, c: string)
    ensures |Filter(ps, c)| <= |ps|
    ensures IsSubsequence(Filter(ps, c), ps)
    ensures forall p :: p in Filter(ps, c) <==> p in ps && p.category == c
    ensures forall p :: multiset(Filter(ps, c))[p] == if p.category == c then multiset(ps)[p] else 0
    decreases |ps|
  {
    if ps != [] {
      FilterKeepsCategory(ps[1..], c);
      assert ps == [ps[0]] + ps[1..];
      if ps[0].category == c {
        var r := Filter(ps, c);
        assert r[0] == ps[0] && r[1..] == Filter(ps[1..], c);
      }
    }
  }

  /** `filteredProjects`: every project for 'All', otherwise one category. */
  function FilteredProjects(activeFilter: string): (r: seq<Project>)
    ensures activeFilter == AllFilter ==> r == Projects
    ensures |r| <= 6
    ensures IsSubsequence(r, Projects)
    ensures activeFilter != AllFilter ==> forall p :: p in r <==> p in Projects && p.category == activeFilter
  {
    if activeFilter == AllFilter then (SubsequenceOfSelf(Projects); Projects)
    else (FilterKeepsCategory(Projects, activeFilter); Filter(Projects, activeFilter))
  }

  /** The gallery opens on 'All', which shows the whole list. */
  lemma InitialFilterShowsAll()
    ensures FilteredProjects(InitialFilter) == Projects
  {
  }

  lemma {:induction false} SubsequenceOfSelf(ps: seq<Project>)
    ensures IsSubsequence(ps, ps)
    decreases |ps|
  {
    if ps != [] {
      SubsequenceOfSelf(ps[1..]);
    }
  }

  /** The ids a list of tiles is keyed by, in display order. */
  function Ids(ps: seq<Project>): seq<int> {
    seq(|ps|, i requires 0 <= i < |ps| => ps[i].id)
  }

  /** What the 'Residential' filter keeps of the list. */
  lemma ResidentialFilter()
    ensures Filter(Projects, "Residential") == [Projects[0], Projects[2], Projects[3], Projects[5]]
    ensures Ids(Filter(Projects, "Residential")) == [1, 3, 4, 6]
  {
  }

  /** The 'Residential' tab shows ids 1, 3, 4 and 6. */
  lemma ResidentialTab()
    ensures Ids(FilteredProjects("Residential")) == [1, 3, 4, 6]
  {
    ResidentialFilter();
  }

  /** What the 'Commercial' filter keeps of the list. */
  lemma CommercialFilter()
    ensures Filter(Projects, "Commercial") == [Projects[1], Projects[4]]
    ensures Ids(Filter(Projects, "Commercial")) == [2, 5]
  {
  }

  /** The 'Commercial' tab shows ids 2 and 5. */
  lemma CommercialTab()
    ensures Ids(FilteredProjects("Commercial")) == [2, 5]
  {
    CommercialFilter();
  }

  /**
   * When every project is of category a or b, filtering by a and by b
   * splits the list: together they hold each project exactly as often.
   */
  lemma {:induction false} FilterSplits(ps: seq<Project>, a: string, b: string)
    requires a != b
    requires forall p :: p in ps ==> p.category == a || p.category == b
    ensures multiset(Filter(ps, a)) + multiset(Filter(ps, b)) == multiset(ps)
    decreases |ps|
  {
    if ps != [] {
      FilterSplits(ps[1..], a, b);
      assert ps == [ps[0]] + ps[1..];
    }
  }

  /** The 'Residential' and 'Commercial' tabs together show what 'All' shows. */
  lemma CategoryTabsSplitAll()
    ensures multiset(FilteredProjects(FilterTabs[1])) + multiset(FilteredProjects(FilterTabs[2]))
         == multiset(FilteredProjects(FilterTabs[0]))
  {
    FilterSplits(Projects, "Residential", "Commercial");
  }

  /** Project ids are distinct, so they serve as render keys. */
  lemma IdsUnique()
    ensures forall i, j :: 0 <= i < j < |Projects| ==> Projects[i].id != Projects[j].id
  {
  }

  /** `aspectRatioClass`: portrait for 'tall' tiles, landscape for every other size. */
  function AspectRatioClass(p: Project): (c: string)
    ensures c == "aspect-[3/4]" <==> p.size == "tall"
    ensures c == "aspect-[4/3]" <==> p.size != "tall"
  {
    if p.size == "tall" then "aspect-[3/4]" else "aspect-[4/3]"
  }

  /** Projects 1, 4 and 5 are portrait tiles; 2, 3 and 6 landscape. */
  lemma PortraitTiles()
    ensures forall i :: 0 <= i < |Projects| ==>
              (AspectRatioClass(Projects[i]) == "aspect-[3/4]" <==> Projects[i].id in {1, 4, 5})
  {
  }
}
