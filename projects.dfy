/**
 * The portfolio projects: a constant list standing in for the content service, looked
 * up by id, by the featured flag and by category.
 */
module Projects {
  import opened Wrappers

  /** `Project`, with the fields the queries read and a few that identify it. */
  datatype Project = Project(id: string, title: string, year: int, category: string, featured: bool, status: string)

  /** `mockProjects`. */
  const MockProjects: seq<Project> := [
    Project("1", "The Dark Knight", 2008, "film", true, "completed"),
    Project("2", "Stranger Things", 2023, "television", true, "completed")]

  /** `a` is `b` with some elements left out, the rest kept in order. */
  predicate IsSubsequence(a: seq<Project>, b: seq<Project>)
    decreases |b|
  {
    if a == [] then true
    else if b == [] then false
    else if a[0] == b[0] then IsSubsequence(a[1..], b[1..])
    else IsSubsequence(a, b[1..])
  }

  /** `Array.prototype.find` by id: the first project with that id. */
  function FindById(projects: seq<Project>, id: string): (r: Option<Project>)
    ensures r.None? <==> forall k :: 0 <= k < |projects| ==> projects[k].id != id
    ensures r.Some? ==> r.value.id == id
    ensures r.Some? ==> exists k :: 0 <= k < |projects| && projects[k] == r.value &&
                                    forall j :: 0 <= j < k ==> projects[j].id != id
    decreases |projects|
  {
    if projects == [] then None
    else if projects[0].id == id then Some(projects[0])
    else
      var r := FindById(projects[1..], id);
      assert forall k :: 0 < k < |projects| ==> projects[k] == projects[1..][k - 1];
      r
  }

  /** `Array.prototype.filter`. */
  function Filter(projects: seq<Project>, keep: Project -> bool): (r: seq<Project>)
    ensures forall p :: p in r <==> p in projects && keep(p)
    ensures IsSubsequence(r, projects)
    decreases |projects|
  {
    if projects == [] then []
    else if keep(projects[0]) then [projects[0]] + Filter(projects[1..], keep)
    else Filter(projects[1..], keep)
  }

  /** On one project the filter keeps it exactly when the predicate holds. */
  lemma FilterOne(p: Project, keep: Project -> bool)
    ensures Filter([p], keep) == if keep(p) then [p] else []
  {
    assert [p][1..] == [];
  }

  /** Filtering a concatenation filters each part and keeps them in order, duplicates included. */
  lemma {:induction false} FilterAppend(a: seq<Project>, b: seq<Project>, keep: Project -> bool)
    ensures Filter(a + b, keep) == Filter(a, keep) + Filter(b, keep)
    decreases |a|
  {
    if a == [] {
      assert a + b == b;
    } else {
      assert (a + b)[0] == a[0];
      assert (a + b)[1..] == a[1..] + b;
      FilterAppend(a[1..], b, keep);
    }
  }

  /** `getProjects`. */
  function GetProjects(): seq<Project> {
    MockProjects
  }

  /** `getProjectById`: the project, or `null`. */
  function GetProjectById(id: string): Option<Project> {
    FindById(GetProjects(), id)
  }

  /** `getFeaturedProjects`. */
  function GetFeaturedProjects(): seq<Project> {
    Filter(GetProjects(), (p: Project) => p.featured)
  }

  /** `getProjectsByCategory`. */
  function GetProjectsByCategory(category: string): seq<Project> {
    Filter(GetProjects(), (p: Project) => p.category == category)
  }

  /** The category query keeps exactly the projects of that category, in their order. */
  lemma CategoryQuery(category: string)
    ensures forall p :: p in GetProjectsByCategory(category) <==> p in GetProjects() && p.category == category
    ensures IsSubsequence(GetProjectsByCategory(category), GetProjects())
  {
  }

  /** The two sample projects are both featured, one film and one series. */
  lemma SampleQueries()
    ensures GetProjectById("1") == Some(MockProjects[0])
    ensures GetProjectById("3") == None
    ensures GetFeaturedProjects() == MockProjects
    ensures GetProjectsByCategory("film") == [MockProjects[0]]
    ensures GetProjectsByCategory("theater") == []
  {
    assert MockProjects[1..] == [MockProjects[1]];
  }
}
