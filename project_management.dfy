/** The freelancer's project management page (ProjectManagement.jsx): the
    same three tabs as the projects overview, without its guard for a
    missing status, and a Complete button keyed by `_id`.

    The file never imports `axios`, so both requests throw a ReferenceError
    that their own `catch` swallows: the list is never loaded and no status
    is ever changed. The handlers are modelled as they behave; the update
    they would have applied is `FreelancerProjects.SetStatus`. */
module ProjectManagement {
  import opened Js
  import opened Seqs
  import opened FreelancerProjects
  import ProjectsOverview

  /** `filteredProjects`: the Active tab holds the projects in progress,
      Upcoming and Completed the projects with that status, and any other
      filter name every project, with or without a status. */
  predicate InTab(p: Project, filter: string) {
    if filter == "active" then p.status == Some("in-progress")
    else if filter == "upcoming" then p.status == Some("upcoming")
    else if filter == "completed" then p.status == Some("completed")
    else true
  }

  function FilteredProjects(projects: seq<Project>, filter: string): (r: seq<Project>)
    ensures forall p :: p in r <==> p in projects && InTab(p, filter)
    ensures forall p :: multiset(r)[p] == if InTab(p, filter) then multiset(projects)[p] else 0
    ensures IsSubsequence(r, projects)
  {
    var keep := (p: Project) => InTab(p, filter);
    FilterCounts(projects, keep);
    Filter(projects, keep)
  }

  /** On the three tabs the page offers, the unguarded filter selects
      exactly what the overview's guarded one does; they part only on
      other filter names, where this page also keeps projects without a
      status. */
  lemma SameTabsAsOverview(p: Project, filter: string)
    ensures filter in ["active", "upcoming", "completed"] ==> (InTab(p, filter) <==> ProjectsOverview.InTab(p, filter))
    ensures filter !in ["active", "upcoming", "completed"] ==>
              InTab(p, filter) && (ProjectsOverview.InTab(p, filter) <==> Present(p.status))
  {
  }

  /** The status badge, `project.status.replace('-', ' ')`: `None` when
      there is no status string and rendering the card throws. */
  function StatusLabel(status: Option<string>): (r: Option<string>)
    ensures r.None? <==> status.None?
    ensures status.Some? ==> r == Some(ReplaceFirstDash(status.value))
  {
    match status
    case None => None
    case Some(s) => Some(ReplaceFirstDash(s))
  }

  /** Every card listed under one of the three tabs renders its label, and
      where the overview shows a label too, the two agree. */
  lemma ShownCardsRender(projects: seq<Project>, filter: string, p: Project)
    requires filter in ["active", "upcoming", "completed"]
    requires p in FilteredProjects(projects, filter)
    ensures StatusLabel(p.status).Some?
    ensures StatusLabel(p.status).value == ProjectsOverview.StatusLabel(p.status)
  {
  }

  /** The Complete button is shown on projects in progress only. */
  predicate CompleteOffered(p: Project) {
    p.status == Some("in-progress")
  }

  /** Were the request to go through, completing a project in progress
      would move every project with its `_id` to the Completed tab and
      leave the others alone. */
  lemma CompleteMovesToCompleted(projects: seq<Project>, i: int)
    requires 0 <= i < |projects| && CompleteOffered(projects[i])
    ensures var r := SetStatus(projects, projects[i]._id, "completed");
            !InTab(r[i], "active") && InTab(r[i], "completed")
            && forall j :: 0 <= j < |projects| && projects[j]._id != projects[i]._id ==> r[j] == projects[j]
  {
  }

  /** The state slots of the component. */
  class Manager {
    var projects: seq<Project>
    var filter: string

    constructor ()
      ensures projects == [] && filter == "active"
    {
      projects := [];
      filter := "active";
    }

    /** `fetchProjects`: the request throws before it is sent, so the list
        stays as it was. */
    method FetchProjects()
      modifies this
      ensures projects == old(projects) && filter == old(filter)
    {
    }

    method SetFilter(name: string)
      modifies this
      ensures filter == name && projects == old(projects)
    {
      filter := name;
    }

    /** `updateProjectStatus`: the request throws before it is sent, so
        nothing changes. */
    method UpdateProjectStatus(projectId: Key, status: string)
      modifies this
      ensures projects == old(projects) && filter == old(filter)
    {
    }

    /** The projects listed under the current filter. */
    method Visible() returns (shown: seq<Project>)
      ensures shown == FilteredProjects(projects, filter)
      ensures projects == [] ==> shown == []
    {
      shown := FilteredProjects(projects, filter);
    }
  }
}
