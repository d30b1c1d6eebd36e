/** The freelancer's projects overview (ProjectsOverview.jsx): the project
    list loaded once, the Active / Upcoming / Completed tabs and the
    Complete button of a project in progress. */
module ProjectsOverview {
  import opened Js
  import opened Seqs
  import opened FreelancerProjects
  import opened Screens

  const LoadFailedMessage := "Failed to load projects"
  const UpdateFailedMessage := "Failed to update project status"

  /** `filteredProjects`: a project without a status is under no tab; the
      Active tab holds the projects in progress, Completed and Upcoming the
      projects with that status, and any other tab name every project that
      has a status. */
  predicate InTab(p: Project, tab: string) {
    if !Present(p.status) then false
    else if tab == "active" then p.status.value == "in-progress"
    else if tab == "completed" then p.status.value == "completed"
    else if tab == "upcoming" then p.status.value == "upcoming"
    else true
  }

  function FilteredProjects(projects: seq<Project>, tab: string): (r: seq<Project>)
    ensures forall p :: p in r <==> p in projects && InTab(p, tab)
    ensures forall p :: multiset(r)[p] == if InTab(p, tab) then multiset(projects)[p] else 0
    ensures IsSubsequence(r, projects)
  {
    var keep := (p: Project) => InTab(p, tab);
    FilterCounts(projects, keep);
    Filter(projects, keep)
  }

  /** The three tabs never share a project, and each shows exactly the
      projects carrying its status. */
  lemma TabsDisjoint(p: Project)
    ensures !(InTab(p, "active") && InTab(p, "completed"))
    ensures !(InTab(p, "active") && InTab(p, "upcoming"))
    ensures !(InTab(p, "completed") && InTab(p, "upcoming"))
    ensures InTab(p, "active") <==> p.status == Some("in-progress")
    ensures InTab(p, "completed") <==> p.status == Some("completed")
    ensures InTab(p, "upcoming") <==> p.status == Some("upcoming")
  {
  }

  /** The status badge: the status with its first dash turned into a
      space, or "unknown" when the status is missing or empty. */
  function StatusLabel(status: Option<string>): (r: string)
    ensures !Present(status) ==> r == "unknown"
    ensures Present(status) ==> r == ReplaceFirstDash(status.value)
  {
    if Present(status) then ReplaceFirstDash(status.value) else "unknown"
  }

  /** Every project under the Active tab is labelled "in progress". */
  lemma ActiveTabLabel(p: Project)
    requires InTab(p, "active")
    ensures StatusLabel(p.status) == "in progress"
  {
    StatusLabelExamples();
  }

  /** The Complete button is shown on projects in progress only. */
  predicate CompleteOffered(p: Project) {
    p.status == Some("in-progress")
  }

  /** The key the Complete button sends: `project._id || project.id`. */
  function CompleteKey(p: Project): (k: Key)
    ensures KeyTruthy(p._id) ==> k == p._id
    ensures !KeyTruthy(p._id) ==> k == p.id
  {
    KeyOr(p._id, p.id)
  }

  /** Completing a project in progress that has its own `_id` moves it from
      the Active tab to the Completed tab and leaves projects with other
      `_id`s alone. */
  lemma CompleteMovesToCompleted(projects: seq<Project>, i: int)
    requires 0 <= i < |projects| && CompleteOffered(projects[i]) && KeyTruthy(projects[i]._id)
    ensures var r := SetStatus(projects, CompleteKey(projects[i]), "completed");
            !InTab(r[i], "active") && InTab(r[i], "completed")
            && forall j :: 0 <= j < |projects| && projects[j]._id != projects[i]._id ==> r[j] == projects[j]
  {
  }

  /** A project known only by `id` is completed on the server, but the
      page matches the key against `_id` alone, so when no project has that
      `_id` the list on screen does not change. */
  lemma CompleteByIdNotShown(projects: seq<Project>, i: int)
    requires 0 <= i < |projects| && !KeyTruthy(projects[i]._id)
    requires forall j :: 0 <= j < |projects| ==> projects[j]._id != projects[i].id
    ensures SetStatus(projects, CompleteKey(projects[i]), "completed") == projects
  {
    var r := SetStatus(projects, CompleteKey(projects[i]), "completed");
    assert forall j :: 0 <= j < |r| ==> r[j] == projects[j];
  }

  /** The state slots of the component. */
  class Overview {
    var projects: seq<Project>
    var activeFilter: string
    var loading: bool
    var error: Option<string>

    constructor ()
      ensures projects == [] && activeFilter == "active" && loading && error == None
    {
      projects := [];
      activeFilter := "active";
      loading := true;
      error := None;
    }

    /** `fetchProjects`: a reply sets the list (empty when the body is not
        an array) and clears the error; a failure empties the list and sets
        the error. Loading ends either way. */
    method FetchProjects(reply: FetchReply)
      modifies this
      ensures !loading
      ensures reply.Replied? ==> projects == ProjectsOf(reply.list) && error == None
      ensures reply.RequestFailed? ==> projects == [] && error == Some(LoadFailedMessage)
      ensures activeFilter == old(activeFilter)
    {
      loading := true;
      match reply {
        case Replied(list) =>
          projects := ProjectsOf(list);
          error := None;
        case RequestFailed =>
          error := Some(LoadFailedMessage);
          projects := [];
      }
      loading := false;
    }

    method SetFilter(tab: string)
      modifies this
      ensures activeFilter == tab
      ensures projects == old(projects) && loading == old(loading) && error == old(error)
    {
      activeFilter := tab;
    }

    /** `updateProjectStatus(projectId, status)`: after a successful request
        the projects whose `_id` is `projectId` take the status; after a
        failure the page shows the error instead. */
    method UpdateProjectStatus(projectId: Key, status: string, succeeded: bool)
      modifies this
      ensures succeeded ==> projects == SetStatus(old(projects), projectId, status) && error == old(error)
      ensures !succeeded ==> projects == old(projects) && error == Some(UpdateFailedMessage)
      ensures activeFilter == old(activeFilter) && loading == old(loading)
    {
      if succeeded {
        projects := SetStatus(projects, projectId, status);
      } else {
        error := Some(UpdateFailedMessage);
      }
    }

    /** The Complete button of project `p`. */
    method CompleteProject(p: Project, succeeded: bool)
      requires CompleteOffered(p)
      modifies this
      ensures succeeded ==> projects == SetStatus(old(projects), CompleteKey(p), "completed") && error == old(error)
      ensures !succeeded ==> projects == old(projects) && error == Some(UpdateFailedMessage)
      ensures activeFilter == old(activeFilter) && loading == old(loading)
    {
      UpdateProjectStatus(CompleteKey(p), "completed", succeeded);
    }

    /** What the page renders: the spinner while loading, the error box
        while an error is set, and otherwise the projects under the current
        tab, each with a status. */
    method Visible() returns (v: Screen<seq<Project>>)
      ensures loading ==> v == Spinner
      ensures !loading && Present(error) ==> v == ErrorBox(error.value)
      ensures !loading && !Present(error) ==> v == Content(FilteredProjects(projects, activeFilter))
      ensures v.Content? ==> forall i :: 0 <= i < |v.view| ==> Present(v.view[i].status)
    {
      if loading {
        v := Spinner;
      } else if Present(error) {
        v := ErrorBox(error.value);
      } else {
        v := Content(FilteredProjects(projects, activeFilter));
      }
    }
  }

  /** Only `fetchProjects` clears the error, so one failed "Mark as
      Completed" replaces the whole page with the error box until the page
      is mounted again. */
  method FailedCompleteHidesProjects(reply: FetchReply, p: Project) returns (v: Screen<seq<Project>>)
    requires CompleteOffered(p)
    ensures v == ErrorBox(UpdateFailedMessage)
  {
    var page := new Overview();
    page.FetchProjects(reply);
    page.CompleteProject(p, false);
    v := page.Visible();
  }
}
