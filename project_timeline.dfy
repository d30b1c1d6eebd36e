/** The freelancer's project timeline (ProjectTimeline.jsx): the active
    projects, the one selected in the drop-down, its deadline countdown and
    badge, and its milestones, which can be added and ticked off. */
module ProjectTimeline {
  import opened Js
  import opened Seqs
  import opened FreelancerProjects

  const LoadFailedMessage := "Failed to load projects"
  const AddFailedMessage := "Failed to add milestone"
  const UpdateFailedMessage := "Failed to update milestone"

  /** Milliseconds in a day: 1000 * 60 * 60 * 24. */
  const DayMs := 86400000

  /** The `newMilestone` form. */
  datatype MilestoneDraft = MilestoneDraft(title: string, dueDate: string, description: string)

  const EmptyMilestoneDraft := MilestoneDraft("", "", "")

  /** The position of the first project whose `_id` is `selected`, or -1. */
  function SelectedIndex(projects: seq<Project>, selected: Key): (k: int)
    ensures -1 <= k < |projects|
    ensures k >= 0 ==> projects[k]._id == selected && forall j :: 0 <= j < k ==> projects[j]._id != selected
    ensures k == -1 <==> forall j :: 0 <= j < |projects| ==> projects[j]._id != selected
  {
    if projects == [] then -1
    else if projects[0]._id == selected then 0
    else
      var k := SelectedIndex(projects[1..], selected);
      if k == -1 then -1 else k + 1
  }

  /** `currentProject`: the first project whose `_id` is the selected key;
      `None` stands for the empty record `{}` used when none matches. */
  function CurrentProject(projects: seq<Project>, selected: Key): (r: Option<Project>)
    ensures r.None? <==> forall j :: 0 <= j < |projects| ==> projects[j]._id != selected
    ensures r.Some? ==> r.value._id == selected
    ensures r.Some? ==> exists k :: 0 <= k < |projects| && projects[k] == r.value
                                   && forall j :: 0 <= j < k ==> projects[j]._id != selected
  {
    var k := SelectedIndex(projects, selected);
    if k == -1 then None else Some(projects[k])
  }

  /** Two lists whose projects carry the same `_id`s, position by position. */
  predicate SameIds(p: seq<Project>, q: seq<Project>) {
    |p| == |q| && forall i :: 0 <= i < |p| ==> p[i]._id == q[i]._id
  }

  /** The selection lands on the same position in lists with the same
      `_id`s. */
  lemma SelectedIndexSameIds(p: seq<Project>, q: seq<Project>, selected: Key)
    requires SameIds(p, q)
    ensures SelectedIndex(p, selected) == SelectedIndex(q, selected)
  {
  }

  /** After a fetch the first project is selected, and it is the current
      project. */
  lemma FirstProjectIsCurrent(projects: seq<Project>)
    requires |projects| > 0
    ensures CurrentProject(projects, projects[0]._id) == Some(projects[0])
  {
  }

  /** `Math.ceil(a / b)` for a positive `b`. */
  function CeilDiv(a: int, b: int): (r: int)
    requires b > 0
    ensures (r - 1) * b < a <= r * b
  {
    if a % b == 0 then a / b else a / b + 1
  }

  /** `daysRemaining`: the whole days, rounded up, from `now` to the
      deadline of the current project; 0 when there is no current project
      or it has no deadline. */
  function DaysRemaining(current: Option<Project>, now: int): (d: int)
    ensures current.None? || current.value.deadline.None? ==> d == 0
    ensures current.Some? && current.value.deadline.Some? ==>
              var left := current.value.deadline.value - now;
              (d - 1) * DayMs < left <= d * DayMs
  {
    if current.Some? && current.value.deadline.Some? then CeilDiv(current.value.deadline.value - now, DayMs)
    else 0
  }

  datatype BadgeColor = Green | Yellow | Red

  /** The badge colour: green above 7 days, yellow above 3, red otherwise. */
  function Badge(days: int): (c: BadgeColor)
    ensures c == Green <==> days > 7
    ensures c == Yellow <==> 3 < days <= 7
    ensures c == Red <==> days <= 3
  {
    if days > 7 then Green else if days > 3 then Yellow else Red
  }

  datatype DeadlineLabel = DaysLeft(days: int) | DeadlinePassed

  /** The badge text: "N days remaining" for a positive count, otherwise
      "Deadline passed". */
  function Label(days: int): (l: DeadlineLabel)
    ensures l.DaysLeft? <==> days > 0
    ensures l.DaysLeft? ==> l.days == days
  {
    if days > 0 then DaysLeft(days) else DeadlinePassed
  }

  /** In terms of the time left: the badge is green exactly when more than
      seven days remain, yellow when more than three and at most seven,
      red otherwise; the deadline reads as passed exactly when no time is
      left. */
  lemma BadgeByTimeLeft(p: Project, now: int)
    requires p.deadline.Some?
    ensures var d := DaysRemaining(Some(p), now);
            var left := p.deadline.value - now;
            (Badge(d) == Green <==> left > 7 * DayMs)
            && (Badge(d) == Yellow <==> 3 * DayMs < left <= 7 * DayMs)
            && (Badge(d) == Red <==> left <= 3 * DayMs)
            && (Label(d) == DeadlinePassed <==> left <= 0)
  {
    var d := DaysRemaining(Some(p), now);
    var left := p.deadline.value - now;
    assert (d - 1) * DayMs < left <= d * DayMs;
    if d > 7 {
      assert (d - 1) * DayMs >= 7 * DayMs;
    } else {
      assert d * DayMs <= 7 * DayMs;
    }
    if d > 3 {
      assert (d - 1) * DayMs >= 3 * DayMs;
    } else {
      assert d * DayMs <= 3 * DayMs;
    }
    if d > 0 {
      assert (d - 1) * DayMs >= 0;
    } else {
      assert d * DayMs <= 0;
    }
  }

  /** A project without a deadline, or no matching project, shows a red
      "Deadline passed" badge. */
  lemma NoDeadlineReadsPassed(current: Option<Project>, now: int)
    requires current.None? || current.value.deadline.None?
    ensures Badge(DaysRemaining(current, now)) == Red
    ensures Label(DaysRemaining(current, now)) == DeadlinePassed
  {
  }

  /** The milestone list after appending `m`: a list that was not an array
      becomes `[m]`. */
  function Appended(ms: Milestones, m: Milestone): (r: seq<Milestone>)
    ensures ms.Items? ==> r == ms.items + [m]
    ensures ms.NotAList? ==> r == [m]
  {
    match ms
    case Items(items) => items + [m]
    case NotAList => [m]
  }

  /** The state change of `addMilestone`: the returned milestone `m` is
      appended to every project whose `_id` is the selected key. */
  function WithMilestoneAdded(projects: seq<Project>, selected: Key, m: Milestone): (r: seq<Project>)
    ensures |r| == |projects| && SameIds(projects, r)
    ensures forall i :: 0 <= i < |r| && projects[i]._id == selected ==>
              r[i] == projects[i].(milestones := Items(Appended(projects[i].milestones, m)))
    ensures forall i :: 0 <= i < |r| && projects[i]._id != selected ==> r[i] == projects[i]
  {
    MapWhere(projects, (p: Project) => p._id == selected,
             (p: Project) => p.(milestones := Items(Appended(p.milestones, m))))
  }

  /** The current project shows the added milestone last, one more than
      before (a list that was not an array counted as none). */
  lemma AddedMilestoneShown(projects: seq<Project>, selected: Key, m: Milestone)
    requires CurrentProject(projects, selected).Some?
    ensures var before := CurrentProject(projects, selected).value;
            var after := CurrentProject(WithMilestoneAdded(projects, selected, m), selected);
            after.Some? && after.value.milestones.Items?
            && |after.value.milestones.items| == (if before.milestones.Items? then |before.milestones.items| else 0) + 1
            && after.value.milestones.items[|after.value.milestones.items| - 1] == m
            && after.value == before.(milestones := after.value.milestones)
  {
    var r := WithMilestoneAdded(projects, selected, m);
    SelectedIndexSameIds(projects, r, selected);
  }

  /** The milestones after `updateMilestone(milestoneId, { completed })`:
      every milestone with that `_id` takes the flag; a list that was not an
      array becomes empty. */
  function CompletedSet(ms: Milestones, milestoneId: Key, completed: bool): (r: seq<Milestone>)
    ensures ms.NotAList? ==> r == []
    ensures ms.Items? ==> |r| == |ms.items|
    ensures ms.Items? ==> forall i :: 0 <= i < |r| && ms.items[i]._id == milestoneId ==>
                                      r[i] == ms.items[i].(completed := completed)
    ensures ms.Items? ==> forall i :: 0 <= i < |r| && ms.items[i]._id != milestoneId ==> r[i] == ms.items[i]
  {
    match ms
    case NotAList => []
    case Items(items) =>
      MapWhere(items, (x: Milestone) => x._id == milestoneId, (x: Milestone) => x.(completed := completed))
  }

  /** The state change of `updateMilestone`, applied to every project whose
      `_id` is the selected key; other projects are unchanged. */
  function WithMilestoneCompleted(projects: seq<Project>, selected: Key, milestoneId: Key, completed: bool): (r: seq<Project>)
    ensures |r| == |projects| && SameIds(projects, r)
    ensures forall i :: 0 <= i < |r| && projects[i]._id == selected ==>
              r[i] == projects[i].(milestones := Items(CompletedSet(projects[i].milestones, milestoneId, completed)))
    ensures forall i :: 0 <= i < |r| && projects[i]._id != selected ==> r[i] == projects[i]
  {
    MapWhere(projects, (p: Project) => p._id == selected,
             (p: Project) => p.(milestones := Items(CompletedSet(p.milestones, milestoneId, completed))))
  }

  /** Every milestone of every selected project that has `_id` equal to
      `milestoneId` carries the flag `completed`, and the lists are
      arrays. */
  predicate FlagIs(projects: seq<Project>, selected: Key, milestoneId: Key, completed: bool) {
    forall i :: 0 <= i < |projects| && projects[i]._id == selected ==>
      projects[i].milestones.Items?
      && forall j :: 0 <= j < |projects[i].milestones.items| && projects[i].milestones.items[j]._id == milestoneId ==>
           projects[i].milestones.items[j].completed == completed
  }

  /** The toggle button of milestone `m` sends `completed: !m.completed`. */
  function Toggled(projects: seq<Project>, selected: Key, m: Milestone): seq<Project> {
    WithMilestoneCompleted(projects, selected, m._id, !m.completed)
  }

  /** One toggle flips the flag the page shows; a second click, on the
      milestone as re-rendered, puts the list back as it was. */
  lemma ToggleTwice(projects: seq<Project>, selected: Key, m: Milestone)
    requires FlagIs(projects, selected, m._id, m.completed)
    ensures FlagIs(Toggled(projects, selected, m), selected, m._id, !m.completed)
    ensures Toggled(Toggled(projects, selected, m), selected, m.(completed := !m.completed)) == projects
  {
    var once := Toggled(projects, selected, m);
    var twice := Toggled(once, selected, m.(completed := !m.completed));
    assert |twice| == |projects|;
    forall i | 0 <= i < |projects|
      ensures twice[i] == projects[i]
    {
      if projects[i]._id == selected {
        var ms := projects[i].milestones.items;
        var back := twice[i].milestones.items;
        assert |back| == |ms|;
        assert forall j :: 0 <= j < |ms| ==> back[j] == ms[j];
        assert back == ms;
      }
    }
  }

  /** The Add Milestone button is enabled when the draft has a title and a
      due date. */
  predicate AddEnabled(d: MilestoneDraft) {
    d.title != "" && d.dueDate != ""
  }

  /** What the page shows under the drop-down when a project is selected:
      the current project (if any), its countdown, badge and label. */
  datatype Summary = Summary(current: Option<Project>, days: int, badge: BadgeColor, text: DeadlineLabel)

  /** The state slots of the component. */
  class Timeline {
    var activeProjects: seq<Project>
    var selectedProject: Key
    var newMilestone: MilestoneDraft
    var loading: bool
    var error: Option<string>

    constructor ()
      ensures activeProjects == [] && selectedProject == Null && newMilestone == EmptyMilestoneDraft
      ensures loading && error == None
    {
      activeProjects := [];
      selectedProject := Null;
      newMilestone := EmptyMilestoneDraft;
      loading := true;
      error := None;
    }

    /** `fetchActiveProjects`: a reply sets the list (empty when the body
        is not an array), selects the first project if there is one and
        clears the error; a failure empties the list and sets the error.
        The selection is otherwise kept. Loading ends either way. */
    method FetchActiveProjects(reply: FetchReply)
      modifies this
      ensures !loading
      ensures reply.Replied? ==> activeProjects == ProjectsOf(reply.list) && error == None
      ensures reply.Replied? && |activeProjects| > 0 ==> selectedProject == activeProjects[0]._id
      ensures reply.Replied? && |activeProjects| > 0 ==> CurrentProject(activeProjects, selectedProject) == Some(activeProjects[0])
      ensures reply.RequestFailed? ==> activeProjects == [] && error == Some(LoadFailedMessage)
      ensures (reply.RequestFailed? || activeProjects == []) ==> selectedProject == old(selectedProject)
      ensures newMilestone == old(newMilestone)
    {
      loading := true;
      match reply {
        case Replied(list) =>
          var projects := ProjectsOf(list);
          activeProjects := projects;
          if |projects| > 0 {
            selectedProject := projects[0]._id;
            FirstProjectIsCurrent(projects);
          }
          error := None;
        case RequestFailed =>
          error := Some(LoadFailedMessage);
          activeProjects := [];
      }
      loading := false;
    }

    /** Choosing an option of the drop-down: the key becomes its text. */
    method SelectProject(value: string)
      modifies this
      ensures selectedProject == Str(value)
      ensures activeProjects == old(activeProjects) && newMilestone == old(newMilestone)
      ensures loading == old(loading) && error == old(error)
    {
      selectedProject := Str(value);
    }

    method EditDraft(title: string, dueDate: string, description: string)
      modifies this
      ensures newMilestone == MilestoneDraft(title, dueDate, description)
      ensures activeProjects == old(activeProjects) && selectedProject == old(selectedProject)
      ensures loading == old(loading) && error == old(error)
    {
      newMilestone := MilestoneDraft(title, dueDate, description);
    }

    /** `addMilestone`: the milestone the server returns (`None` when the
        request fails) is appended to the selected project and the draft is
        cleared; a failure sets the error and keeps the draft. */
    method AddMilestone(response: Option<Milestone>)
      modifies this
      ensures response.Some? ==> activeProjects == WithMilestoneAdded(old(activeProjects), selectedProject, response.value)
                                 && newMilestone == EmptyMilestoneDraft && error == old(error)
      ensures response.None? ==> activeProjects == old(activeProjects) && newMilestone == old(newMilestone)
                                 && error == Some(AddFailedMessage)
      ensures selectedProject == old(selectedProject) && loading == old(loading)
    {
      match response {
        case Some(m) =>
          activeProjects := WithMilestoneAdded(activeProjects, selectedProject, m);
          newMilestone := EmptyMilestoneDraft;
        case None =>
          error := Some(AddFailedMessage);
      }
    }

    /** `updateMilestone(milestoneId, { completed })`. */
    method UpdateMilestone(milestoneId: Key, completed: bool, succeeded: bool)
      modifies this
      ensures succeeded ==> activeProjects == WithMilestoneCompleted(old(activeProjects), selectedProject, milestoneId, completed)
                            && error == old(error)
      ensures !succeeded ==> activeProjects == old(activeProjects) && error == Some(UpdateFailedMessage)
      ensures selectedProject == old(selectedProject) && newMilestone == old(newMilestone) && loading == old(loading)
    {
      if succeeded {
        activeProjects := WithMilestoneCompleted(activeProjects, selectedProject, milestoneId, completed);
      } else {
        error := Some(UpdateFailedMessage);
      }
    }

    /** The toggle button of milestone `m`. */
    method ToggleMilestone(m: Milestone, succeeded: bool)
      modifies this
      ensures succeeded ==> activeProjects == Toggled(old(activeProjects), selectedProject, m) && error == old(error)
      ensures !succeeded ==> activeProjects == old(activeProjects) && error == Some(UpdateFailedMessage)
      ensures selectedProject == old(selectedProject) && newMilestone == old(newMilestone) && loading == old(loading)
    {
      UpdateMilestone(m._id, !m.completed, succeeded);
    }

    /** The project summary at clock reading `now`. It is shown only when
        the page renders its content (not loading, no error set) and the
        selected key is truthy. */
    method ShowSummary(now: int) returns (s: Option<Summary>)
      ensures s.Some? <==> !loading && !Present(error) && KeyTruthy(selectedProject)
      ensures s.Some? ==> s.value.current == CurrentProject(activeProjects, selectedProject)
      ensures s.Some? ==> s.value.days == DaysRemaining(s.value.current, now)
      ensures s.Some? ==> s.value.badge == Badge(s.value.days) && s.value.text == Label(s.value.days)
    {
      if !loading && !Present(error) && KeyTruthy(selectedProject) {
        var current := CurrentProject(activeProjects, selectedProject);
        var days := DaysRemaining(current, now);
        s := Some(Summary(current, days, Badge(days), Label(days)));
      } else {
        s := None;
      }
    }
  }

  /** Only `fetchActiveProjects` clears the error, so after a failed "Add
      Milestone" the page shows the error box instead of the selector and
      the summary until it is mounted again. */
  method FailedAddHidesSummary(reply: FetchReply, now: int) returns (s: Option<Summary>)
    ensures s == None
  {
    var page := new Timeline();
    page.FetchActiveProjects(reply);
    page.AddMilestone(None);
    s := page.ShowSummary(now);
  }
}
