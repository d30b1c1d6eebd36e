/** The project record the three freelancer project views (ProjectsOverview,
    ProjectManagement, ProjectTimeline) receive from the server, and the
    operations on it they share: the status update by `_id` and the status
    label. */
module FreelancerProjects {
  import opened Js

  /** A milestone of the timeline. A missing `completed` reads as false. */
  datatype Milestone = Milestone(_id: Key, title: string, dueDate: string, description: string, completed: bool)

  /** `project.milestones`, which need not be a list. */
  datatype Milestones = NotAList | Items(items: seq<Milestone>)

  /** A project as the server sends it. `deadline` is the instant the
      deadline text denotes, in milliseconds. */
  datatype Project = Project(
    _id: Key,
    id: Key,
    title: Option<string>,
    status: Option<string>,
    deadline: Option<int>,
    milestones: Milestones)

  /** The outcome of a request for the project list: a failed request,
      or a reply whose body is the list (`None` when it is not an array). */
  datatype FetchReply = RequestFailed | Replied(list: Option<seq<Project>>)

  /** `Array.isArray(response.data) ? response.data : []`. */
  function ProjectsOf(list: Option<seq<Project>>): (r: seq<Project>)
    ensures list.Some? ==> r == list.value
    ensures list.None? ==> r == []
  {
    SeqOr(list, [])
  }

  /** `projects.map(p => p._id === projectId ? { ...p, status } : p)`. */
  function SetStatus(projects: seq<Project>, projectId: Key, status: string): (r: seq<Project>)
    ensures |r| == |projects|
    ensures forall i :: 0 <= i < |r| && projects[i]._id == projectId ==> r[i] == projects[i].(status := Some(status))
    ensures forall i :: 0 <= i < |r| && projects[i]._id != projectId ==> r[i] == projects[i]
  {
    if projects == [] then []
    else
      var p := projects[0];
      [if p._id == projectId then p.(status := Some(status)) else p] + SetStatus(projects[1..], projectId, status)
  }

  /** The position of the first `c` in `s`. */
  function FirstIndex(s: string, c: char): (k: nat)
    requires c in s
    ensures k < |s| && s[k] == c && c !in s[..k]
  {
    if s[0] == c then 0
    else
      var k := FirstIndex(s[1..], c);
      assert s[..k + 1] == [s[0]] + s[1..][..k];
      k + 1
  }

  /** `s.replace('-', ' ')` with a string pattern: only the first dash
      becomes a space. */
  function ReplaceFirstDash(s: string): (r: string)
    ensures |r| == |s|
    ensures '-' !in s ==> r == s
    ensures forall k :: 0 <= k < |s| && s[k] == '-' && '-' !in s[..k] ==> r == s[..k] + " " + s[k + 1..]
  {
    if '-' !in s then s
    else
      var k := FirstIndex(s, '-');
      s[..k] + " " + s[k + 1..]
  }

  /** "in-progress" reads "in progress"; a status with two dashes keeps
      the second one. */
  lemma StatusLabelExamples()
    ensures ReplaceFirstDash("in-progress") == "in progress"
    ensures ReplaceFirstDash("on-hold-now") == "on hold-now"
  {
    var a := "in-progress";
    assert a[2] == '-' && a[..2] == "in" && '-' !in a[..2];
    assert a[..2] + " " + a[3..] == "in progress";
    var b := "on-hold-now";
    assert b[2] == '-' && b[..2] == "on" && '-' !in b[..2];
    assert b[..2] + " " + b[3..] == "on hold-now";
  }
}
