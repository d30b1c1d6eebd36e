/** The client dashboard (ClientDashBoard.jsx): the freelancer directory
    normalised from the server, its search and filters, the catalogue of
    skills offered, hiring by name, and the projects created through
    the project form. */
module ClientDashboard {
  import opened Js
  import opened Seqs
  import opened StringOrder
  import opened Screens
  import SkillTags
  import ProjectForm

  /** A freelancer record as the server sends it: every field but `_id`
      may be missing. Portfolio, education and experience entries are only
      passed through, so they are not part of the record. */
  datatype RawFreelancer = RawFreelancer(
    _id: Key,
    name: Option<string>,
    bio: Option<string>,
    skills: Option<seq<string>>,
    hourlyRate: Option<real>,
    rating: Option<real>,
    profileImage: Option<string>,
    availability: Option<string>,
    hiredBy: Option<seq<string>>)

  /** A freelancer record after normalisation. */
  datatype Freelancer = Freelancer(
    _id: Key,
    name: string,
    bio: string,
    skills: seq<string>,
    hourlyRate: real,
    rating: real,
    profileImage: string,
    availability: string,
    hiredBy: seq<string>)

  const UnknownName := "Unknown Freelancer"
  const DefaultAvailability := "full-time"

  /** The defaults of the fetch: a missing or empty name becomes
      "Unknown Freelancer", a missing availability "full-time", missing
      numbers 0 and missing lists empty. */
  function Normalize(raw: RawFreelancer): (f: Freelancer)
    ensures f._id == raw._id
    ensures f.name != ""
    ensures Present(raw.name) ==> f.name == raw.name.value
    ensures !Present(raw.name) ==> f.name == UnknownName
    ensures Present(raw.bio) ==> f.bio == raw.bio.value
    ensures !Present(raw.bio) ==> f.bio == ""
    ensures raw.skills.Some? ==> f.skills == raw.skills.value
    ensures raw.skills.None? ==> f.skills == []
    ensures raw.hourlyRate.Some? && raw.hourlyRate.value != 0.0 ==> f.hourlyRate == raw.hourlyRate.value
    ensures raw.hourlyRate.None? || raw.hourlyRate.value == 0.0 ==> f.hourlyRate == 0.0
    ensures raw.rating.Some? && raw.rating.value != 0.0 ==> f.rating == raw.rating.value
    ensures raw.rating.None? || raw.rating.value == 0.0 ==> f.rating == 0.0
    ensures Present(raw.profileImage) ==> f.profileImage == raw.profileImage.value
    ensures !Present(raw.profileImage) ==> f.profileImage == ""
    ensures f.availability != ""
    ensures Present(raw.availability) ==> f.availability == raw.availability.value
    ensures !Present(raw.availability) ==> f.availability == DefaultAvailability
    ensures raw.hiredBy.Some? ==> f.hiredBy == raw.hiredBy.value
    ensures raw.hiredBy.None? ==> f.hiredBy == []
  {
    Freelancer(
      raw._id,
      StrOr(raw.name, UnknownName),
      StrOr(raw.bio, ""),
      SeqOr(raw.skills, []),
      NumOr(raw.hourlyRate, 0.0),
      NumOr(raw.rating, 0.0),
      StrOr(raw.profileImage, ""),
      StrOr(raw.availability, DefaultAvailability),
      SeqOr(raw.hiredBy, []))
  }

  /** A normalised record sent back as it is. */
  function AsRaw(f: Freelancer): RawFreelancer {
    RawFreelancer(f._id, Some(f.name), Some(f.bio), Some(f.skills), Some(f.hourlyRate), Some(f.rating),
                  Some(f.profileImage), Some(f.availability), Some(f.hiredBy))
  }

  /** Normalising is idempotent: a normalised record passes through a
      second fetch unchanged. */
  lemma NormalizeIdempotent(raw: RawFreelancer)
    ensures Normalize(AsRaw(Normalize(raw))) == Normalize(raw)
  {
  }

  /** `response.data.map(...)`: one normalised record per record sent, in
      the same order. */
  function NormalizeAll(raws: seq<RawFreelancer>): (fs: seq<Freelancer>)
    ensures |fs| == |raws|
    ensures forall i :: 0 <= i < |raws| ==> fs[i] == Normalize(raws[i])
  {
    if raws == [] then [] else [Normalize(raws[0])] + NormalizeAll(raws[1..])
  }

  /** The search box, compared case-insensitively with the name and with
      each skill. */
  predicate MatchesSearch(f: Freelancer, searchTerm: string) {
    Contains(ToLower(f.name), ToLower(searchTerm))
    || exists k :: 0 <= k < |f.skills| && Contains(ToLower(f.skills[k]), ToLower(searchTerm))
  }

  /** The filter panel. `maxRate` comes from a range input with whole
      steps, `minRating` from one with steps of 0.1. */
  datatype Filters = Filters(skills: seq<string>, minRating: real, maxRate: real, availability: string)

  const InitialFilters := Filters([], 0.0, 100.0, "all")

  predicate MatchesFilters(f: Freelancer, filters: Filters) {
    f.rating >= filters.minRating
    && f.hourlyRate <= filters.maxRate
    && (|filters.skills| == 0 || forall k :: 0 <= k < |filters.skills| ==> filters.skills[k] in f.skills)
    && (filters.availability == "all" || f.availability == filters.availability)
  }

  predicate Matches(f: Freelancer, searchTerm: string, filters: Filters) {
    MatchesSearch(f, searchTerm) && MatchesFilters(f, filters)
  }

  /** `filteredFreelancers`: the freelancers that match, in directory
      order. */
  function FilteredFreelancers(freelancers: seq<Freelancer>, searchTerm: string, filters: Filters): (r: seq<Freelancer>)
    ensures forall i :: 0 <= i < |r| ==> Matches(r[i], searchTerm, filters)
    ensures forall f :: f in r <==> f in freelancers && Matches(f, searchTerm, filters)
    ensures forall f :: multiset(r)[f] == if Matches(f, searchTerm, filters) then multiset(freelancers)[f] else 0
    ensures IsSubsequence(r, freelancers)
  {
    var keep := (f: Freelancer) => Matches(f, searchTerm, filters);
    FilterCounts(freelancers, keep);
    Filter(freelancers, keep)
  }

  /** An empty search box matches every freelancer. */
  lemma EmptySearchMatchesAll(f: Freelancer)
    ensures MatchesSearch(f, "")
  {
    ContainsEmpty(ToLower(f.name));
  }

  /** After "Clear all filters" the directory still hides freelancers
      whose rate is above the initial cap of 100, and shows every other
      freelancer with a non-negative rating. */
  lemma ClearedFilters(freelancers: seq<Freelancer>, f: Freelancer)
    requires f in freelancers
    ensures f.hourlyRate > 100.0 ==> f !in FilteredFreelancers(freelancers, "", InitialFilters)
    ensures f.hourlyRate <= 100.0 && f.rating >= 0.0 ==> f in FilteredFreelancers(freelancers, "", InitialFilters)
  {
    EmptySearchMatchesAll(f);
  }

  /** Selecting one more skill can only narrow the directory. */
  lemma MoreSkillsNarrow(f: Freelancer, searchTerm: string, filters: Filters, skill: string)
    requires Matches(f, searchTerm, filters.(skills := filters.skills + [skill]))
    ensures Matches(f, searchTerm, filters)
    ensures skill in f.skills
  {
    var more := filters.skills + [skill];
    assert more[|filters.skills|] == skill;
    forall k | 0 <= k < |filters.skills| ensures filters.skills[k] in f.skills {
      assert more[k] == filters.skills[k];
    }
  }

  /** Some freelancer of the directory lists skill `s`. */
  predicate Offers(freelancers: seq<Freelancer>, s: string) {
    exists i :: 0 <= i < |freelancers| && s in freelancers[i].skills
  }

  /** `freelancers.flatMap(f => f.skills)`. */
  function FlatSkills(freelancers: seq<Freelancer>): (r: seq<string>)
    ensures forall s :: s in r <==> Offers(freelancers, s)
  {
    if freelancers == [] then []
    else
      var rest := FlatSkills(freelancers[1..]);
      assert forall s :: Offers(freelancers, s) <==> s in freelancers[0].skills || Offers(freelancers[1..], s) by {
        forall s | Offers(freelancers, s) ensures s in freelancers[0].skills || Offers(freelancers[1..], s) {
          var i :| 0 <= i < |freelancers| && s in freelancers[i].skills;
          if i > 0 {
            assert freelancers[1..][i - 1] == freelancers[i];
          }
        }
        forall s | Offers(freelancers[1..], s) ensures Offers(freelancers, s) {
          var i :| 0 <= i < |freelancers[1..]| && s in freelancers[1..][i].skills;
          assert freelancers[1..][i] == freelancers[i + 1];
        }
      }
      freelancers[0].skills + rest
  }

  /** `allSkills`: every skill some freelancer lists, once, in increasing
      order, whatever order the directory is in. */
  function AllSkills(freelancers: seq<Freelancer>): (r: seq<string>)
    ensures Sorted(r) && NoDuplicates(r)
    ensures forall s :: s in r <==> Offers(freelancers, s)
  {
    SortUnique(FlatSkills(freelancers))
  }

  /** Two directories listing the same skills give the same catalogue. */
  lemma AllSkillsOrderFree(a: seq<Freelancer>, b: seq<Freelancer>)
    requires forall s :: Offers(a, s) <==> Offers(b, s)
    ensures AllSkills(a) == AllSkills(b)
  {
    SortedUniqueness(AllSkills(a), AllSkills(b));
  }

  /** The answer to the hire request: the server's reply, or a failure
      carrying the server's message (if any) and the error's own message. */
  datatype HireResponse =
    | Replied(success: bool, message: Option<string>)
    | Failed(serverMessage: Option<string>, errorMessage: string)

  const NotFoundMessage := "Freelancer not found in local data"
  const HireFailedMessage := "Hiring failed. Please try again."

  /** The directory and the text of the alert shown. */
  datatype HireResult = HireResult(freelancers: seq<Freelancer>, alert: string)

  predicate Listed(freelancers: seq<Freelancer>, name: string) {
    exists i :: 0 <= i < |freelancers| && freelancers[i].name == name
  }

  /** `f.name === name ? { ...f, hiredBy: [...f.hiredBy, clientName] } : f`. */
  function RecordHire(freelancers: seq<Freelancer>, name: string, clientName: string): (r: seq<Freelancer>)
    ensures |r| == |freelancers|
    ensures forall i :: 0 <= i < |r| && freelancers[i].name == name ==>
              r[i] == freelancers[i].(hiredBy := freelancers[i].hiredBy + [clientName])
    ensures forall i :: 0 <= i < |r| && freelancers[i].name != name ==> r[i] == freelancers[i]
  {
    MapWhere(freelancers, (f: Freelancer) => f.name == name,
             (f: Freelancer) => f.(hiredBy := f.hiredBy + [clientName]))
  }

  /** `hireFreelancer(name)`: a name not in the directory, a refusal and a
      failed request leave the directory alone; an accepted hire adds the
      client's name to `hiredBy` of every freelancer with that name. The
      alert of an accepted hire shows the reply's message as it is (an
      empty one included, a missing one as "undefined"); a refusal shows
      the reply's message when it is non-empty and a fixed text otherwise;
      a failed request shows the first non-empty of the server's message,
      the error's message and that fixed text. */
  function HireOutcome(freelancers: seq<Freelancer>, name: string, clientName: string,
                          response: HireResponse): (r: HireResult)
    ensures !Listed(freelancers, name) ==> r == HireResult(freelancers, NotFoundMessage)
    ensures Listed(freelancers, name) && response.Replied? && response.success ==>
              r.freelancers == RecordHire(freelancers, name, clientName)
              && r.alert == (if response.message.Some? then response.message.value else "undefined")
    ensures Listed(freelancers, name) && response.Replied? && !response.success ==>
              r == HireResult(freelancers, StrOr(response.message, HireFailedMessage))
    ensures Listed(freelancers, name) && response.Failed? ==>
              r.freelancers == freelancers
              && r.alert == StrOr(response.serverMessage, if response.errorMessage != "" then response.errorMessage else HireFailedMessage)
  {
    if !Listed(freelancers, name) then HireResult(freelancers, NotFoundMessage)
    else match response
      case Replied(success, message) =>
        if success then
          HireResult(RecordHire(freelancers, name, clientName), if message.Some? then message.value else "undefined")
        else HireResult(freelancers, StrOr(message, HireFailedMessage))
      case Failed(serverMessage, errorMessage) =>
        HireResult(freelancers, StrOr(serverMessage, if errorMessage != "" then errorMessage else HireFailedMessage))
  }

  /** An accepted hire changes only `hiredBy` lists, and afterwards every
      freelancer with the name lists the client. */
  lemma HireRecordsClient(freelancers: seq<Freelancer>, name: string, clientName: string, message: Option<string>)
    requires Listed(freelancers, name)
    ensures var r := HireOutcome(freelancers, name, clientName, Replied(true, message)).freelancers;
            |r| == |freelancers|
            && (forall i :: 0 <= i < |r| ==> r[i].(hiredBy := freelancers[i].hiredBy) == freelancers[i])
            && (forall i :: 0 <= i < |r| && freelancers[i].name == name ==> clientName in r[i].hiredBy)
  {
    var r := HireOutcome(freelancers, name, clientName, Replied(true, message)).freelancers;
    forall i | 0 <= i < |r| && freelancers[i].name == name ensures clientName in r[i].hiredBy {
      var h := freelancers[i].hiredBy + [clientName];
      assert h[|h| - 1] == clientName;
    }
  }

  /** An accepted hire alerts the reply's message verbatim, so an empty
      message shows an empty alert; only a missing one reads "undefined". */
  lemma AcceptedHireAlert(freelancers: seq<Freelancer>, name: string, clientName: string)
    requires Listed(freelancers, name)
    ensures HireOutcome(freelancers, name, clientName, Replied(true, Some(""))).alert == ""
    ensures HireOutcome(freelancers, name, clientName, Replied(true, None)).alert == "undefined"
  {
  }

  /** Hiring the same freelancer twice lists the client twice: accepted
      hires are not de-duplicated. */
  lemma HireTwice(freelancers: seq<Freelancer>, i: int, clientName: string)
    requires 0 <= i < |freelancers|
    ensures var name := freelancers[i].name;
            var once := HireOutcome(freelancers, name, clientName, Replied(true, None)).freelancers;
            var twice := HireOutcome(once, name, clientName, Replied(true, None)).freelancers;
            twice[i].hiredBy == freelancers[i].hiredBy + [clientName, clientName]
  {
    var name := freelancers[i].name;
    var once := HireOutcome(freelancers, name, clientName, Replied(true, None)).freelancers;
    assert once[i].name == name;
    assert Listed(once, name);
    assert freelancers[i].hiredBy + [clientName] + [clientName] == freelancers[i].hiredBy + [clientName, clientName];
  }

  /** A project of the dashboard's list. */
  datatype ClientProject = ClientProject(
    title: string,
    description: string,
    skills: seq<string>,
    budget: string,
    deadline: string,
    status: string,
    id: Key,
    bidsCount: int)

  /** `handleCreateProject`: the submitted project gets a new id from the
      clock, status "open", no bids and the deadline rewritten as the
      locale's date text `deadlineText`. */
  function CreatedProject(p: ProjectForm.Submission, now: int, deadlineText: string): (r: ClientProject)
    ensures r.title == p.title && r.description == p.description && r.skills == p.skills && r.budget == p.budget
    ensures r.id == Num(now) && r.status == "open" && r.bidsCount == 0 && r.deadline == deadlineText
  {
    ClientProject(p.title, p.description, p.skills, p.budget, deadlineText, "open", Num(now), 0)
  }

  /** A draft submitted from the project form lands in the list with its
      title, description, skills and budget as typed. */
  lemma FormDraftBecomesProject(d: ProjectForm.Draft, submittedAt: int, createdAt: int, deadlineText: string)
    ensures var r := CreatedProject(ProjectForm.SubmissionOf(d, submittedAt), createdAt, deadlineText);
            r.title == d.title && r.description == d.description && r.skills == d.skills && r.budget == d.budget
            && r.status == "open" && r.bidsCount == 0
  {
  }

  /** The outcome of the directory request. A body that is not a list makes
      `.map` throw, which the handler treats like a failed request. */
  datatype FetchResult =
    | Fetched(records: seq<RawFreelancer>)
    | NotAList
    | RequestFailed(serverMessage: Option<string>)

  const FetchFailedMessage := "Failed to fetch freelancers"

  /** The state slots of the component. */
  class Dashboard {
    var activeTab: string
    var freelancers: seq<Freelancer>
    var loading: bool
    var error: Option<string>
    var projects: seq<ClientProject>
    var searchTerm: string
    var showFilters: bool
    var showProjectForm: bool
    var filters: Filters
    const currentUser: ProfileUser

    constructor ()
      ensures activeTab == "projects" && freelancers == [] && !loading && error == None && projects == []
      ensures searchTerm == "" && !showFilters && !showProjectForm && filters == InitialFilters
      ensures currentUser == ProfileUser("Client User", Str("client123"))
    {
      activeTab := "projects";
      freelancers := [];
      loading := false;
      error := None;
      projects := [];
      searchTerm := "";
      showFilters := false;
      showProjectForm := false;
      filters := InitialFilters;
      currentUser := ProfileUser("Client User", Str("client123"));
    }

    /** `fetchFreelancers`: a list replaces the directory and clears the
        error; a failure keeps the directory and sets the error. */
    method FetchFreelancers(result: FetchResult)
      modifies this
      ensures !loading
      ensures result.Fetched? ==> freelancers == NormalizeAll(result.records) && error == None
      ensures result.NotAList? ==> freelancers == old(freelancers) && error == Some(FetchFailedMessage)
      ensures result.RequestFailed? ==>
                freelancers == old(freelancers) && error == Some(StrOr(result.serverMessage, FetchFailedMessage))
      ensures activeTab == old(activeTab) && projects == old(projects) && searchTerm == old(searchTerm)
      ensures showFilters == old(showFilters) && showProjectForm == old(showProjectForm) && filters == old(filters)
    {
      loading := true;
      error := None;
      match result {
        case Fetched(records) =>
          freelancers := NormalizeAll(records);
        case NotAList =>
          error := Some(FetchFailedMessage);
        case RequestFailed(serverMessage) =>
          error := Some(StrOr(serverMessage, FetchFailedMessage));
      }
      loading := false;
    }

    /** The Hire button of a card, hiring on behalf of the signed-in
        client; returns the alert text. */
    method HireFreelancer(name: string, response: HireResponse) returns (alert: string)
      modifies this
      ensures var r := HireOutcome(old(freelancers), name, currentUser.name, response);
              freelancers == r.freelancers && alert == r.alert
      ensures activeTab == old(activeTab) && loading == old(loading) && error == old(error) && projects == old(projects)
      ensures searchTerm == old(searchTerm) && showFilters == old(showFilters) && showProjectForm == old(showProjectForm)
      ensures filters == old(filters)
    {
      var r := HireOutcome(freelancers, name, currentUser.name, response);
      freelancers := r.freelancers;
      alert := r.alert;
    }

    /** The tab buttons, the search box and the Filters toggle. */
    method Navigate(tab: string, term: string, toggleFilters: bool)
      modifies this
      ensures activeTab == tab && searchTerm == term
      ensures showFilters == (if toggleFilters then !old(showFilters) else old(showFilters))
      ensures freelancers == old(freelancers) && loading == old(loading) && error == old(error)
      ensures projects == old(projects) && showProjectForm == old(showProjectForm) && filters == old(filters)
    {
      activeTab := tab;
      searchTerm := term;
      if toggleFilters {
        showFilters := !showFilters;
      }
    }

    /** The skill list, the two sliders and the availability menu. */
    method SetFilters(skills: seq<string>, minRating: real, maxRate: real, availability: string)
      modifies this
      ensures filters == Filters(skills, minRating, maxRate, availability)
      ensures activeTab == old(activeTab) && freelancers == old(freelancers) && loading == old(loading)
      ensures error == old(error) && projects == old(projects) && searchTerm == old(searchTerm)
      ensures showFilters == old(showFilters) && showProjectForm == old(showProjectForm)
    {
      filters := Filters(skills, minRating, maxRate, availability);
    }

    /** The cross on a selected-skill chip. */
    method RemoveSkillChip(skill: string)
      modifies this
      ensures filters == old(filters).(skills := SkillTags.RemoveSkill(old(filters.skills), skill))
      ensures activeTab == old(activeTab) && freelancers == old(freelancers) && loading == old(loading)
      ensures error == old(error) && projects == old(projects) && searchTerm == old(searchTerm)
      ensures showFilters == old(showFilters) && showProjectForm == old(showProjectForm)
    {
      filters := filters.(skills := SkillTags.RemoveSkill(filters.skills, skill));
    }

    /** "Clear all filters". */
    method ClearAllFilters()
      modifies this
      ensures filters == InitialFilters && searchTerm == ""
      ensures activeTab == old(activeTab) && freelancers == old(freelancers) && loading == old(loading)
      ensures error == old(error) && projects == old(projects)
      ensures showFilters == old(showFilters) && showProjectForm == old(showProjectForm)
    {
      filters := InitialFilters;
      searchTerm := "";
    }

    /** The buttons that open and close the project form. */
    method ShowProjectForm(show: bool)
      modifies this
      ensures showProjectForm == show
      ensures activeTab == old(activeTab) && freelancers == old(freelancers) && loading == old(loading)
      ensures error == old(error) && projects == old(projects) && searchTerm == old(searchTerm)
      ensures showFilters == old(showFilters) && filters == old(filters)
    {
      showProjectForm := show;
    }

    /** `handleCreateProject`: one project is appended and the form
        closes. */
    method HandleCreateProject(p: ProjectForm.Submission, now: int, deadlineText: string)
      modifies this
      ensures projects == old(projects) + [CreatedProject(p, now, deadlineText)]
      ensures !showProjectForm
      ensures activeTab == old(activeTab) && freelancers == old(freelancers) && loading == old(loading)
      ensures error == old(error) && searchTerm == old(searchTerm)
      ensures showFilters == old(showFilters) && filters == old(filters)
    {
      projects := projects + [CreatedProject(p, now, deadlineText)];
      showProjectForm := false;
    }

    /** What the directory section renders: nothing outside the
        freelancers tab; on it the loading text while loading, the error
        box while an error is set, and otherwise the freelancers that match
        the search and the filters. */
    method Visible() returns (v: Option<Screen<seq<Freelancer>>>)
      ensures v.Some? <==> activeTab == "freelancers"
      ensures v.Some? && loading ==> v.value == Spinner
      ensures v.Some? && !loading && Present(error) ==> v.value == ErrorBox(error.value)
      ensures v.Some? && !loading && !Present(error) ==> v.value == Content(FilteredFreelancers(freelancers, searchTerm, filters))
      ensures v.Some? && v.value.Content? ==> forall i :: 0 <= i < |v.value.view| ==> Matches(v.value.view[i], searchTerm, filters)
    {
      if activeTab != "freelancers" {
        v := None;
      } else if loading {
        v := Some(Spinner);
      } else if Present(error) {
        v := Some(ErrorBox(error.value));
      } else {
        v := Some(Content(FilteredFreelancers(freelancers, searchTerm, filters)));
      }
    }
  }

  /** The hard-coded signed-in client. */
  datatype ProfileUser = ProfileUser(name: string, id: Key)
}
