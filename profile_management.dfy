/** The freelancer's own profile editor (ProfileManagement.jsx): skill
    tags, portfolio links found by their position, and the completeness
    percentage. */
module ProfileManagement {
  import opened Js
  import SkillTags
  import opened Completeness

  /** A portfolio entry of this editor: a title and a link. */
  datatype PortfolioLink = PortfolioLink(title: string, url: string)

  datatype Profile = Profile(
    name: string,
    bio: string,
    skills: seq<string>,
    hourlyRate: Scalar,
    portfolio: seq<PortfolioLink>,
    verified: bool)

  const EmptyLink := PortfolioLink("", "")
  const InitialProfile := Profile("", "", [], Text(""), [], false)

  /** The portfolio list and the "new portfolio item" inputs. */
  datatype PortfolioEdit = PortfolioEdit(portfolio: seq<PortfolioLink>, draft: PortfolioLink)

  /** `addPortfolioItem`: when both the title and the URL are non-blank the
      draft is appended exactly as typed (untrimmed) and the inputs are
      cleared; otherwise nothing changes. */
  function AddPortfolioLink(portfolio: seq<PortfolioLink>, draft: PortfolioLink): (r: PortfolioEdit)
    ensures |r.portfolio| == |portfolio| + 1 <==> !Blank(draft.title) && !Blank(draft.url)
    ensures |r.portfolio| == |portfolio| + 1 ==> r.portfolio == portfolio + [draft] && r.draft == EmptyLink
    ensures |r.portfolio| != |portfolio| + 1 ==> r == PortfolioEdit(portfolio, draft)
  {
    if Trim(draft.title) != "" && Trim(draft.url) != "" then
      PortfolioEdit(portfolio + [draft], EmptyLink)
    else
      PortfolioEdit(portfolio, draft)
  }

  /** `portfolio.filter((_, i) => i !== index)`: exactly the entry at
      `index` is deleted and the others keep their order; an index outside
      the list deletes nothing. */
  function RemoveAt<T>(s: seq<T>, index: int): (r: seq<T>)
    ensures 0 <= index < |s| ==> r == s[..index] + s[index + 1..]
    ensures !(0 <= index < |s|) ==> r == s
  {
    if s == [] then []
    else if index == 0 then s[1..]
    else
      var rest := RemoveAt(s[1..], index - 1);
      assert 0 < index < |s| ==> [s[0]] + s[1..][..index - 1] == s[..index];
      assert 0 < index < |s| ==> s[1..][index..] == s[index + 1..];
      assert !(0 <= index < |s|) ==> [s[0]] + s[1..] == s;
      [s[0]] + rest
  }

  /** Deleting the entry that was just added restores the portfolio. */
  lemma AddThenRemovePortfolioItem(portfolio: seq<PortfolioLink>, draft: PortfolioLink)
    requires !Blank(draft.title) && !Blank(draft.url)
    ensures RemoveAt(AddPortfolioLink(portfolio, draft).portfolio, |portfolio|) == portfolio
  {
    assert (portfolio + [draft])[..|portfolio|] == portfolio;
  }

  /** What `calculateCompleteness` looks at: non-empty skill and portfolio
      lists, a truthy bio and a truthy hourly rate. */
  function SignalsOf(p: Profile): Signals {
    Signals(|p.skills| > 0, |p.portfolio| > 0, p.bio != "", Truthy(p.hourlyRate))
  }

  /** The state slots of the component. */
  class ProfileEditor {
    var profile: Profile
    var newSkill: string
    var newPortfolioItem: PortfolioLink
    var isEditing: bool

    constructor ()
      ensures profile == InitialProfile && newSkill == "" && newPortfolioItem == EmptyLink
      ensures !isEditing
    {
      isEditing := false;
      profile := InitialProfile;
      newSkill := "";
      newPortfolioItem := EmptyLink;
    }

    /** The component never imports `axios`, so the `axios.get` inside
        `fetchProfile` throws a ReferenceError that its own `catch` swallows:
        mounting leaves the initial profile in place. */
    method FetchProfile()
      modifies this
      ensures profile == old(profile) && newSkill == old(newSkill)
      ensures newPortfolioItem == old(newPortfolioItem) && isEditing == old(isEditing)
    {
    }

    /** `handleSave` fails the same way, so `setIsEditing(false)` is never
        reached and the form stays open. */
    method HandleSave()
      modifies this
      ensures profile == old(profile) && newSkill == old(newSkill)
      ensures newPortfolioItem == old(newPortfolioItem) && isEditing == old(isEditing)
    {
    }

    /** The Edit Profile button and the Cancel button. */
    method SetEditing(editing: bool)
      modifies this
      ensures isEditing == editing
      ensures profile == old(profile) && newSkill == old(newSkill)
      ensures newPortfolioItem == old(newPortfolioItem)
    {
      isEditing := editing;
    }

    /** The name, hourly-rate and bio inputs store the text typed. */
    method EditFields(name: string, hourlyRate: string, bio: string)
      modifies this
      ensures profile == old(profile).(name := name, hourlyRate := Text(hourlyRate), bio := bio)
      ensures newSkill == old(newSkill) && newPortfolioItem == old(newPortfolioItem)
      ensures isEditing == old(isEditing)
    {
      profile := profile.(name := name, hourlyRate := Text(hourlyRate), bio := bio);
    }

    /** The "new skill" input and the two "new portfolio item" inputs. */
    method SetDrafts(skill: string, item: PortfolioLink)
      modifies this
      ensures newSkill == skill && newPortfolioItem == item
      ensures profile == old(profile) && isEditing == old(isEditing)
    {
      newSkill := skill;
      newPortfolioItem := item;
    }

    method AddSkill()
      modifies this
      ensures var e := SkillTags.AddSkill(old(profile.skills), old(newSkill));
              profile == old(profile).(skills := e.skills) && newSkill == e.draft
      ensures newPortfolioItem == old(newPortfolioItem) && isEditing == old(isEditing)
    {
      var e := SkillTags.AddSkill(profile.skills, newSkill);
      profile := profile.(skills := e.skills);
      newSkill := e.draft;
    }

    method RemoveSkill(skill: string)
      modifies this
      ensures profile == old(profile).(skills := SkillTags.RemoveSkill(old(profile.skills), skill))
      ensures newSkill == old(newSkill) && newPortfolioItem == old(newPortfolioItem)
      ensures isEditing == old(isEditing)
    {
      profile := profile.(skills := SkillTags.RemoveSkill(profile.skills, skill));
    }

    method AddPortfolioItem()
      modifies this
      ensures var e := AddPortfolioLink(old(profile.portfolio), old(newPortfolioItem));
              profile == old(profile).(portfolio := e.portfolio) && newPortfolioItem == e.draft
      ensures newSkill == old(newSkill) && isEditing == old(isEditing)
    {
      var e := AddPortfolioLink(profile.portfolio, newPortfolioItem);
      profile := profile.(portfolio := e.portfolio);
      newPortfolioItem := e.draft;
    }

    method RemovePortfolioItem(index: int)
      modifies this
      ensures profile == old(profile).(portfolio := RemoveAt(old(profile.portfolio), index))
      ensures newSkill == old(newSkill) && newPortfolioItem == old(newPortfolioItem)
      ensures isEditing == old(isEditing)
    {
      profile := profile.(portfolio := RemoveAt(profile.portfolio, index));
    }

    /** `calculateCompleteness`: the running total of the weights of the
      parts that are filled in. */
    method CalculateCompleteness() returns (complete: nat)
      ensures complete == Score(SignalsOf(profile))
      ensures complete <= 100
    {
      complete := 0;
      if |profile.skills| > 0 { complete := complete + SkillsWeight; }
      if |profile.portfolio| > 0 { complete := complete + PortfolioWeight; }
      if profile.bio != "" { complete := complete + BioWeight; }
      if Truthy(profile.hourlyRate) { complete := complete + RateWeight; }
    }
  }
}
