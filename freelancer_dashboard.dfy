/** The freelancer dashboard shell (FreelancerDashboard.jsx): which tab the
    URL selects, the avatar letter and the completeness bar computed from
    whatever the profile request returned. */
module FreelancerDashboard {
  import opened Js
  import opened Completeness
  import ProfileManagement

  /** `path.split('/').pop()`: the text after the last '/', or the whole
      path when it has none. */
  function LastSegment(path: string): (r: string)
    ensures '/' !in r
    ensures |r| <= |path| && r == path[|path| - |r|..]
    ensures |r| < |path| ==> path[|path| - |r| - 1] == '/'
  {
    if path == [] then []
    else if path[|path| - 1] == '/' then []
    else
      var r := LastSegment(path[..|path| - 1]);
      assert path[..|path| - 1][|path| - 1 - |r|..] + [path[|path| - 1]] == path[|path| - |r| - 1..];
      r + [path[|path| - 1]]
  }

  /** The segment after the last '/' is exactly what follows it. */
  lemma {:induction false} LastSegmentAfterSlash(prefix: string, segment: string)
    requires '/' !in segment
    ensures LastSegment(prefix + "/" + segment) == segment
    decreases |segment|
  {
    var path := prefix + "/" + segment;
    if segment == [] {
      assert path[|path| - 1] == '/';
    } else {
      var init := segment[..|segment| - 1];
      assert path[..|path| - 1] == prefix + "/" + init;
      assert '/' !in init by {
        forall k | 0 <= k < |init| ensures init[k] != '/' {
          assert init[k] == segment[k];
        }
      }
      LastSegmentAfterSlash(prefix, init);
      assert path[|path| - 1] == segment[|segment| - 1];
      assert init + [segment[|segment| - 1]] == segment;
    }
  }

  /** `location.pathname.split('/').pop() || 'profile'`. */
  function ActiveTab(pathname: string): (r: string)
    ensures r != ""
    ensures LastSegment(pathname) != "" ==> r == LastSegment(pathname)
    ensures LastSegment(pathname) == "" ==> r == "profile"
  {
    var segment := LastSegment(pathname);
    if segment != "" then segment else "profile"
  }

  /** Each tab link `/freelancer-dashboard/<tab>` selects `<tab>`, and the
      bare dashboard path with a trailing slash falls back to the profile
      tab. */
  lemma DashboardLink(tab: string)
    requires '/' !in tab
    ensures tab != "" ==> ActiveTab("/freelancer-dashboard/" + tab) == tab
    ensures tab == "" ==> ActiveTab("/freelancer-dashboard/" + tab) == "profile"
  {
    LastSegmentAfterSlash("/freelancer-dashboard", tab);
    assert "/freelancer-dashboard/" + tab == "/freelancer-dashboard" + "/" + tab;
  }

  /** The profile as the dashboard receives it: any field may be missing.
      Only the number of portfolio entries matters here. */
  datatype DashboardProfile = DashboardProfile(
    name: Option<string>,
    skills: Option<seq<string>>,
    portfolioCount: Option<nat>,
    bio: Scalar,
    hourlyRate: Scalar)

  /** `data?.skills?.length > 0` and the like, with `data` possibly null. */
  function SignalsOfData(data: Option<DashboardProfile>): (s: Signals)
    ensures data.None? ==> s == NoSignals
  {
    match data
    case None => NoSignals
    case Some(d) =>
      Signals(
        d.skills.Some? && |d.skills.value| > 0,
        d.portfolioCount.Some? && d.portfolioCount.value > 0,
        Truthy(d.bio),
        Truthy(d.hourlyRate))
  }

  /** `profileData?.name?.charAt(0) || 'F'`. */
  function AvatarLetter(data: Option<DashboardProfile>): (c: char)
    ensures data.Some? && data.value.name.Some? && data.value.name.value != "" ==> c == data.value.name.value[0]
    ensures !(data.Some? && data.value.name.Some? && data.value.name.value != "") ==> c == 'F'
  {
    if data.Some? && data.value.name.Some? && data.value.name.value != "" then data.value.name.value[0] else 'F'
  }

  /** A profile of the editor as the dashboard would receive it. */
  function FromEditor(p: ProfileManagement.Profile): DashboardProfile {
    DashboardProfile(Some(p.name), Some(p.skills), Some(|p.portfolio|), Text(p.bio), p.hourlyRate)
  }

  /** The dashboard's bar and the editor's own percentage agree on the same
      profile. */
  lemma SameScoreAsEditor(p: ProfileManagement.Profile)
    ensures Score(SignalsOfData(Some(FromEditor(p)))) == Score(ProfileManagement.SignalsOf(p))
  {
    assert Truthy(Text(p.bio)) == (p.bio != "");
  }

  /** The state slots of the component. */
  class Dashboard {
    var profileData: Option<DashboardProfile>
    var profileComplete: nat

    constructor ()
      ensures profileData == None && profileComplete == 0
    {
      profileData := None;
      profileComplete := 0;
    }

    /** `calculateProfileComplete(data)`: the running total, capped at 100
        with `Math.min` (a cap the weights never reach beyond). */
    method CalculateProfileComplete(data: Option<DashboardProfile>)
      modifies this
      ensures profileComplete == Score(SignalsOfData(data))
      ensures profileComplete <= 100
      ensures profileData == old(profileData)
    {
      var complete: nat := 0;
      if data.Some? && data.value.skills.Some? && |data.value.skills.value| > 0 { complete := complete + 30; }
      if data.Some? && data.value.portfolioCount.Some? && data.value.portfolioCount.value > 0 { complete := complete + 30; }
      if data.Some? && Truthy(data.value.bio) { complete := complete + 20; }
      if data.Some? && Truthy(data.value.hourlyRate) { complete := complete + 20; }
      profileComplete := if complete < 100 then complete else 100;
    }

    /** A successful fetch stores the body (which may be null) and scores
        it; a failed fetch changes nothing. */
    method FetchProfile(response: Option<Option<DashboardProfile>>)
      modifies this
      ensures response.Some? ==> profileData == response.value && profileComplete == Score(SignalsOfData(response.value))
      ensures response.None? ==> profileData == old(profileData) && profileComplete == old(profileComplete)
    {
      if response.Some? {
        profileData := response.value;
        CalculateProfileComplete(response.value);
      }
    }
  }
}
