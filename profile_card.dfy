/** The freelancer profile card (ProfileCard.jsx): an editable form with
    skills and a portfolio whose entries carry a temporary id, image
    uploads, the save request, and the client-side review form with the
    average rating. */
module ProfileCard {
  import opened Js
  import opened Seqs
  import SkillTags

  /** A portfolio entry as the form holds it. Entries added here get the
      clock reading as their temporary `id`; entries loaded from the server
      may have none (`Undefined`). */
  datatype PortfolioItem = PortfolioItem(title: string, url: string, description: string, image: string, id: Key)

  /** The "new portfolio item" inputs, and also the shape of a portfolio
      entry in the save request. */
  datatype PortfolioDraft = PortfolioDraft(title: string, url: string, description: string, image: string)

  const EmptyDraft := PortfolioDraft("", "", "", "")

  /** A review as the server returns it. */
  datatype Rating = Rating(clientId: Key, clientName: string, value: int, comment: string)

  /** The star value (0 until a star is picked) and the comment typed. */
  datatype ReviewDraft = ReviewDraft(rating: int, comment: string)

  const EmptyReview := ReviewDraft(0, "")

  datatype User = User(id: Key, name: string)

  datatype FormData = FormData(
    name: string,
    bio: string,
    skills: seq<string>,
    hourlyRate: Scalar,
    portfolio: seq<PortfolioItem>,
    profileImage: string,
    ratings: seq<Rating>)

  const InitialForm := FormData("", "", [], Text(""), [], "", [])

  /** The `profileData` prop: any field may be missing. */
  datatype ProfileData = ProfileData(
    name: Option<string>,
    bio: Option<string>,
    skills: Option<seq<string>>,
    hourlyRate: Scalar,
    portfolio: Option<seq<PortfolioItem>>,
    profileImage: Option<string>,
    ratings: Option<seq<Rating>>)

  /** The form filled from the prop: each field that is present (a
      non-empty string, a truthy rate, any list) is taken over, every other
      field gets its empty value. */
  function FormFromProfile(p: ProfileData): (f: FormData)
    ensures Present(p.name) ==> f.name == p.name.value
    ensures !Present(p.name) ==> f.name == ""
    ensures Present(p.bio) ==> f.bio == p.bio.value
    ensures !Present(p.bio) ==> f.bio == ""
    ensures p.skills.Some? ==> f.skills == p.skills.value
    ensures p.skills.None? ==> f.skills == []
    ensures Truthy(p.hourlyRate) ==> f.hourlyRate == p.hourlyRate
    ensures !Truthy(p.hourlyRate) ==> f.hourlyRate == Text("")
    ensures p.portfolio.Some? ==> f.portfolio == p.portfolio.value
    ensures p.portfolio.None? ==> f.portfolio == []
    ensures Present(p.profileImage) ==> f.profileImage == p.profileImage.value
    ensures !Present(p.profileImage) ==> f.profileImage == ""
    ensures p.ratings.Some? ==> f.ratings == p.ratings.value
    ensures p.ratings.None? ==> f.ratings == []
  {
    FormData(
      StrOr(p.name, ""),
      StrOr(p.bio, ""),
      SeqOr(p.skills, []),
      if Truthy(p.hourlyRate) then p.hourlyRate else Text(""),
      SeqOr(p.portfolio, []),
      StrOr(p.profileImage, ""),
      SeqOr(p.ratings, []))
  }

  /** A profile with every field filled in comes back from the form
      unchanged. */
  lemma FormFromFullProfile(f: FormData)
    requires f.name != "" && f.bio != "" && f.profileImage != "" && Truthy(f.hourlyRate)
    ensures FormFromProfile(ProfileData(Some(f.name), Some(f.bio), Some(f.skills), f.hourlyRate,
                                        Some(f.portfolio), Some(f.profileImage), Some(f.ratings))) == f
  {
  }

  /** The portfolio list and the "new portfolio item" inputs. */
  datatype PortfolioEdit = PortfolioEdit(portfolio: seq<PortfolioItem>, draft: PortfolioDraft)

  function WithId(d: PortfolioDraft, id: Key): PortfolioItem {
    PortfolioItem(d.title, d.url, d.description, d.image, id)
  }

  /** `addPortfolioItem`: when the title and the URL are both non-blank the
      draft, as typed, is appended with the clock reading `now` as its id
      and the inputs are cleared; otherwise nothing changes. */
  function AddPortfolioLink(portfolio: seq<PortfolioItem>, draft: PortfolioDraft, now: int): (r: PortfolioEdit)
    ensures |r.portfolio| == |portfolio| + 1 <==> !Blank(draft.title) && !Blank(draft.url)
    ensures |r.portfolio| == |portfolio| + 1 ==> r.portfolio == portfolio + [WithId(draft, Num(now))] && r.draft == EmptyDraft
    ensures |r.portfolio| != |portfolio| + 1 ==> r == PortfolioEdit(portfolio, draft)
  {
    if Trim(draft.title) != "" && Trim(draft.url) != "" then
      PortfolioEdit(portfolio + [WithId(draft, Num(now))], EmptyDraft)
    else
      PortfolioEdit(portfolio, draft)
  }

  /** `removePortfolioItem(id)`: every entry whose id is `id` goes, the others
      stay in their order. */
  function RemoveById(portfolio: seq<PortfolioItem>, id: Key): (r: seq<PortfolioItem>)
    ensures forall i :: 0 <= i < |r| ==> r[i].id != id
    ensures forall x :: x in r <==> x in portfolio && x.id != id
    ensures forall x :: multiset(r)[x] == if x.id != id then multiset(portfolio)[x] else 0
    ensures IsSubsequence(r, portfolio)
    ensures (forall i :: 0 <= i < |portfolio| ==> portfolio[i].id != id) ==> r == portfolio
  {
    var keep := (item: PortfolioItem) => item.id != id;
    FilterCounts(portfolio, keep);
    assert (forall i :: 0 <= i < |portfolio| ==> portfolio[i].id != id) ==> Filter(portfolio, keep) == portfolio by {
      if forall i :: 0 <= i < |portfolio| ==> portfolio[i].id != id {
        FilterAllPass(portfolio, keep);
      }
    }
    Filter(portfolio, keep)
  }

  /** Removing an entry just added under a clock reading no other entry
      carries restores the portfolio. */
  lemma AddThenRemoveById(portfolio: seq<PortfolioItem>, draft: PortfolioDraft, now: int)
    requires !Blank(draft.title) && !Blank(draft.url)
    requires forall i :: 0 <= i < |portfolio| ==> portfolio[i].id != Num(now)
    ensures RemoveById(AddPortfolioLink(portfolio, draft, now).portfolio, Num(now)) == portfolio
  {
    var item := WithId(draft, Num(now));
    var keep := (x: PortfolioItem) => x.id != Num(now);
    AddOne(portfolio, draft, now);
    FilterConcat(portfolio, [item], keep);
    FilterAllPass(portfolio, keep);
    assert Filter([item], keep) == [];
    assert Filter(portfolio, keep) + [] == portfolio;
  }

  lemma RemoveByIdConcat(a: seq<PortfolioItem>, b: seq<PortfolioItem>, id: Key)
    ensures RemoveById(a + b, id) == RemoveById(a, id) + RemoveById(b, id)
  {
    FilterConcat(a, b, (item: PortfolioItem) => item.id != id);
  }

  /** Every entry carries `id`, so removing `id` empties the list. Entries
      loaded without an id all share the id `undefined`, so the delete
      button of any one of them removes every one of them. */
  lemma RemoveSharedId(portfolio: seq<PortfolioItem>, id: Key)
    requires forall i :: 0 <= i < |portfolio| ==> portfolio[i].id == id
    ensures RemoveById(portfolio, id) == []
  {
    var r := RemoveById(portfolio, id);
    if r != [] {
      assert false;
    }
  }

  /** Two entries added within the same millisecond share an id, so the
      delete button of the second removes the first as well. */
  lemma {:induction false} SameMillisecondEntries(portfolio: seq<PortfolioItem>, draft1: PortfolioDraft, draft2: PortfolioDraft, now: int)
    requires !Blank(draft1.title) && !Blank(draft1.url)
    requires !Blank(draft2.title) && !Blank(draft2.url)
    ensures var p := AddPortfolioLink(AddPortfolioLink(portfolio, draft1, now).portfolio, draft2, now).portfolio;
            |p| == |portfolio| + 2 && p[|portfolio|].id == p[|portfolio| + 1].id == Num(now)
            && RemoveById(p, Num(now)) == RemoveById(portfolio, Num(now))
  {
    var q := AddPortfolioLink(portfolio, draft1, now).portfolio;
    AddOne(portfolio, draft1, now);
    AddOne(q, draft2, now);
    RemoveTwoAppended(portfolio, WithId(draft1, Num(now)), WithId(draft2, Num(now)), Num(now));
  }

  /** Two entries carrying `id`, appended one after the other, sit at the
      end of the list and go together with every entry of `portfolio` that
      carries `id`. */
  lemma RemoveTwoAppended(portfolio: seq<PortfolioItem>, a: PortfolioItem, b: PortfolioItem, id: Key)
    requires a.id == id && b.id == id
    ensures var p := portfolio + [a] + [b];
            |p| == |portfolio| + 2 && p[|portfolio|].id == p[|portfolio| + 1].id == id
            && RemoveById(p, id) == RemoveById(portfolio, id)
  {
    var q := portfolio + [a];
    assert (q + [b])[|portfolio|] == a;
    RemoveAfterShared(q + [b], q, [b], id);
    RemoveAfterShared(q, portfolio, [a], id);
  }

  lemma {:induction false} AddOne(portfolio: seq<PortfolioItem>, draft: PortfolioDraft, now: int)
    requires !Blank(draft.title) && !Blank(draft.url)
    ensures AddPortfolioLink(portfolio, draft, now).portfolio == portfolio + [WithId(draft, Num(now))]
  {
  }

  lemma RemoveAfterShared(p: seq<PortfolioItem>, portfolio: seq<PortfolioItem>, added: seq<PortfolioItem>, id: Key)
    requires p == portfolio + added
    requires forall i :: 0 <= i < |added| ==> added[i].id == id
    ensures RemoveById(p, id) == RemoveById(portfolio, id)
  {
    RemoveByIdConcat(portfolio, added, id);
    RemoveSharedId(added, id);
    assert RemoveById(portfolio, id) + [] == RemoveById(portfolio, id);
  }

  /** A finished portfolio image upload sets the image of every entry with
      that id to the returned URL; nothing else changes. */
  function SetPortfolioImage(portfolio: seq<PortfolioItem>, itemId: Key, url: string): (r: seq<PortfolioItem>)
    ensures |r| == |portfolio|
    ensures forall i :: 0 <= i < |r| && portfolio[i].id == itemId ==> r[i] == portfolio[i].(image := url)
    ensures forall i :: 0 <= i < |r| && portfolio[i].id != itemId ==> r[i] == portfolio[i]
  {
    MapWhere(portfolio, (item: PortfolioItem) => item.id == itemId, (item: PortfolioItem) => item.(image := url))
  }

  /** The portfolio entries of the save request: the four fields of each
      entry, in order, without its temporary id. */
  function SavedPortfolio(portfolio: seq<PortfolioItem>): (r: seq<PortfolioDraft>)
    ensures |r| == |portfolio|
    ensures forall i :: 0 <= i < |r| ==> WithId(r[i], portfolio[i].id) == portfolio[i]
  {
    if portfolio == [] then []
    else
      var item := portfolio[0];
      [PortfolioDraft(item.title, item.url, item.description, item.image)] + SavedPortfolio(portfolio[1..])
  }

  /** What the save request carries: the form without its ratings. */
  datatype SaveRequest = SaveRequest(
    name: string,
    bio: string,
    skills: seq<string>,
    hourlyRate: Scalar,
    portfolio: seq<PortfolioDraft>,
    profileImage: string)

  function SaveRequestOf(f: FormData): SaveRequest {
    SaveRequest(f.name, f.bio, f.skills, f.hourlyRate, SavedPortfolio(f.portfolio), f.profileImage)
  }

  /** An entry added through the inputs is saved exactly as it was typed,
      after the entries that were already there. */
  lemma {:induction false} AddedEntryIsSaved(f: FormData, draft: PortfolioDraft, now: int)
    requires !Blank(draft.title) && !Blank(draft.url)
    ensures var g := f.(portfolio := AddPortfolioLink(f.portfolio, draft, now).portfolio);
            SaveRequestOf(g).portfolio == SaveRequestOf(f).portfolio + [draft]
  {
    SavedPortfolioConcat(f.portfolio, [WithId(draft, Num(now))]);
  }

  lemma {:induction false} SavedPortfolioConcat(a: seq<PortfolioItem>, b: seq<PortfolioItem>)
    ensures SavedPortfolio(a + b) == SavedPortfolio(a) + SavedPortfolio(b)
  {
    if a == [] {
      assert a + b == b;
    } else {
      assert (a + b)[1..] == a[1..] + b;
      SavedPortfolioConcat(a[1..], b);
    }
  }

  /** The Add Portfolio Item button looks at the untrimmed inputs. */
  predicate AddPortfolioEnabled(draft: PortfolioDraft) {
    draft.title != "" && draft.url != ""
  }

  /** A title made of spaces enables the button, yet the click adds
      nothing, because the handler trims. */
  lemma SpacesEnableButDoNotAdd(portfolio: seq<PortfolioItem>, now: int)
    ensures AddPortfolioEnabled(PortfolioDraft(" ", "u", "", ""))
    ensures AddPortfolioLink(portfolio, PortfolioDraft(" ", "u", "", ""), now).portfolio == portfolio
  {
    assert IsWhitespace(' ');
    assert Blank(" ");
  }

  /** `!newReview.rating || !newReview.comment` leaves the button disabled
      and makes the handler stop with an alert. */
  predicate ReviewComplete(d: ReviewDraft) {
    d.rating != 0 && d.comment != ""
  }

  /** The ratings and the review inputs. */
  datatype ReviewState = ReviewState(ratings: seq<Rating>, draft: ReviewDraft)

  /** `submitReview`: an incomplete draft changes nothing; a missing
      signed-in user or profile makes building the request throw, which
      the handler catches; a failed request changes nothing; a successful
      one appends the rating the server returns and clears the inputs. */
  function ReviewAfterSubmit(ratings: seq<Rating>, draft: ReviewDraft, user: Option<User>, hasProfile: bool,
                        response: Option<Rating>): (r: ReviewState)
    ensures |r.ratings| == |ratings| + 1 <==> ReviewComplete(draft) && user.Some? && hasProfile && response.Some?
    ensures |r.ratings| == |ratings| + 1 ==> r.ratings == ratings + [response.value] && r.draft == EmptyReview
    ensures |r.ratings| != |ratings| + 1 ==> r == ReviewState(ratings, draft)
  {
    if !ReviewComplete(draft) then ReviewState(ratings, draft)
    else if user.None? || !hasProfile then ReviewState(ratings, draft)
    else if response.None? then ReviewState(ratings, draft)
    else ReviewState(ratings + [response.value], EmptyReview)
  }

  /** `currentUser && ratings.some(r => r.clientId === currentUser.id)`. */
  predicate HasReviewed(ratings: seq<Rating>, user: Option<User>) {
    user.Some? && exists i :: 0 <= i < |ratings| && ratings[i].clientId == user.value.id
  }

  /** The review form appears in the client view, for a signed-in user who
      has not reviewed yet. */
  predicate ReviewFormShown(isClientView: bool, ratings: seq<Rating>, user: Option<User>) {
    isClientView && user.Some? && !HasReviewed(ratings, user)
  }

  /** Once a review the server records under the user's id is accepted,
      the form is gone for that user and stays gone. */
  lemma SubmittedReviewHidesForm(ratings: seq<Rating>, draft: ReviewDraft, user: User, response: Rating, isClientView: bool)
    requires ReviewComplete(draft) && response.clientId == user.id
    ensures var r := ReviewAfterSubmit(ratings, draft, Some(user), true, Some(response));
            HasReviewed(r.ratings, Some(user)) && !ReviewFormShown(isClientView, r.ratings, Some(user))
  {
    var r := ReviewAfterSubmit(ratings, draft, Some(user), true, Some(response));
    assert r.ratings[|ratings|] == response;
  }

  function Sum(ratings: seq<Rating>): int {
    if ratings == [] then 0 else ratings[0].value + Sum(ratings[1..])
  }

  /** `averageRating` before `toFixed(1)`: 0 without ratings, otherwise the
      mean of the values. */
  function AverageRating(ratings: seq<Rating>): (avg: real)
    ensures ratings == [] ==> avg == 0.0
    ensures ratings != [] ==> avg * |ratings| as real == Sum(ratings) as real
  {
    if ratings == [] then 0.0 else Sum(ratings) as real / |ratings| as real
  }

  /** Values between 1 and 5 sum to between n and 5n. */
  lemma {:induction false} SumBounds(ratings: seq<Rating>)
    requires forall i :: 0 <= i < |ratings| ==> 1 <= ratings[i].value <= 5
    ensures |ratings| <= Sum(ratings) <= 5 * |ratings|
  {
    if ratings != [] {
      SumBounds(ratings[1..]);
    }
  }

  /** With star values from 1 to 5 the average shown lies between 1 and 5. */
  lemma AverageWithinStars(ratings: seq<Rating>)
    requires ratings != []
    requires forall i :: 0 <= i < |ratings| ==> 1 <= ratings[i].value <= 5
    ensures 1.0 <= AverageRating(ratings) <= 5.0
  {
    SumBounds(ratings);
    QuotientBounds(Sum(ratings) as real, |ratings| as real);
  }

  lemma QuotientBounds(s: real, n: real)
    requires 0.0 < n && n <= s <= 5.0 * n
    ensures 1.0 <= s / n <= 5.0
  {
    assert s / n * n == s;
  }

  /** A four-star and a two-star review average three stars. */
  lemma AverageExample(a: Key, b: Key)
    ensures AverageRating([Rating(a, "A", 4, "good"), Rating(b, "B", 2, "slow")]) == 3.0
  {
    var rs := [Rating(a, "A", 4, "good"), Rating(b, "B", 2, "slow")];
    assert rs[1..] == [rs[1]];
    assert rs[1..][1..] == [];
    assert Sum(rs[1..]) == 2;
    assert Sum(rs) == 6;
  }

  /** The state slots of the component; the props are passed to the
      handlers that read them. */
  class Card {
    var isEditing: bool
    var formData: FormData
    var newSkill: string
    var newPortfolioItem: PortfolioDraft
    var isSaving: bool
    var imagePreview: string
    var newReview: ReviewDraft

    constructor ()
      ensures !isEditing && formData == InitialForm && newSkill == "" && newPortfolioItem == EmptyDraft
      ensures !isSaving && imagePreview == "" && newReview == EmptyReview
    {
      isEditing := false;
      formData := InitialForm;
      newSkill := "";
      newPortfolioItem := EmptyDraft;
      isSaving := false;
      imagePreview := "";
      newReview := EmptyReview;
    }

    /** The effect on `profileData`: a null prop changes nothing. */
    method LoadProfile(profileData: Option<ProfileData>)
      modifies this
      ensures profileData.Some? ==> formData == FormFromProfile(profileData.value) && imagePreview == formData.profileImage
      ensures profileData.None? ==> formData == old(formData) && imagePreview == old(imagePreview)
      ensures isEditing == old(isEditing) && newSkill == old(newSkill) && newPortfolioItem == old(newPortfolioItem)
      ensures isSaving == old(isSaving) && newReview == old(newReview)
    {
      if profileData.Some? {
        formData := FormFromProfile(profileData.value);
        imagePreview := formData.profileImage;
      }
    }

    /** The Edit Profile button and the Cancel button. */
    method SetEditing(editing: bool)
      modifies this
      ensures isEditing == editing
      ensures formData == old(formData) && newSkill == old(newSkill) && newPortfolioItem == old(newPortfolioItem)
      ensures isSaving == old(isSaving) && imagePreview == old(imagePreview) && newReview == old(newReview)
    {
      isEditing := editing;
    }

    /** The name, hourly-rate and bio inputs store the text typed. */
    method EditFields(name: string, hourlyRate: string, bio: string)
      modifies this
      ensures formData == old(formData).(name := name, hourlyRate := Text(hourlyRate), bio := bio)
      ensures isEditing == old(isEditing) && newSkill == old(newSkill) && newPortfolioItem == old(newPortfolioItem)
      ensures isSaving == old(isSaving) && imagePreview == old(imagePreview) && newReview == old(newReview)
    {
      formData := formData.(name := name, hourlyRate := Text(hourlyRate), bio := bio);
    }

    /** The "new skill" input, the "new portfolio item" inputs and the
        review's stars and comment. */
    method SetDrafts(skill: string, item: PortfolioDraft, review: ReviewDraft)
      modifies this
      ensures newSkill == skill && newPortfolioItem == item && newReview == review
      ensures isEditing == old(isEditing) && formData == old(formData)
      ensures isSaving == old(isSaving) && imagePreview == old(imagePreview)
    {
      newSkill := skill;
      newPortfolioItem := item;
      newReview := review;
    }

    /** `handleImageUpload`: a returned URL becomes the profile image and
        the preview; a failed upload changes nothing. */
    method UploadProfileImage(url: Option<string>)
      modifies this
      ensures url.Some? ==> formData == old(formData).(profileImage := url.value) && imagePreview == url.value
      ensures url.None? ==> formData == old(formData) && imagePreview == old(imagePreview)
      ensures isEditing == old(isEditing) && newSkill == old(newSkill) && newPortfolioItem == old(newPortfolioItem)
      ensures isSaving == old(isSaving) && newReview == old(newReview)
    {
      if url.Some? {
        formData := formData.(profileImage := url.value);
        imagePreview := url.value;
      }
    }

    /** `handleSave`: the request built from the form either succeeds,
        closing the editor, or fails, leaving it open; `isSaving` is false
        afterwards either way. */
    method HandleSave(succeeded: bool) returns (request: SaveRequest)
      modifies this
      ensures request == SaveRequestOf(formData)
      ensures !isSaving
      ensures isEditing == (old(isEditing) && !succeeded)
      ensures formData == old(formData) && newSkill == old(newSkill) && newPortfolioItem == old(newPortfolioItem)
      ensures imagePreview == old(imagePreview) && newReview == old(newReview)
    {
      isSaving := true;
      request := SaveRequestOf(formData);
      if succeeded {
        isEditing := false;
      }
      isSaving := false;
    }

    method AddSkill()
      modifies this
      ensures var e := SkillTags.AddSkill(old(formData.skills), old(newSkill));
              formData == old(formData).(skills := e.skills) && newSkill == e.draft
      ensures isEditing == old(isEditing) && newPortfolioItem == old(newPortfolioItem)
      ensures isSaving == old(isSaving) && imagePreview == old(imagePreview) && newReview == old(newReview)
    {
      var e := SkillTags.AddSkill(formData.skills, newSkill);
      formData := formData.(skills := e.skills);
      newSkill := e.draft;
    }

    method RemoveSkill(skill: string)
      modifies this
      ensures formData == old(formData).(skills := SkillTags.RemoveSkill(old(formData.skills), skill))
      ensures isEditing == old(isEditing) && newSkill == old(newSkill) && newPortfolioItem == old(newPortfolioItem)
      ensures isSaving == old(isSaving) && imagePreview == old(imagePreview) && newReview == old(newReview)
    {
      formData := formData.(skills := SkillTags.RemoveSkill(formData.skills, skill));
    }

    /** `now` is the `Date.now()` reading of the click. */
    method AddPortfolioItem(now: int)
      modifies this
      ensures var e := AddPortfolioLink(old(formData.portfolio), old(newPortfolioItem), now);
              formData == old(formData).(portfolio := e.portfolio) && newPortfolioItem == e.draft
      ensures isEditing == old(isEditing) && newSkill == old(newSkill)
      ensures isSaving == old(isSaving) && imagePreview == old(imagePreview) && newReview == old(newReview)
    {
      var e := AddPortfolioLink(formData.portfolio, newPortfolioItem, now);
      formData := formData.(portfolio := e.portfolio);
      newPortfolioItem := e.draft;
    }

    method RemovePortfolioItem(id: Key)
      modifies this
      ensures formData == old(formData).(portfolio := RemoveById(old(formData.portfolio), id))
      ensures isEditing == old(isEditing) && newSkill == old(newSkill) && newPortfolioItem == old(newPortfolioItem)
      ensures isSaving == old(isSaving) && imagePreview == old(imagePreview) && newReview == old(newReview)
    {
      formData := formData.(portfolio := RemoveById(formData.portfolio, id));
    }

    /** `handlePortfolioImageUpload(e, itemId)`; a failed upload changes
        nothing. */
    method UploadPortfolioImage(itemId: Key, url: Option<string>)
      modifies this
      ensures url.Some? ==> formData == old(formData).(portfolio := SetPortfolioImage(old(formData.portfolio), itemId, url.value))
      ensures url.None? ==> formData == old(formData)
      ensures isEditing == old(isEditing) && newSkill == old(newSkill) && newPortfolioItem == old(newPortfolioItem)
      ensures isSaving == old(isSaving) && imagePreview == old(imagePreview) && newReview == old(newReview)
    {
      if url.Some? {
        formData := formData.(portfolio := SetPortfolioImage(formData.portfolio, itemId, url.value));
      }
    }

    /** `submitReview`, with the `currentUser` prop, whether the
        `profileData` prop is set, and the server's answer. */
    method SubmitReview(currentUser: Option<User>, hasProfile: bool, response: Option<Rating>)
      modifies this
      ensures var r := ReviewAfterSubmit(old(formData.ratings), old(newReview), currentUser, hasProfile, response);
              formData == old(formData).(ratings := r.ratings) && newReview == r.draft
      ensures isEditing == old(isEditing) && newSkill == old(newSkill) && newPortfolioItem == old(newPortfolioItem)
      ensures isSaving == old(isSaving) && imagePreview == old(imagePreview)
    {
      var r := ReviewAfterSubmit(formData.ratings, newReview, currentUser, hasProfile, response);
      formData := formData.(ratings := r.ratings);
      newReview := r.draft;
    }
  }
}
