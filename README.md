# SkillsSwap front-end state rules, in Dafny

SkillsSwap is a freelancing marketplace. The clients post projects and hire
freelancers. The freelancers keep a profile, bid on projects and track the
projects they work on. This project models the state rules inside ten of
its React components, and proves what those rules promise:

- skill tags kept free of duplicates;
- portfolio entries added and removed by position or by id;
- the 30/30/20/20 profile-completeness score;
- the review form and the average rating;
- the freelancer directory: its defaults, search, filters, skill catalogue and hiring;
- the status tabs of bids and projects, and the updates keyed by `_id`;
- the milestones and deadline countdown of the project timeline.

Each component is one module. Its rules are pure functions over datatypes.
A class holds the component's `useState` slots as fields, and its methods
state each handler's effect on those slots through the functions. The
shared pieces each have their own module:

- `Js` holds JavaScript values, truthiness, `trim`, `toLowerCase` and `includes` on strings.
- `Seqs` holds order-preserving filtering and keyed mapping.
- `StringOrder` holds the default `sort` order on strings.
- `SkillTags` holds the skill-tag rule used by three components and by the filter chips.
- `Completeness` holds the score.
- `FreelancerProjects` holds the project record shared by the three project views.

A server reply is an input to the handler that receives it: a datatype for
success or failure. A clock reading is an integer parameter. Two
components, ProfileManagement.jsx and ProjectManagement.jsx, never import
`axios`. Their requests throw a ReferenceError before anything is sent,
and their own `catch` swallows it. The model follows that: their fetch,
save and status-update handlers change nothing.

## Model

| member | source | states |
|---|---|---|
| Js.Trim | src/Components/Freelancer/ProfileManagement.jsx:39 | `trim()`: the result is the input with a whitespace-only prefix and suffix cut off, empty iff the input is all whitespace, and otherwise starting and ending with a non-whitespace character |
| Js.TrimIdempotent | src/Components/Freelancer/ProfileManagement.jsx:39-42 | trimming a trimmed skill changes nothing, so the stored tag equals its own trim |
| Js.ToLower | src/Components/Client/ClientDashBoard.jsx:116-118 | `toLowerCase` keeps the length and lowers each letter A-Z by itself, leaving every other character alone |
| Js.ToLowerIdempotent | src/Components/Client/ClientDashBoard.jsx:116-118 | lowering an already lowered text changes nothing |
| Js.ContainsIffOccurs | src/Components/Client/ClientDashBoard.jsx:116-118 | `includes` holds exactly when the needle occurs at some position of the text |
| StringOrder.SortUnique | src/Components/Client/ClientDashBoard.jsx:132-134 | `Array.from(new Set(xs)).sort()` is sorted, has no duplicates, and has exactly the elements of `xs` |
| StringOrder.SortedUniqueness | src/Components/Client/ClientDashBoard.jsx:132-134 | two sorted duplicate-free lists with the same elements are equal, so the catalogue depends only on the set of skills |
| SkillTags.AddSkill | src/Components/Freelancer/ProfileManagement.jsx:38-46 | the trimmed draft is appended and the input cleared iff it is non-blank and not yet listed; otherwise the list and the input are unchanged; the old list stays a prefix; a duplicate-free list stays duplicate-free |
| SkillTags.RemoveSkill | src/Components/Freelancer/ProfileManagement.jsx:48-53 | every copy of the skill goes; each other skill keeps its count and order; a list without it is unchanged; no duplicates are introduced |
| SkillTags.AddThenRemove | src/Components/Client/ProjectForm.jsx:24-39 | removing a skill that was just added restores the list |
| SkillTags.AddSkillTwice | src/Components/Freelancer/ProfileCard.jsx:100-108 | submitting the same draft twice adds it at most once |
| SkillTags.TrimmedTagExample | src/Components/Freelancer/ProfileCard.jsx:100-108 | the input " React " adds the tag "React", and " React" is refused afterwards |
| Completeness.Score | src/Components/Freelancer/FreelancerDashboard.jsx:28-35 | the score lies in 0..100; it is 0 exactly for an empty profile and 100 exactly when all four parts are filled in |
| Completeness.ScoreMonotone | src/Components/Freelancer/FreelancerDashboard.jsx:28-35 | filling in parts never lowers the score |
| Completeness.ScoreAddsWeight | src/Components/Freelancer/FreelancerDashboard.jsx:29-33 | each part adds exactly its weight: 30 for skills, 30 for portfolio, 20 for bio, 20 for rate |
| Completeness.FillingInExample | src/Components/Freelancer/ProfileManagement.jsx:72-79 | an empty profile filled in step by step scores 0, 30, 50, 70, 100 |
| ProfileManagement.AddPortfolioLink | src/Components/Freelancer/ProfileManagement.jsx:55-63 | the draft is appended exactly as typed and the inputs reset iff title and URL are both non-blank after trimming; otherwise nothing changes |
| ProfileManagement.RemoveAt | src/Components/Freelancer/ProfileManagement.jsx:65-70 | exactly the entry at the index is deleted and the rest keep their order; an out-of-range index deletes nothing |
| ProfileManagement.AddThenRemovePortfolioItem | src/Components/Freelancer/ProfileManagement.jsx:55-70 | deleting the entry just added restores the portfolio |
| ProfileManagement.ProfileEditor.constructor | src/Components/Freelancer/ProfileManagement.jsx:5-15 | the empty profile (rate `''`, not verified), empty drafts, editor closed |
| ProfileManagement.ProfileEditor.FetchProfile | src/Components/Freelancer/ProfileManagement.jsx:17-27 | the request throws before it is sent, so no slot changes |
| ProfileManagement.ProfileEditor.HandleSave | src/Components/Freelancer/ProfileManagement.jsx:29-36 | the request throws before it is sent, so the editor stays open and no slot changes |
| ProfileManagement.ProfileEditor.SetEditing | src/Components/Freelancer/ProfileManagement.jsx:94-102 | Edit and Cancel set only the editing flag |
| ProfileManagement.ProfileEditor.EditFields | src/Components/Freelancer/ProfileManagement.jsx:119-138 | the name, rate and bio inputs replace those three fields and nothing else |
| ProfileManagement.ProfileEditor.SetDrafts | src/Components/Freelancer/ProfileManagement.jsx:164-208 | the draft inputs change only the drafts |
| ProfileManagement.ProfileEditor.AddSkill | src/Components/Freelancer/ProfileManagement.jsx:38-46 | only `skills` and the draft change, as `SkillTags.AddSkill` says; name, bio, rate, portfolio and verified are untouched |
| ProfileManagement.ProfileEditor.RemoveSkill | src/Components/Freelancer/ProfileManagement.jsx:48-53 | only `skills` changes, as `SkillTags.RemoveSkill` says |
| ProfileManagement.ProfileEditor.AddPortfolioItem | src/Components/Freelancer/ProfileManagement.jsx:55-63 | only the portfolio and its draft change, as `AddPortfolioLink` says |
| ProfileManagement.ProfileEditor.RemovePortfolioItem | src/Components/Freelancer/ProfileManagement.jsx:65-70 | only the portfolio changes, as `RemoveAt` says |
| ProfileManagement.ProfileEditor.CalculateCompleteness | src/Components/Freelancer/ProfileManagement.jsx:72-79 | the running total equals `Score` of the profile's four parts and is at most 100 |
| FreelancerDashboard.LastSegment | src/Components/Freelancer/FreelancerDashboard.jsx:12 | `split('/').pop()` is the suffix of the path after its last '/', and contains no '/' |
| FreelancerDashboard.LastSegmentAfterSlash | src/Components/Freelancer/FreelancerDashboard.jsx:12 | for any prefix, the segment after the last '/' is returned whole |
| FreelancerDashboard.ActiveTab | src/Components/Freelancer/FreelancerDashboard.jsx:12 | the last segment of the path, or "profile" when it is empty; never empty |
| FreelancerDashboard.DashboardLink | src/Components/Freelancer/FreelancerDashboard.jsx:57-88 | each tab link `/freelancer-dashboard/<tab>` selects `<tab>`; a trailing slash selects "profile" |
| FreelancerDashboard.SignalsOfData | src/Components/Freelancer/FreelancerDashboard.jsx:30-33 | a null profile has none of the four parts |
| FreelancerDashboard.AvatarLetter | src/Components/Freelancer/FreelancerDashboard.jsx:46 | the first letter of a non-empty name, otherwise 'F' |
| FreelancerDashboard.SameScoreAsEditor | src/Components/Freelancer/FreelancerDashboard.jsx:28-35 | the dashboard's bar and the editor's percentage agree on the same profile |
| FreelancerDashboard.Dashboard.constructor | src/Components/Freelancer/FreelancerDashboard.jsx:7-8 | no profile data, score 0 |
| FreelancerDashboard.Dashboard.CalculateProfileComplete | src/Components/Freelancer/FreelancerDashboard.jsx:28-35 | the stored score is `Score` of the data's parts, capped at 100; a null profile scores 0 |
| FreelancerDashboard.Dashboard.FetchProfile | src/Components/Freelancer/FreelancerDashboard.jsx:15-26 | a reply is stored and scored; a failure changes nothing |
| ProfileCard.FormFromProfile | src/Components/Freelancer/ProfileCard.jsx:32-45 | each present field is taken over; each missing one gets its empty value |
| ProfileCard.FormFromFullProfile | src/Components/Freelancer/ProfileCard.jsx:34-42 | a fully filled profile loads into the form unchanged |
| ProfileCard.AddPortfolioLink | src/Components/Freelancer/ProfileCard.jsx:117-128 | iff title and URL are non-blank after trimming, exactly one entry is appended: the draft as typed, with the clock reading as its id; the draft resets; otherwise nothing changes |
| ProfileCard.RemoveById | src/Components/Freelancer/ProfileCard.jsx:130-135 | every entry with the id goes; every other entry stays, as many times as it occurred, in its order; an absent id changes nothing |
| ProfileCard.AddThenRemoveById | src/Components/Freelancer/ProfileCard.jsx:117-135 | removing an entry just added under a fresh clock reading restores the portfolio |
| ProfileCard.RemoveByIdConcat | src/Components/Freelancer/ProfileCard.jsx:130-135 | removal by id works piecewise over a concatenation |
| ProfileCard.RemoveSharedId | src/Components/Freelancer/ProfileCard.jsx:130-135 | entries sharing one id, such as loaded entries without an id, are all removed by one delete |
| ProfileCard.SameMillisecondEntries | src/Components/Freelancer/ProfileCard.jsx:117-135 | two entries added in the same millisecond share an id, and deleting one deletes both |
| ProfileCard.SetPortfolioImage | src/Components/Freelancer/ProfileCard.jsx:152-157 | only the `image` of entries with the id changes; length, order and all other entries are unchanged |
| ProfileCard.SavedPortfolio | src/Components/Freelancer/ProfileCard.jsx:80-85 | the saved entries are the form's entries in order, with only the id dropped |
| ProfileCard.AddedEntryIsSaved | src/Components/Freelancer/ProfileCard.jsx:70-89 | an entry added through the inputs is saved exactly as typed, after the earlier entries |
| ProfileCard.SavedPortfolioConcat | src/Components/Freelancer/ProfileCard.jsx:80-85 | the save mapping works piecewise over a concatenation |
| ProfileCard.SpacesEnableButDoNotAdd | src/Components/Freelancer/ProfileCard.jsx:117-128 | a title of spaces enables the button, which checks untrimmed text, yet adds nothing |
| ProfileCard.ReviewAfterSubmit | src/Components/Freelancer/ProfileCard.jsx:164-193 | exactly one rating is appended and the draft resets iff the draft has stars and a comment, a user and profile are present, and the request succeeds; otherwise nothing changes |
| ProfileCard.SubmittedReviewHidesForm | src/Components/Freelancer/ProfileCard.jsx:201 | after an accepted review under the user's id, `hasReviewed` holds and the review form is not offered |
| ProfileCard.AverageRating | src/Components/Freelancer/ProfileCard.jsx:196-198 | 0 without ratings; otherwise the mean, i.e. average times count equals the sum |
| ProfileCard.SumBounds | src/Components/Freelancer/ProfileCard.jsx:197 | ratings from 1 to 5 sum to between n and 5n |
| ProfileCard.AverageWithinStars | src/Components/Freelancer/ProfileCard.jsx:196-198 | with every value in 1..5 the mean lies in [1, 5] |
| ProfileCard.AverageExample | src/Components/Freelancer/ProfileCard.jsx:196-198 | a 4-star and a 2-star review average 3 |
| ProfileCard.Card.constructor | src/Components/Freelancer/ProfileCard.jsx:7-29 | the initial slots: empty form, drafts and preview, not editing, not saving |
| ProfileCard.Card.LoadProfile | src/Components/Freelancer/ProfileCard.jsx:32-45 | a profile prop fills the form and the preview; a null prop changes nothing |
| ProfileCard.Card.SetEditing | src/Components/Freelancer/ProfileCard.jsx:249-257 | Edit and Cancel set only the editing flag |
| ProfileCard.Card.EditFields | src/Components/Freelancer/ProfileCard.jsx:274-318 | the name, rate and bio inputs replace those three fields and nothing else |
| ProfileCard.Card.SetDrafts | src/Components/Freelancer/ProfileCard.jsx:345-536 | the draft inputs change only the drafts |
| ProfileCard.Card.UploadProfileImage | src/Components/Freelancer/ProfileCard.jsx:47-68 | a returned URL becomes the profile image and the preview; a failure changes nothing |
| ProfileCard.Card.HandleSave | src/Components/Freelancer/ProfileCard.jsx:70-99 | the request is the form without ratings or ids; success closes the editor, failure keeps it open; not saving afterwards |
| ProfileCard.Card.AddSkill | src/Components/Freelancer/ProfileCard.jsx:100-108 | only `skills` and the draft change, as `SkillTags.AddSkill` says |
| ProfileCard.Card.RemoveSkill | src/Components/Freelancer/ProfileCard.jsx:110-115 | only `skills` changes; the other form fields are untouched |
| ProfileCard.Card.AddPortfolioItem | src/Components/Freelancer/ProfileCard.jsx:117-128 | only the portfolio and its draft change, as `AddPortfolioLink` says |
| ProfileCard.Card.RemovePortfolioItem | src/Components/Freelancer/ProfileCard.jsx:130-135 | only the portfolio changes, as `RemoveById` says |
| ProfileCard.Card.UploadPortfolioImage | src/Components/Freelancer/ProfileCard.jsx:137-162 | a returned URL is set as the image of the entries with the id; a failure changes nothing |
| ProfileCard.Card.SubmitReview | src/Components/Freelancer/ProfileCard.jsx:164-193 | only the ratings and the review draft change, as `ReviewAfterSubmit` says |
| ProjectForm.SubmissionKeepsDraft | src/Components/Client/ProjectForm.jsx:15-22 | the submitted object carries every draft field unchanged, the clock reading as id, and 0 bids |
| ProjectForm.SubmissionFromParts | src/Components/Client/ProjectForm.jsx:17-21 | a submission is determined by its draft and its id |
| ProjectForm.Form.constructor | src/Components/Client/ProjectForm.jsx:5-13 | empty title, description, budget and deadline, no skills, status "open", empty skill input |
| ProjectForm.Form.EditFields | src/Components/Client/ProjectForm.jsx:57-126 | the four inputs replace their fields and nothing else |
| ProjectForm.Form.SetNewSkill | src/Components/Client/ProjectForm.jsx:94 | the skill input changes only the skill draft |
| ProjectForm.Form.AddSkill | src/Components/Client/ProjectForm.jsx:24-32 | only `skills` and the skill draft change, as `SkillTags.AddSkill` says |
| ProjectForm.Form.RemoveSkill | src/Components/Client/ProjectForm.jsx:34-39 | only `skills` changes, as `SkillTags.RemoveSkill` says |
| ProjectForm.Form.HandleSubmit | src/Components/Client/ProjectForm.jsx:15-22 | something reaches `onSubmit` iff title and description are filled in and the budget passes the number input's checks (`BudgetAllowed`); it is the draft plus the clock id and 0 bids |
| ProjectForm.DigitsBudgetAllowed | src/Components/Client/ProjectForm.jsx:112-118 | a budget typed as plain digits parses to that whole number and passes |
| ProjectForm.NegativeBudgetRefused | src/Components/Client/ProjectForm.jsx:112-118 | a minus sign before a non-zero number fails `min="0"`, so the form is not submitted |
| ProjectForm.FractionBudgetRefused | src/Components/Client/ProjectForm.jsx:112-118 | "2.5" fails the default step of 1, so the form is not submitted |
| ProjectForm.PointZeroBudgetAllowed | src/Components/Client/ProjectForm.jsx:112-118 | "3.0" is a whole number and passes |
| ProjectForm.ParsePointed | src/Components/Client/ProjectForm.jsx:112-118 | digits, a point and fraction digits parse to the digits read together, scaled down by the fraction's length |
| ClientDashboard.Normalize | src/Components/Client/ClientDashBoard.jsx:46-59 | each missing field gets its default, in order "Unknown Freelancer", "", [], 0, 0, "", "full-time" and [] |
| ClientDashboard.NormalizeIdempotent | src/Components/Client/ClientDashBoard.jsx:46-59 | a normalised record passes through normalisation unchanged |
| ClientDashboard.NormalizeAll | src/Components/Client/ClientDashBoard.jsx:46-61 | one normalised record per record received, same length and order |
| ClientDashboard.FilteredFreelancers | src/Components/Client/ClientDashBoard.jsx:114-130 | the order-preserving sub-list of exactly the freelancers that match the search and all four filters, each match kept as many times as it occurs |
| ClientDashboard.EmptySearchMatchesAll | src/Components/Client/ClientDashBoard.jsx:116 | an empty search term matches every freelancer |
| ClientDashboard.ClearedFilters | src/Components/Client/ClientDashBoard.jsx:362-371 | after clearing, a freelancer is hidden when its rate is above 100, and shown when its rate is at most 100 and its rating non-negative |
| ClientDashboard.MoreSkillsNarrow | src/Components/Client/ClientDashBoard.jsx:124-125 | selecting one more skill can only narrow the list, and a match then offers that skill |
| ClientDashboard.FlatSkills | src/Components/Client/ClientDashBoard.jsx:133 | the flattened list holds exactly the skills some freelancer offers |
| ClientDashboard.AllSkills | src/Components/Client/ClientDashBoard.jsx:132-134 | the catalogue is sorted, duplicate-free, and holds exactly the union of all freelancers' skills |
| ClientDashboard.AllSkillsOrderFree | src/Components/Client/ClientDashBoard.jsx:132-134 | directories offering the same skills give the same catalogue |
| ClientDashboard.RecordHire | src/Components/Client/ClientDashBoard.jsx:96-100 | every freelancer with the name gets the client appended to `hiredBy`; the others are unchanged; length and order are kept |
| ClientDashboard.HireOutcome | src/Components/Client/ClientDashBoard.jsx:70-113 | an unknown name, a refusal or a failure leaves the directory alone; an accepted hire records it and alerts the reply's message verbatim ("undefined" when missing); a refusal alerts its non-empty message or the fixed text; a failure alerts the server's message, else the error's, else the fixed text |
| ClientDashboard.HireRecordsClient | src/Components/Client/ClientDashBoard.jsx:95-100 | an accepted hire changes only `hiredBy` lists, and every freelancer with the name then lists the client |
| ClientDashboard.AcceptedHireAlert | src/Components/Client/ClientDashBoard.jsx:101 | an accepted hire with an empty message alerts an empty text; only a missing message reads "undefined" |
| ClientDashboard.HireTwice | src/Components/Client/ClientDashBoard.jsx:98 | hiring twice lists the client twice: no de-duplication |
| ClientDashboard.CreatedProject | src/Components/Client/ClientDashBoard.jsx:136-145 | the new project keeps the submitted fields, gets a clock id, status "open", 0 bids and the deadline as date text |
| ClientDashboard.FormDraftBecomesProject | src/Components/Client/ClientDashBoard.jsx:136-143 | a draft from the project form arrives with its title, description, skills and budget as typed |
| ClientDashboard.Dashboard.constructor | src/Components/Client/ClientDashBoard.jsx:8-26 | the initial tab, empty lists, initial filters and the fixed signed-in client |
| ClientDashboard.Dashboard.FetchFreelancers | src/Components/Client/ClientDashBoard.jsx:35-68 | a list replaces the directory with its normalisation; a body that is not a list, or a failure, keeps the directory and sets the error |
| ClientDashboard.Dashboard.HireFreelancer | src/Components/Client/ClientDashBoard.jsx:70-113 | the directory and alert are those of `HireOutcome` for the signed-in client |
| ClientDashboard.Dashboard.Navigate | src/Components/Client/ClientDashBoard.jsx:161-212 | the tab, search and filter-panel controls change only their own slots |
| ClientDashboard.Dashboard.SetFilters | src/Components/Client/ClientDashBoard.jsx:252-331 | the filter controls change only `filters` |
| ClientDashboard.Dashboard.RemoveSkillChip | src/Components/Client/ClientDashBoard.jsx:270-273 | the chip's skill leaves the selected skills; nothing else changes |
| ClientDashboard.Dashboard.ClearAllFilters | src/Components/Client/ClientDashBoard.jsx:362-371 | filters and search return to their initial values |
| ClientDashboard.Dashboard.ShowProjectForm | src/Components/Client/ClientDashBoard.jsx:544-549 | opening and closing the project form change only that flag |
| ClientDashboard.Dashboard.HandleCreateProject | src/Components/Client/ClientDashBoard.jsx:136-145 | exactly one project is appended, the existing ones are kept, and the form closes |
| ClientDashboard.Dashboard.Visible | src/Components/Client/ClientDashBoard.jsx:206-241 | the directory section appears exactly on the freelancers tab; there it is the loading text while loading, the error box with the error's text while one is set, and otherwise `FilteredFreelancers`, each shown freelancer matching |
| FreelancerCard.DisplayedSkills | src/Components/Freelancer/FreelancerCard.jsx:77 | at most the first four skills, in order; none when the list is missing |
| FreelancerCard.Badge | src/Components/Freelancer/FreelancerCard.jsx:58 | "New" iff the rating is missing; any number, 0 included, is shown |
| FreelancerCard.DirectoryCardsHaveStars | src/Components/Freelancer/FreelancerCard.jsx:58 | cards in the client directory never show "New", because normalisation supplies 0 |
| FreelancerCard.RateText | src/Components/Freelancer/FreelancerCard.jsx:69 | "Rate not specified" iff the rate is missing or 0 |
| FreelancerCard.LitStarsAreLeadingRun | src/Components/Freelancer/FreelancerCard.jsx:87-95 | lit stars form a leading run: up to the hovered star, or up to the rating when nothing is hovered |
| FreelancerCard.Card.constructor | src/Components/Freelancer/FreelancerCard.jsx:5-9 | `isHired` starts true iff `hiredBy` lists the signed-in user's name |
| FreelancerCard.Card.ClickStar | src/Components/Freelancer/FreelancerCard.jsx:93 | a click sets only the rating |
| FreelancerCard.Card.HoverStar | src/Components/Freelancer/FreelancerCard.jsx:94-95 | entering or leaving sets only the hover value |
| FreelancerCard.Card.SetComment | src/Components/Freelancer/FreelancerCard.jsx:106 | typing sets only the comment |
| FreelancerCard.Card.SubmitRating | src/Components/Freelancer/FreelancerCard.jsx:11-24 | a sent review clears the comment and marks the card hired; otherwise nothing changes; `isHired` is never reset |
| FreelancerCard.Card.HandleHire | src/Components/Freelancer/FreelancerCard.jsx:26-39 | a hired card does nothing; a successful hire sets `isHired` for good; `onHire` is called iff a hire happened and a callback was given |
| FreelancerCard.HiredAfterDashboardHire | src/Components/Freelancer/FreelancerCard.jsx:9 | a card mounted after the dashboard recorded a hire starts as hired to that client |
| BidsManagement.BidsOf | src/Components/Freelancer/BidsManagement.jsx:23 | the reply's bids, or [] when the body or its list is missing |
| BidsManagement.StatsOf | src/Components/Freelancer/BidsManagement.jsx:24-28 | each statistic is taken over when present and non-zero, and is 0 otherwise; no body gives the zero statistics |
| BidsManagement.FilteredBids | src/Components/Freelancer/BidsManagement.jsx:53-59 | the order-preserving sub-list of exactly the bids in the tab, each kept as many times as it occurs |
| BidsManagement.TabsDisjoint | src/Components/Freelancer/BidsManagement.jsx:53-59 | the three tabs share no bid, and a withdrawn or status-less bid is in none of them |
| BidsManagement.UpdateBidStatus | src/Components/Freelancer/BidsManagement.jsx:44-46 | bids with the `_id` take the status; all other bids, the length and the order are unchanged |
| BidsManagement.WithdrawKey | src/Components/Freelancer/BidsManagement.jsx:181 | `bid._id` when truthy, otherwise `bid.id` |
| BidsManagement.WithdrawLeavesActive | src/Components/Freelancer/BidsManagement.jsx:178-181 | withdrawing a bid with an `_id` takes it out of every tab and leaves bids with other `_id`s alone |
| BidsManagement.WithdrawByIdNotShown | src/Components/Freelancer/BidsManagement.jsx:181 | a bid known only by `id` is withdrawn on the server, but the list on screen does not change |
| BidsManagement.Page.constructor | src/Components/Freelancer/BidsManagement.jsx:6-14 | no bids, Active tab, zero statistics, loading, no error |
| BidsManagement.Page.FetchBids | src/Components/Freelancer/BidsManagement.jsx:16-39 | a reply sets bids and statistics with their defaults; a failure empties the bids and sets the error; loading ends |
| BidsManagement.Page.SetTab | src/Components/Freelancer/BidsManagement.jsx:91-108 | the tab buttons set only the tab |
| BidsManagement.Page.UpdateBid | src/Components/Freelancer/BidsManagement.jsx:41-51 | success applies `UpdateBidStatus`; failure sets the error and keeps the bids |
| BidsManagement.Page.WithdrawBid | src/Components/Freelancer/BidsManagement.jsx:178-181 | the update with status "withdrawn" under `WithdrawKey` |
| BidsManagement.Page.Visible | src/Components/Freelancer/BidsManagement.jsx:53-84 | the page is only the spinner while loading, only the error box while an error is set, and otherwise the bids of `FilteredBids` for the tab, each with a status |
| BidsManagement.FailedWithdrawHidesBids | src/Components/Freelancer/BidsManagement.jsx:41-84 | after a successful load, one failed withdraw leaves the page showing only the error box "Failed to update bid" |
| FreelancerProjects.ProjectsOf | src/Components/Freelancer/ProjectsOverview.jsx:17 | an array body is the list as received; any other body gives [] |
| FreelancerProjects.SetStatus | src/Components/Freelancer/ProjectsOverview.jsx:41-43 | projects with the `_id` take the status; all other projects, the length and the order are unchanged |
| FreelancerProjects.ReplaceFirstDash | src/Components/Freelancer/ProjectsOverview.jsx:119 | only the first '-' becomes a space; a text without '-' is unchanged |
| FreelancerProjects.StatusLabelExamples | src/Components/Freelancer/ProjectManagement.jsx:81 | "in-progress" reads "in progress", while "on-hold-now" keeps its second dash |
| ProjectsOverview.FilteredProjects | src/Components/Freelancer/ProjectsOverview.jsx:30-36 | the order-preserving sub-list of exactly the projects in the tab, each kept as many times as it occurs; status-less projects are in none |
| ProjectsOverview.TabsDisjoint | src/Components/Freelancer/ProjectsOverview.jsx:30-36 | the three tabs share no project, and each holds exactly the projects with its status |
| ProjectsOverview.StatusLabel | src/Components/Freelancer/ProjectsOverview.jsx:119 | "unknown" for a missing status, otherwise the status with its first dash replaced |
| ProjectsOverview.ActiveTabLabel | src/Components/Freelancer/ProjectsOverview.jsx:115-119 | every project under the Active tab is labelled "in progress" |
| ProjectsOverview.CompleteKey | src/Components/Freelancer/ProjectsOverview.jsx:159 | `project._id` when truthy, otherwise `project.id` |
| ProjectsOverview.CompleteMovesToCompleted | src/Components/Freelancer/ProjectsOverview.jsx:156-159 | completing an in-progress project with an `_id` moves it from Active to Completed and leaves other `_id`s alone |
| ProjectsOverview.CompleteByIdNotShown | src/Components/Freelancer/ProjectsOverview.jsx:159 | a project known only by `id` is completed on the server, but the list on screen does not change |
| ProjectsOverview.Overview.constructor | src/Components/Freelancer/ProjectsOverview.jsx:6-9 | no projects, Active tab, loading, no error |
| ProjectsOverview.Overview.FetchProjects | src/Components/Freelancer/ProjectsOverview.jsx:11-28 | a reply sets the list, or [] for a body that is not an array; a failure empties it and sets the error; loading ends |
| ProjectsOverview.Overview.SetFilter | src/Components/Freelancer/ProjectsOverview.jsx:81-97 | the tab buttons set only the filter |
| ProjectsOverview.Overview.UpdateProjectStatus | src/Components/Freelancer/ProjectsOverview.jsx:38-48 | success applies `SetStatus`; failure sets the error and keeps the list |
| ProjectsOverview.Overview.CompleteProject | src/Components/Freelancer/ProjectsOverview.jsx:156-159 | the update to "completed" under `CompleteKey`, offered for in-progress projects |
| ProjectsOverview.Overview.Visible | src/Components/Freelancer/ProjectsOverview.jsx:30-73 | the page is only the spinner while loading, only the error box while an error is set, and otherwise the projects of `FilteredProjects` for the tab, each with a status |
| ProjectsOverview.FailedCompleteHidesProjects | src/Components/Freelancer/ProjectsOverview.jsx:38-73 | after any load, one failed "Mark as Completed" leaves the page showing only the error box "Failed to update project status" |
| ProjectManagement.FilteredProjects | src/Components/Freelancer/ProjectManagement.jsx:20-25 | the order-preserving sub-list of exactly the projects in the tab, each kept as many times as it occurs; an unknown filter keeps every project |
| ProjectManagement.SameTabsAsOverview | src/Components/Freelancer/ProjectManagement.jsx:20-25 | on the three offered tabs, this filter selects exactly what the overview's guarded filter selects; they differ only for other names, where status-less projects are kept here |
| ProjectManagement.StatusLabel | src/Components/Freelancer/ProjectManagement.jsx:81 | rendering throws iff the status is missing; otherwise the first dash is replaced |
| ProjectManagement.ShownCardsRender | src/Components/Freelancer/ProjectManagement.jsx:72-81 | cards under the three tabs always render a label, equal to the overview's |
| ProjectManagement.CompleteMovesToCompleted | src/Components/Freelancer/ProjectManagement.jsx:118-121 | the update the Complete button aims at would move the project from Active to Completed and leave other `_id`s alone |
| ProjectManagement.Manager.constructor | src/Components/Freelancer/ProjectManagement.jsx:5-6 | no projects, Active filter |
| ProjectManagement.Manager.FetchProjects | src/Components/Freelancer/ProjectManagement.jsx:8-18 | the request throws before it is sent, so the list stays as it was |
| ProjectManagement.Manager.SetFilter | src/Components/Freelancer/ProjectManagement.jsx:43-66 | the tab buttons set only the filter |
| ProjectManagement.Manager.UpdateProjectStatus | src/Components/Freelancer/ProjectManagement.jsx:27-36 | the request throws before it is sent, so nothing changes |
| ProjectManagement.Manager.Visible | src/Components/Freelancer/ProjectManagement.jsx:20-25 | the projects shown are `FilteredProjects`; an empty list shows nothing |
| ProjectTimeline.SelectedIndex | src/Components/Freelancer/ProjectTimeline.jsx:39 | the first position whose `_id` is the key, or -1 when none is |
| ProjectTimeline.CurrentProject | src/Components/Freelancer/ProjectTimeline.jsx:39 | a listed project carrying the selected `_id`, or none (the empty record) exactly when no project has it |
| ProjectTimeline.SelectedIndexSameIds | src/Components/Freelancer/ProjectTimeline.jsx:50-59 | updates that keep every `_id` keep the same current project position |
| ProjectTimeline.FirstProjectIsCurrent | src/Components/Freelancer/ProjectTimeline.jsx:24-25 | after a fetch the first project is selected and is the current project |
| ProjectTimeline.CeilDiv | src/Components/Freelancer/ProjectTimeline.jsx:41 | `Math.ceil(a / b)`: the least r with a ≤ r·b |
| ProjectTimeline.DaysRemaining | src/Components/Freelancer/ProjectTimeline.jsx:40-42 | whole days to the deadline rounded up, (d−1)·86400000 < deadline − now ≤ d·86400000; 0 without a deadline |
| ProjectTimeline.Badge | src/Components/Freelancer/ProjectTimeline.jsx:147-150 | green iff more than 7 days, yellow iff 4 to 7, red iff at most 3 |
| ProjectTimeline.Label | src/Components/Freelancer/ProjectTimeline.jsx:152 | "N days remaining" iff N > 0, else "Deadline passed" |
| ProjectTimeline.BadgeByTimeLeft | src/Components/Freelancer/ProjectTimeline.jsx:147-152 | in milliseconds left: green iff more than 7 days' worth, yellow iff more than 3 and at most 7, red iff at most 3; passed iff none left |
| ProjectTimeline.NoDeadlineReadsPassed | src/Components/Freelancer/ProjectTimeline.jsx:40-42 | a project without a deadline, or no match, shows a red "Deadline passed" |
| ProjectTimeline.Appended | src/Components/Freelancer/ProjectTimeline.jsx:54-56 | the milestone is appended; a `milestones` that is not an array becomes a one-element list |
| ProjectTimeline.WithMilestoneAdded | src/Components/Freelancer/ProjectTimeline.jsx:50-59 | only projects with the selected `_id` gain the milestone; others, length, order and `_id`s are unchanged |
| ProjectTimeline.AddedMilestoneShown | src/Components/Freelancer/ProjectTimeline.jsx:50-59 | the current project then shows the new milestone last, one more than before, and is otherwise unchanged |
| ProjectTimeline.CompletedSet | src/Components/Freelancer/ProjectTimeline.jsx:77-81 | milestones with the id take the flag and the others are unchanged; a non-array becomes [] |
| ProjectTimeline.WithMilestoneCompleted | src/Components/Freelancer/ProjectTimeline.jsx:73-84 | only projects with the selected `_id` change, and only in their milestones |
| ProjectTimeline.ToggleTwice | src/Components/Freelancer/ProjectTimeline.jsx:206 | a toggle flips the flag shown, and toggling the re-rendered milestone again restores every flag the page shows (the projects, with `completed` read as a boolean) |
| ProjectTimeline.Timeline.constructor | src/Components/Freelancer/ProjectTimeline.jsx:6-14 | no projects, selection null, empty draft, loading, no error |
| ProjectTimeline.Timeline.FetchActiveProjects | src/Components/Freelancer/ProjectTimeline.jsx:16-37 | a reply sets the list, or [] for a non-array, and selects the first project when there is one; a failure empties the list and sets the error |
| ProjectTimeline.Timeline.SelectProject | src/Components/Freelancer/ProjectTimeline.jsx:125 | choosing an option sets the selection to its text |
| ProjectTimeline.Timeline.EditDraft | src/Components/Freelancer/ProjectTimeline.jsx:245-263 | the three inputs change only the draft |
| ProjectTimeline.Timeline.AddMilestone | src/Components/Freelancer/ProjectTimeline.jsx:44-65 | success applies `WithMilestoneAdded` and resets the draft; failure sets the error and keeps the draft |
| ProjectTimeline.Timeline.UpdateMilestone | src/Components/Freelancer/ProjectTimeline.jsx:67-89 | success applies `WithMilestoneCompleted`; failure sets the error |
| ProjectTimeline.Timeline.ToggleMilestone | src/Components/Freelancer/ProjectTimeline.jsx:206 | the update sends the negation of the milestone's flag |
| ProjectTimeline.Timeline.ShowSummary | src/Components/Freelancer/ProjectTimeline.jsx:91-152 | the summary is shown iff the page is neither loading nor showing an error and the selection is truthy, with the current project, its countdown, badge and label |
| ProjectTimeline.FailedAddHidesSummary | src/Components/Freelancer/ProjectTimeline.jsx:44-114 | after any load, one failed "Add Milestone" leaves no summary on the page, which shows the error box instead |

## Left out

- Network requests, `async` ordering, the `alert` call (its text is modelled by `ClientDashboard.HireOutcome`), `console`, `localStorage` and file uploads. A handler receives the outcome of its request as a parameter.
- The two hire requests a directory card sends (its own endpoint, then the dashboard's through `onHire`). These are network behaviour; the card and the dashboard are modelled separately.
- Server-side rules (hire idempotence, rating uniqueness, bid states). The route handlers are not part of this model.
- Date parsing, `toLocaleDateString` and `toFixed`. Deadlines and clock readings are integer milliseconds; a deadline that does not parse (a `NaN` countdown) is not modelled.
- HireOutcome: a reply message that is `null` (alerted as "null") is folded into a missing message; the model's messages are strings or absent.
- Floating point. Rates, ratings and the mean are exact reals.
- `toLowerCase` folds ASCII letters only. `sort` compares characters by code, not UTF-16 code units.
- ProjectTimeline: every option of the project menu shows the current project's countdown rather than its own. This is display only and not modelled.
- Display fallbacks that gate nothing ("Untitled Project", "No bio provided", progress bars, CSS classes).
- Portfolio, education and experience entries of directory records. They are passed through unchanged.
- The `loading` and `isSaving` flags only in their final value after a handler.
- The `onUpdate`, `onClose` and `onHire` callbacks other than whether `onHire` is called.
- ProfileCard: the `isClientView` switch beyond the review form's visibility.
- BidsManagement: the Edit button (it has no handler) and `updateBid` with fields other than `status`, which the page never sends.
- ProjectTimeline: `updateMilestone` with fields other than `completed`, which the page never sends.
- ProjectTimeline.ToggleTwice: a milestone's `completed` is a boolean in the model. A milestone sent without it (or with a truthy non-boolean value) is read as that boolean, so for it the second toggle restores the flag the page shows but not the record, which then holds `completed: false`.
- ProjectForm.Form.HandleSubmit: text the browser cannot read as a number leaves the budget's value empty while still blocking the form (its `badInput` state); the model sees only the value, and a non-empty budget that does not parse is refused.
- `src/Components/Client/StarRating.jsx` is not part of this model. Its highlight rule is the same as the directory card's.
