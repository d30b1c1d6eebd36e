/** One card of the client's freelancer directory (FreelancerCard.jsx): the
    summary shown, the five-star picker, the review box and the Hire
    button, which stays disabled once the client has hired. */
module FreelancerCard {
  import opened Js
  import ClientDashboard

  /** The `freelancer` prop as the card reads it. */
  datatype CardFreelancer = CardFreelancer(
    name: string,
    bio: string,
    skills: Option<seq<string>>,
    hourlyRate: Option<real>,
    rating: Option<real>,
    hiredBy: Option<seq<string>>)

  /** `freelancer.hiredBy?.includes(currentUser?.name)`: the signed-in
      user's name is on the freelancer's `hiredBy` list. */
  predicate HiredBy(hiredBy: Option<seq<string>>, userName: Option<string>) {
    hiredBy.Some? && userName.Some? && userName.value in hiredBy.value
  }

  /** `freelancer.skills?.slice(0, 4)`: at most the first four skills. */
  function DisplayedSkills(skills: Option<seq<string>>): (r: seq<string>)
    ensures skills.None? ==> r == []
    ensures skills.Some? ==> |r| == (if |skills.value| < 4 then |skills.value| else 4)
    ensures skills.Some? ==> r == skills.value[..|r|]
  {
    match skills
    case None => []
    case Some(s) => if |s| < 4 then s else s[..4]
  }

  /** The rating badge: `rating?.toFixed(1) || 'New'`. Any number, 0
      included, prints as a non-empty text, so only a missing rating
      shows "New". */
  datatype RatingBadge = New | Stars(value: real)

  function Badge(rating: Option<real>): (b: RatingBadge)
    ensures b.New? <==> rating.None?
    ensures rating.Some? ==> b == Stars(rating.value)
  {
    match rating
    case None => New
    case Some(x) => Stars(x)
  }

  /** Cards in the client directory never show "New": normalisation gives
      every freelancer a numeric rating, 0 when none was sent. */
  lemma DirectoryCardsHaveStars(raw: ClientDashboard.RawFreelancer)
    ensures Badge(Some(ClientDashboard.Normalize(raw).rating)).Stars?
    ensures raw.rating.None? ==> Badge(Some(ClientDashboard.Normalize(raw).rating)) == Stars(0.0)
  {
  }

  /** The rate line: `$<rate>/hr` for a truthy rate, otherwise "Rate not
      specified". */
  datatype RateLine = RatePerHour(rate: real) | RateNotSpecified

  function RateText(hourlyRate: Option<real>): (r: RateLine)
    ensures r.RateNotSpecified? <==> hourlyRate.None? || hourlyRate.value == 0.0
    ensures r.RatePerHour? ==> r.rate == hourlyRate.value
  {
    if hourlyRate.Some? && hourlyRate.value != 0.0 then RatePerHour(hourlyRate.value) else RateNotSpecified
  }

  /** Star `k` (1 to 5) is lit when `k <= (hover || rating)`. */
  predicate StarLit(k: int, hover: int, rating: int) {
    k <= (if hover != 0 then hover else rating)
  }

  /** The lit stars are always a leading run: lighting star `k` lights every
      star before it. While the mouse is away, exactly the stars up to
      the chosen rating are lit; while it rests on star `h`, exactly the
      stars up to `h`. */
  lemma LitStarsAreLeadingRun(hover: int, rating: int, j: int, k: int)
    requires 1 <= j <= k <= 5
    ensures StarLit(k, hover, rating) ==> StarLit(j, hover, rating)
    ensures hover == 0 ==> (StarLit(k, hover, rating) <==> k <= rating)
    ensures hover != 0 ==> (StarLit(k, hover, rating) <==> k <= hover)
  {
  }

  /** The Submit Review button is enabled once a star is chosen
      (`!rating` disables it). */
  predicate SubmitEnabled(rating: int) {
    rating != 0
  }

  /** The state slots of one card; the `freelancer` prop is fixed. */
  class Card {
    const freelancer: CardFreelancer
    var rating: int
    var hover: int
    var comment: string
    var isHired: bool

    /** Mounting the card for the signed-in user `userName` (none when
        signed out). */
    constructor (freelancer: CardFreelancer, userName: Option<string>)
      ensures this.freelancer == freelancer
      ensures rating == 0 && hover == 0 && comment == ""
      ensures isHired == HiredBy(freelancer.hiredBy, userName)
    {
      this.freelancer := freelancer;
      rating := 0;
      hover := 0;
      comment := "";
      isHired := HiredBy(freelancer.hiredBy, userName);
    }

    /** A click on star `k`. */
    method ClickStar(k: int)
      modifies this
      ensures rating == k
      ensures hover == old(hover) && comment == old(comment) && isHired == old(isHired)
    {
      rating := k;
    }

    /** The mouse entering star `k` (`k` = 1 to 5) or leaving the
        stars (`k` = 0). */
    method HoverStar(k: int)
      modifies this
      ensures hover == k
      ensures rating == old(rating) && comment == old(comment) && isHired == old(isHired)
    {
      hover := k;
    }

    method SetComment(text: string)
      modifies this
      ensures comment == text
      ensures rating == old(rating) && hover == old(hover) && isHired == old(isHired)
    {
      comment := text;
    }

    /** `submitRating`: reading the name of a missing user throws, and a
        failed request is swallowed; a sent review clears the comment and
        marks the freelancer as hired. The chosen stars stay. */
    method SubmitRating(userName: Option<string>, succeeded: bool)
      modifies this
      ensures userName.Some? && succeeded ==> comment == "" && isHired
      ensures !(userName.Some? && succeeded) ==> comment == old(comment) && isHired == old(isHired)
      ensures rating == old(rating) && hover == old(hover)
      ensures old(isHired) ==> isHired
    {
      if userName.Some? && succeeded {
        comment := "";
        isHired := true;
      }
    }

    /** `handleHire`: only a card not yet hired sends the request; when it
        succeeds the card is hired and `onHire` (if the parent passed one)
        is called. Returns whether `onHire` was called. */
    method HandleHire(userName: Option<string>, succeeded: bool, hasOnHire: bool) returns (onHireCalled: bool)
      modifies this
      ensures isHired == (old(isHired) || (userName.Some? && succeeded))
      ensures onHireCalled <==> !old(isHired) && userName.Some? && succeeded && hasOnHire
      ensures rating == old(rating) && hover == old(hover) && comment == old(comment)
    {
      onHireCalled := false;
      if !isHired {
        if userName.Some? && succeeded {
          isHired := true;
          onHireCalled := hasOnHire;
        }
      }
    }
  }

  /** A card mounted after the dashboard recorded a hire shows the
      freelancer as hired to that client. */
  lemma HiredAfterDashboardHire(freelancers: seq<ClientDashboard.Freelancer>, i: int, clientName: string,
                                message: Option<string>)
    requires 0 <= i < |freelancers|
    ensures var r := ClientDashboard.HireOutcome(freelancers, freelancers[i].name, clientName,
                                                  ClientDashboard.Replied(true, message)).freelancers;
            HiredBy(Some(r[i].hiredBy), Some(clientName))
  {
    assert ClientDashboard.Listed(freelancers, freelancers[i].name);
    ClientDashboard.HireRecordsClient(freelancers, freelancers[i].name, clientName, message);
  }
}
