/** The freelancer's bids page (BidsManagement.jsx): the bids and
    statistics loaded once, the Active / Accepted / Rejected tabs and
    withdrawing a bid. */
module BidsManagement {
  import opened Js
  import opened Seqs
  import opened Screens

  /** A bid as the server sends it. Only the fields the page tests or
      changes are kept; the rest are displayed with fallbacks. */
  datatype Bid = Bid(_id: Key, id: Key, status: Option<string>, amount: Option<real>)

  datatype Stats = Stats(avgBid: real, successRate: real, totalBids: real)

  const InitialStats := Stats(0.0, 0.0, 0.0)

  /** The body of the bids request: `bids` and the three statistics may be
      missing. */
  datatype BidsData = BidsData(bids: Option<seq<Bid>>, avgBid: Option<real>, successRate: Option<real>, totalBids: Option<real>)

  datatype FetchResponse = FetchFailed | Fetched(data: Option<BidsData>)

  const LoadFailedMessage := "Failed to load bids"
  const UpdateFailedMessage := "Failed to update bid"

  /** `response.data?.bids || []`. */
  function BidsOf(data: Option<BidsData>): (r: seq<Bid>)
    ensures data.Some? && data.value.bids.Some? ==> r == data.value.bids.value
    ensures !(data.Some? && data.value.bids.Some?) ==> r == []
  {
    if data.Some? then SeqOr(data.value.bids, []) else []
  }

  /** `response.data?.stats?.x || 0` for each statistic. */
  function StatsOf(data: Option<BidsData>): (s: Stats)
    ensures data.None? ==> s == InitialStats
    ensures data.Some? && data.value.avgBid.Some? && data.value.avgBid.value != 0.0 ==> s.avgBid == data.value.avgBid.value
    ensures data.Some? && data.value.successRate.Some? && data.value.successRate.value != 0.0 ==>
              s.successRate == data.value.successRate.value
    ensures data.Some? && data.value.totalBids.Some? && data.value.totalBids.value != 0.0 ==>
              s.totalBids == data.value.totalBids.value
    ensures data.Some? && (data.value.avgBid.None? || data.value.avgBid.value == 0.0) ==> s.avgBid == 0.0
    ensures data.Some? && (data.value.successRate.None? || data.value.successRate.value == 0.0) ==> s.successRate == 0.0
    ensures data.Some? && (data.value.totalBids.None? || data.value.totalBids.value == 0.0) ==> s.totalBids == 0.0
  {
    match data
    case None => InitialStats
    case Some(d) => Stats(NumOr(d.avgBid, 0.0), NumOr(d.successRate, 0.0), NumOr(d.totalBids, 0.0))
  }

  /** `filteredBids`: a bid without a status is in no tab; the Active tab
      holds the pending bids, Accepted and Rejected the bids with that
      status, and any other tab name every bid that has a status. */
  predicate InTab(b: Bid, tab: string) {
    if !Present(b.status) then false
    else if tab == "active" then b.status.value == "pending"
    else if tab == "accepted" then b.status.value == "accepted"
    else if tab == "rejected" then b.status.value == "rejected"
    else true
  }

  function FilteredBids(bids: seq<Bid>, tab: string): (r: seq<Bid>)
    ensures forall b :: b in r <==> b in bids && InTab(b, tab)
    ensures forall b :: multiset(r)[b] == if InTab(b, tab) then multiset(bids)[b] else 0
    ensures IsSubsequence(r, bids)
  {
    var keep := (b: Bid) => InTab(b, tab);
    FilterCounts(bids, keep);
    Filter(bids, keep)
  }

  /** The three tabs the page offers never share a bid, and a withdrawn
      bid, like one without a status, appears in none of them. */
  lemma TabsDisjoint(b: Bid)
    ensures !(InTab(b, "active") && InTab(b, "accepted"))
    ensures !(InTab(b, "active") && InTab(b, "rejected"))
    ensures !(InTab(b, "accepted") && InTab(b, "rejected"))
    ensures b.status == Some("withdrawn") || !Present(b.status) ==>
              !InTab(b, "active") && !InTab(b, "accepted") && !InTab(b, "rejected")
  {
  }

  /** `bids.map(bid => bid._id === bidId ? { ...bid, status } : bid)`: the
      status update the page sends, applied to every bid whose `_id` is
      `bidId`. */
  function UpdateBidStatus(bids: seq<Bid>, bidId: Key, status: string): (r: seq<Bid>)
    ensures |r| == |bids|
    ensures forall i :: 0 <= i < |r| && bids[i]._id == bidId ==> r[i] == bids[i].(status := Some(status))
    ensures forall i :: 0 <= i < |r| && bids[i]._id != bidId ==> r[i] == bids[i]
  {
    MapWhere(bids, (b: Bid) => b._id == bidId, (b: Bid) => b.(status := Some(status)))
  }

  /** The key the Withdraw button sends: `bid._id || bid.id`. */
  function WithdrawKey(b: Bid): (k: Key)
    ensures KeyTruthy(b._id) ==> k == b._id
    ensures !KeyTruthy(b._id) ==> k == b.id
  {
    KeyOr(b._id, b.id)
  }

  /** Withdrawing a pending bid that has its own `_id` moves it out of the
      Active tab (and out of every tab) and leaves bids with other `_id`s
      alone. */
  lemma WithdrawLeavesActive(bids: seq<Bid>, i: int)
    requires 0 <= i < |bids| && KeyTruthy(bids[i]._id)
    ensures var r := UpdateBidStatus(bids, WithdrawKey(bids[i]), "withdrawn");
            !InTab(r[i], "active") && !InTab(r[i], "accepted") && !InTab(r[i], "rejected")
            && forall j :: 0 <= j < |bids| && bids[j]._id != bids[i]._id ==> r[j] == bids[j]
  {
  }

  /** A bid known only by `id` is withdrawn on the server, but the page
      matches the key against `_id` alone, so when no bid has that `_id`
      the list on screen does not change. */
  lemma WithdrawByIdNotShown(bids: seq<Bid>, i: int)
    requires 0 <= i < |bids| && !KeyTruthy(bids[i]._id)
    requires forall j :: 0 <= j < |bids| ==> bids[j]._id != bids[i].id
    ensures UpdateBidStatus(bids, WithdrawKey(bids[i]), "withdrawn") == bids
  {
    var r := UpdateBidStatus(bids, WithdrawKey(bids[i]), "withdrawn");
    assert forall j :: 0 <= j < |r| ==> r[j] == bids[j];
  }

  /** The Withdraw and Edit buttons appear in the Active tab only. */
  predicate WithdrawOffered(tab: string) {
    tab == "active"
  }

  /** The state slots of the component. */
  class Page {
    var bids: seq<Bid>
    var activeTab: string
    var stats: Stats
    var loading: bool
    var error: Option<string>

    constructor ()
      ensures bids == [] && activeTab == "active" && stats == InitialStats && loading && error == None
    {
      bids := [];
      activeTab := "active";
      stats := InitialStats;
      loading := true;
      error := None;
    }

    /** `fetchBids`: a reply sets the bids and statistics (with their
        fallbacks) and clears the error; a failure empties the bids and
        sets the error but keeps the statistics. Loading ends either
        way. */
    method FetchBids(response: FetchResponse)
      modifies this
      ensures !loading
      ensures response.Fetched? ==> bids == BidsOf(response.data) && stats == StatsOf(response.data) && error == None
      ensures response.FetchFailed? ==> bids == [] && stats == old(stats) && error == Some(LoadFailedMessage)
      ensures activeTab == old(activeTab)
    {
      loading := true;
      match response {
        case Fetched(data) =>
          bids := BidsOf(data);
          stats := StatsOf(data);
          error := None;
        case FetchFailed =>
          error := Some(LoadFailedMessage);
          bids := [];
      }
      loading := false;
    }

    method SetTab(tab: string)
      modifies this
      ensures activeTab == tab
      ensures bids == old(bids) && stats == old(stats) && loading == old(loading) && error == old(error)
    {
      activeTab := tab;
    }

    /** `updateBid(bidId, { status })`: after a successful request the
        matching bids take the status; after a failure the page shows the
        error instead. */
    method UpdateBid(bidId: Key, status: string, succeeded: bool)
      modifies this
      ensures succeeded ==> bids == UpdateBidStatus(old(bids), bidId, status) && error == old(error)
      ensures !succeeded ==> bids == old(bids) && error == Some(UpdateFailedMessage)
      ensures activeTab == old(activeTab) && stats == old(stats) && loading == old(loading)
    {
      if succeeded {
        bids := UpdateBidStatus(bids, bidId, status);
      } else {
        error := Some(UpdateFailedMessage);
      }
    }

    /** The Withdraw Bid button of bid `b`. */
    method WithdrawBid(b: Bid, succeeded: bool)
      modifies this
      ensures succeeded ==> bids == UpdateBidStatus(old(bids), WithdrawKey(b), "withdrawn") && error == old(error)
      ensures !succeeded ==> bids == old(bids) && error == Some(UpdateFailedMessage)
      ensures activeTab == old(activeTab) && stats == old(stats) && loading == old(loading)
    {
      UpdateBid(WithdrawKey(b), "withdrawn", succeeded);
    }

    /** What the page renders: the spinner while loading, the error box
        while an error is set, and otherwise the bids under the current
        tab, each with a status. */
    method Visible() returns (v: Screen<seq<Bid>>)
      ensures loading ==> v == Spinner
      ensures !loading && Present(error) ==> v == ErrorBox(error.value)
      ensures !loading && !Present(error) ==> v == Content(FilteredBids(bids, activeTab))
      ensures v.Content? ==> forall i :: 0 <= i < |v.view| ==> Present(v.view[i].status)
    {
      if loading {
        v := Spinner;
      } else if Present(error) {
        v := ErrorBox(error.value);
      } else {
        v := Content(FilteredBids(bids, activeTab));
      }
    }
  }

  /** Only `fetchBids` clears the error, so one failed withdraw replaces
      the whole page, loaded bids and all, with the error box until the
      page is mounted again. */
  method FailedWithdrawHidesBids(b: Bid) returns (v: Screen<seq<Bid>>)
    ensures v == ErrorBox(UpdateFailedMessage)
  {
    var page := new Page();
    page.FetchBids(Fetched(Some(BidsData(Some([b]), None, None, None))));
    page.WithdrawBid(b, false);
    v := page.Visible();
  }
}
