/**
 * The immutable snapshot the builder produces: one `ReviewClient` per remote
 * address and a `Review` holding them with three aggregate string collections.
 * Both are datatype values, so every property returns what was passed to the
 * constructor and nothing can change it afterwards.
 */
module Snapshots {
  import opened Outcomes
  import opened IPAddressOrder

  /** A point in time (`DateTime`), abstracted to an ordered number. */
  type Time = int

  /**
   * A per-address snapshot. The unordered collections of usernames and
   * versions are sets: the builder only ever fills them from hash sets.
   * Only values returned by `NewReviewClient` are meant as snapshots; they
   * all satisfy `HasEvents()`, which the bare constructor does not check.
   */
  datatype ReviewClient = ReviewClient(
    ipAddress: Address,
    eventTimes: seq<Time>,
    blockedEventTimes: seq<Time>,
    userNamesSucceeded: set<string>,
    userNamesFailed: set<string>,
    clientVersions: set<string>)
  {
    /** What every constructed snapshot satisfies: at least one non-blocked event. */
    predicate HasEvents() {
      eventTimes != []
    }

    /** The first and last event time `ToString` reports; always defined because `eventTimes` is non-empty. */
    function EventSpan(): (span: (Time, Time))
      requires HasEvents()
      ensures span.0 <= span.1
      ensures span.0 in eventTimes && span.1 in eventTimes
      ensures forall t :: t in eventTimes ==> span.0 <= t <= span.1
    {
      (Earliest(eventTimes), Latest(eventTimes))
    }
  }

  /** The aggregate snapshot; its collections carry no order, so they are sets. */
  datatype Review = Review(
    clients: set<ReviewClient>,
    userNamesSucceeded: set<string>,
    userNamesFailed: set<string>,
    clientVersions: set<string>)

  /**
   * The validating `ReviewClient` constructor. `None` stands for a null
   * reference. Only the address and the non-blocked event times are checked.
   */
  function NewReviewClient(
    ipAddress: Option<Address>,
    eventTimes: Option<seq<Time>>,
    blockedEventTimes: seq<Time>,
    userNamesSucceeded: set<string>,
    userNamesFailed: set<string>,
    clientVersions: set<string>): (r: Result<ReviewClient, Fault>)
    ensures r.Success? <==> ipAddress.Some? && eventTimes.Some? && eventTimes.value != []
    ensures ipAddress.None? ==> r.error == ArgumentNull("ipAddress")
    ensures ipAddress.Some? && eventTimes.None? ==> r.error == ArgumentNull("eventTimes")
    ensures ipAddress.Some? && eventTimes == Some([]) ==> r.error == ArgumentInvalid("eventTimes")
    ensures r.Success? ==> r.value.HasEvents()
    ensures r.Success? ==>
      && r.value.ipAddress == ipAddress.value
      && r.value.eventTimes == eventTimes.value
      && r.value.blockedEventTimes == blockedEventTimes
      && r.value.userNamesSucceeded == userNamesSucceeded
      && r.value.userNamesFailed == userNamesFailed
      && r.value.clientVersions == clientVersions
  {
    if ipAddress.None? then Failure(ArgumentNull("ipAddress"))
    else if eventTimes.None? then Failure(ArgumentNull("eventTimes"))
    else if |eventTimes.value| == 0 then Failure(ArgumentInvalid("eventTimes"))
    else Success(ReviewClient(ipAddress.value, eventTimes.value, blockedEventTimes,
                              userNamesSucceeded, userNamesFailed, clientVersions))
  }

  /** `Min()` over a non-empty list of times. */
  function Earliest(ts: seq<Time>): (m: Time)
    requires ts != []
    ensures m in ts
    ensures forall t :: t in ts ==> m <= t
  {
    if |ts| == 1 then ts[0]
    else
      var rest := Earliest(ts[1..]);
      assert ts == [ts[0]] + ts[1..];
      if ts[0] <= rest then ts[0] else rest
  }

  /** `Max()` over a non-empty list of times. */
  function Latest(ts: seq<Time>): (m: Time)
    requires ts != []
    ensures m in ts
    ensures forall t :: t in ts ==> t <= m
  {
    if |ts| == 1 then ts[0]
    else
      var rest := Latest(ts[1..]);
      assert ts == [ts[0]] + ts[1..];
      if ts[0] >= rest then ts[0] else rest
  }
}
