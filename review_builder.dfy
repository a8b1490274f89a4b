/**
 * The aggregation engine: `ReviewBuilder` and its three dictionaries, the
 * specification of each of its operations as a function of the builder's
 * state, the counting invariant those operations keep, and `Build`.
 */
module ReviewBuilding {
  import opened Outcomes
  import opened IPAddressOrder
  import opened Extensions
  import opened Snapshots

  /** One entry of a client's event list: when, and whether the connection was rejected. */
  datatype TimedEvent = TimedEvent(time: Time, isBlocked: bool)

  /** The three per-client string sets, by kind. */
  datatype Kind = UserSucceeded | UserFailed | Version

  /** The accumulator kept for one remote address. */
  datatype ClientInfo = ClientInfo(
    events: seq<TimedEvent>,
    userNamesSucceeded: set<string>,
    userNamesFailed: set<string>,
    clientVersions: set<string>)
  {
    function Tags(k: Kind): set<string> {
      match k
      case UserSucceeded => userNamesSucceeded
      case UserFailed => userNamesFailed
      case Version => clientVersions
    }
  }

  /** `ClientInfo.New()`: no events, three empty sets. */
  const NEW_CLIENT_INFO := ClientInfo([], {}, {}, {})

  /** The `(successes, failures, clientsSucceeded, clientsFailed)` tuple kept per username. */
  datatype UserStats = UserStats(successes: int, failures: int, clientsSucceeded: int, clientsFailed: int)

  /** `default` of the username tuple. */
  const ZERO_USER_STATS := UserStats(0, 0, 0, 0)

  /** The `(instances, clients)` tuple kept per client version. */
  datatype VersionStats = VersionStats(instances: int, clients: int)

  /** `default` of the version tuple. */
  const ZERO_VERSION_STATS := VersionStats(0, 0)

  /** The builder's three dictionaries, as one value. */
  datatype BuilderState = BuilderState(
    clients: map<Address, ClientInfo>,
    userNames: map<string, UserStats>,
    clientVersions: map<string, VersionStats>)

  /** A newly constructed builder. */
  const EMPTY_STATE := BuilderState(map[], map[], map[])

  /** One call of a mutating builder operation. */
  datatype Call =
    | RemoteEventCall(time: Time, address: Address, isBlocked: bool)
    | LoginAttemptCall(address: Address, userName: string, success: bool)
    | ClientVersionCall(address: Address, clientVersion: string)

  /** What `GetClientInfo` yields for an address: its accumulator, or a new one. */
  function ClientOf(s: BuilderState, a: Address): ClientInfo {
    if a in s.clients then s.clients[a] else NEW_CLIENT_INFO
  }

  /** `userNames.GetValueOrDefault(userName)`. */
  function UserStatsOf(s: BuilderState, userName: string): (st: UserStats)
    ensures userName !in s.userNames ==> st == ZERO_USER_STATS
    ensures userName in s.userNames ==> st == s.userNames[userName]
  {
    GetValueOrDefault(Some(s.userNames), userName, ZERO_USER_STATS).value
  }

  /** `clientVersions.GetValueOrDefault(clientVersion)`. */
  function VersionStatsOf(s: BuilderState, clientVersion: string): (st: VersionStats)
    ensures clientVersion !in s.clientVersions ==> st == ZERO_VERSION_STATS
    ensures clientVersion in s.clientVersions ==> st == s.clientVersions[clientVersion]
  {
    GetValueOrDefault(Some(s.clientVersions), clientVersion, ZERO_VERSION_STATS).value
  }

  /** `AddRemoteEvent`: the event goes at the end of that address's list; nothing else changes. */
  function WithRemoteEvent(s: BuilderState, time: Time, a: Address, isBlocked: bool): (t: BuilderState)
    ensures t.clients.Keys == s.clients.Keys + {a}
    ensures t.clients[a].events == ClientOf(s, a).events + [TimedEvent(time, isBlocked)]
    ensures forall k :: t.clients[a].Tags(k) == ClientOf(s, a).Tags(k)
    ensures forall b :: b in s.clients && b != a ==> t.clients[b] == s.clients[b]
    ensures t.userNames == s.userNames && t.clientVersions == s.clientVersions
  {
    var info := ClientOf(s, a);
    s.(clients := s.clients[a := info.(events := info.events + [TimedEvent(time, isBlocked)])])
  }

  /**
   * `AddLoginAttempt`: one more success (or failure) for the username, and one
   * more distinct client exactly when the address had not yet succeeded (or
   * failed) with it.
   */
  function WithLoginAttempt(s: BuilderState, a: Address, userName: string, success: bool): (t: BuilderState)
    ensures t.clients.Keys == s.clients.Keys + {a}
    ensures t.clients[a].events == ClientOf(s, a).events
    ensures forall k :: (t.clients[a].Tags(k) ==
      ClientOf(s, a).Tags(k) + if k == (if success then UserSucceeded else UserFailed) then {userName} else {})
    ensures forall b :: b in s.clients && b != a ==> t.clients[b] == s.clients[b]
    ensures t.userNames.Keys == s.userNames.Keys + {userName}
    ensures forall w :: w in s.userNames && w != userName ==> t.userNames[w] == s.userNames[w]
    ensures var before, after := UserStatsOf(s, userName), t.userNames[userName];
      if success then
        && after.successes == before.successes + 1
        && after.clientsSucceeded == before.clientsSucceeded + (if userName in ClientOf(s, a).userNamesSucceeded then 0 else 1)
        && after.failures == before.failures && after.clientsFailed == before.clientsFailed
      else
        && after.failures == before.failures + 1
        && after.clientsFailed == before.clientsFailed + (if userName in ClientOf(s, a).userNamesFailed then 0 else 1)
        && after.successes == before.successes && after.clientsSucceeded == before.clientsSucceeded
    ensures t.clientVersions == s.clientVersions
  {
    var value := UserStatsOf(s, userName);
    var info := ClientOf(s, a);
    if success then
      var added := userName !in info.userNamesSucceeded;
      s.(clients := s.clients[a := info.(userNamesSucceeded := info.userNamesSucceeded + {userName})],
         userNames := s.userNames[userName := value.(successes := value.successes + 1,
                                                     clientsSucceeded := value.clientsSucceeded + if added then 1 else 0)])
    else
      var added := userName !in info.userNamesFailed;
      s.(clients := s.clients[a := info.(userNamesFailed := info.userNamesFailed + {userName})],
         userNames := s.userNames[userName := value.(failures := value.failures + 1,
                                                     clientsFailed := value.clientsFailed + if added then 1 else 0)])
  }

  /**
   * `AddClientVersion`: one more instance of the version, and one more distinct
   * client exactly when the address had not announced it before.
   */
  function WithClientVersion(s: BuilderState, a: Address, clientVersion: string): (t: BuilderState)
    ensures t.clients.Keys == s.clients.Keys + {a}
    ensures t.clients[a].events == ClientOf(s, a).events
    ensures forall k :: (t.clients[a].Tags(k) ==
      ClientOf(s, a).Tags(k) + if k == Version then {clientVersion} else {})
    ensures forall b :: b in s.clients && b != a ==> t.clients[b] == s.clients[b]
    ensures t.clientVersions.Keys == s.clientVersions.Keys + {clientVersion}
    ensures forall v :: v in s.clientVersions && v != clientVersion ==> t.clientVersions[v] == s.clientVersions[v]
    ensures var before, after := VersionStatsOf(s, clientVersion), t.clientVersions[clientVersion];
      && after.instances == before.instances + 1
      && after.clients == before.clients + (if clientVersion in ClientOf(s, a).clientVersions then 0 else 1)
    ensures t.userNames == s.userNames
  {
    var value := VersionStatsOf(s, clientVersion);
    var info := ClientOf(s, a);
    var added := clientVersion !in info.clientVersions;
    s.(clients := s.clients[a := info.(clientVersions := info.clientVersions + {clientVersion})],
       clientVersions := s.clientVersions[clientVersion := value.(instances := value.instances + 1,
                                                                   clients := value.clients + if added then 1 else 0)])
  }

  /** The effect of one call. */
  function Step(s: BuilderState, c: Call): BuilderState {
    match c
    case RemoteEventCall(time, a, isBlocked) => WithRemoteEvent(s, time, a, isBlocked)
    case LoginAttemptCall(a, userName, success) => WithLoginAttempt(s, a, userName, success)
    case ClientVersionCall(a, clientVersion) => WithClientVersion(s, a, clientVersion)
  }

  /** The effect of a sequence of calls, first to last. */
  function ApplyCalls(s: BuilderState, calls: seq<Call>): BuilderState
    decreases |calls|
  {
    if calls == [] then s else Step(ApplyCalls(s, calls[..|calls| - 1]), calls[|calls| - 1])
  }

  /** The strings of kind `k` a call adds to its address's sets. */
  function CallTags(c: Call, k: Kind): set<string> {
    match c
    case RemoteEventCall(_, _, _) => {}
    case LoginAttemptCall(_, userName, success) =>
      if k == (if success then UserSucceeded else UserFailed) then {userName} else {}
    case ClientVersionCall(_, clientVersion) => if k == Version then {clientVersion} else {}
  }

  /** The addresses whose set of kind `k` holds `tag`. */
  ghost function Holders(clients: map<Address, ClientInfo>, k: Kind, tag: string): set<Address> {
    set a | a in clients && tag in clients[a].Tags(k)
  }

  /** The keys of the dictionary that counts strings of kind `k`. */
  function KeysOf(s: BuilderState, k: Kind): set<string> {
    if k == Version then s.clientVersions.Keys else s.userNames.Keys
  }

  /** The distinct-client counter kept for `tag` of kind `k`. */
  function DistinctCount(s: BuilderState, k: Kind, tag: string): int
    requires tag in KeysOf(s, k)
  {
    match k
    case UserSucceeded => s.userNames[tag].clientsSucceeded
    case UserFailed => s.userNames[tag].clientsFailed
    case Version => s.clientVersions[tag].clients
  }

  /** The event counter kept for `tag` of kind `k`. */
  function EventCount(s: BuilderState, k: Kind, tag: string): int
    requires tag in KeysOf(s, k)
  {
    match k
    case UserSucceeded => s.userNames[tag].successes
    case UserFailed => s.userNames[tag].failures
    case Version => s.clientVersions[tag].instances
  }

  /** Every string in a client's set has an entry in the dictionary that counts it. */
  ghost predicate TagsRegistered(s: BuilderState) {
    forall a, k, tag :: a in s.clients && tag in s.clients[a].Tags(k) ==> tag in KeysOf(s, k)
  }

  /**
   * The counters of one key: the distinct-client counter is the number of
   * addresses whose set holds the key, it never exceeds the event counter, and
   * it is non-zero as soon as the event counter is.
   */
  ghost predicate CountAgrees(s: BuilderState, k: Kind, tag: string)
    requires tag in KeysOf(s, k)
  {
    && DistinctCount(s, k, tag) == |Holders(s.clients, k, tag)|
    && DistinctCount(s, k, tag) <= EventCount(s, k, tag)
    && (EventCount(s, k, tag) != 0 ==> DistinctCount(s, k, tag) != 0)
  }

  /** The builder's invariant; a version entry exists only once some client announced it. */
  ghost predicate Inv(s: BuilderState) {
    && TagsRegistered(s)
    && (forall k, tag :: tag in KeysOf(s, k) ==> CountAgrees(s, k, tag))
    && (forall v :: v in s.clientVersions ==> s.clientVersions[v].clients != 0)
  }

  lemma EmptyStateInv()
    ensures Inv(EMPTY_STATE)
  {
  }

  /** `a` holds `tag` exactly when the accumulator `GetClientInfo` yields for it does. */
  lemma HoldersMembership(s: BuilderState, a: Address, k: Kind, tag: string)
    ensures a in Holders(s.clients, k, tag) <==> tag in ClientOf(s, a).Tags(k)
  {
  }

  /** A string without a counter entry is in nobody's set. */
  lemma NoHoldersWithoutKey(s: BuilderState, k: Kind, tag: string)
    requires TagsRegistered(s)
    requires tag !in KeysOf(s, k)
    ensures Holders(s.clients, k, tag) == {}
  {
  }

  /** One call adds its own address to the holders of what it records, and changes no other holder. */
  lemma HoldersAfterCall(s: BuilderState, c: Call, k: Kind, tag: string)
    ensures Holders(Step(s, c).clients, k, tag) ==
      Holders(s.clients, k, tag) + if tag in CallTags(c, k) then {c.address} else {}
  {
    var t := Step(s, c);
    var a := c.address;
    assert t.clients.Keys == s.clients.Keys + {a};
    assert t.clients[a].Tags(k) == ClientOf(s, a).Tags(k) + CallTags(c, k);
    assert forall b :: b in s.clients && b != a ==> t.clients[b] == s.clients[b];
    HoldersMembership(s, a, k, tag);
  }

  /**
   * How one call moves the two counters of `tag`: both go up by one when the
   * call records `tag` (the distinct one only if the address is new to it),
   * neither moves otherwise. Absent keys read as zero.
   */
  lemma CountsAfterCall(s: BuilderState, c: Call, k: Kind, tag: string)
    requires tag in KeysOf(Step(s, c), k)
    ensures var t, a := Step(s, c), c.address;
      var dBefore := if tag in KeysOf(s, k) then DistinctCount(s, k, tag) else 0;
      var eBefore := if tag in KeysOf(s, k) then EventCount(s, k, tag) else 0;
      if tag in CallTags(c, k) then
        && EventCount(t, k, tag) == eBefore + 1
        && DistinctCount(t, k, tag) == dBefore + (if tag in ClientOf(s, a).Tags(k) then 0 else 1)
      else
        && EventCount(t, k, tag) == eBefore
        && DistinctCount(t, k, tag) == dBefore
  {
  }

  lemma StepKeepsTagsRegistered(s: BuilderState, c: Call)
    requires TagsRegistered(s)
    ensures TagsRegistered(Step(s, c))
  {
    var t := Step(s, c);
    var a := c.address;
    assert forall k :: KeysOf(s, k) <= KeysOf(t, k);
    forall b, k, tag | b in t.clients && tag in t.clients[b].Tags(k)
      ensures tag in KeysOf(t, k)
    {
      if b != a {
        assert t.clients[b] == s.clients[b];
      } else if tag !in CallTags(c, k) {
        assert t.clients[a].Tags(k) == ClientOf(s, a).Tags(k) + CallTags(c, k);
        assert tag in ClientOf(s, a).Tags(k);
      }
    }
  }

  lemma StepKeepsCount(s: BuilderState, c: Call, k: Kind, tag: string)
    requires Inv(s)
    requires tag in KeysOf(Step(s, c), k)
    ensures CountAgrees(Step(s, c), k, tag)
  {
    HoldersAfterCall(s, c, k, tag);
    HoldersMembership(s, c.address, k, tag);
    if tag !in KeysOf(s, k) {
      NoHoldersWithoutKey(s, k, tag);
    } else {
      assert CountAgrees(s, k, tag);
    }
    CountsAfterCall(s, c, k, tag);
  }

  /** Every operation keeps the invariant. */
  lemma StepPreservesInv(s: BuilderState, c: Call)
    requires Inv(s)
    ensures Inv(Step(s, c))
  {
    var t := Step(s, c);
    StepKeepsTagsRegistered(s, c);
    forall k, tag | tag in KeysOf(t, k) ensures CountAgrees(t, k, tag) {
      StepKeepsCount(s, c, k, tag);
    }
    forall v | v in t.clientVersions ensures t.clientVersions[v].clients != 0 {
      if c.ClientVersionCall? && v == c.clientVersion {
        StepKeepsCount(s, c, Version, v);
        HoldersAfterCall(s, c, Version, v);
        assert c.address in Holders(t.clients, Version, v);
      } else {
        assert v in s.clientVersions;
      }
    }
  }

  /** `Inv` holds after any sequence of calls on a builder that satisfied it. */
  lemma {:induction false} ApplyCallsPreservesInv(s: BuilderState, calls: seq<Call>)
    requires Inv(s)
    ensures Inv(ApplyCalls(s, calls))
    decreases |calls|
  {
    if calls != [] {
      ApplyCallsPreservesInv(s, calls[..|calls| - 1]);
      StepPreservesInv(ApplyCalls(s, calls[..|calls| - 1]), calls[|calls| - 1]);
    }
  }

  /** The addresses of the calls in `calls` that recorded `tag` of kind `k`. */
  ghost function Announced(calls: seq<Call>, k: Kind, tag: string): set<Address> {
    set i | 0 <= i < |calls| && tag in CallTags(calls[i], k) :: calls[i].address
  }

  /** After a sequence of calls, the holders of a key are the old holders plus every address a call recorded it for. */
  lemma {:induction false} HoldersAfterCalls(s: BuilderState, calls: seq<Call>, k: Kind, tag: string)
    ensures Holders(ApplyCalls(s, calls).clients, k, tag) == Holders(s.clients, k, tag) + Announced(calls, k, tag)
    decreases |calls|
  {
    if calls == [] {
      assert Announced(calls, k, tag) == {};
    } else {
      var prefix, last := calls[..|calls| - 1], calls[|calls| - 1];
      HoldersAfterCalls(s, prefix, k, tag);
      HoldersAfterCall(ApplyCalls(s, prefix), last, k, tag);
      AnnouncedSnoc(calls, k, tag);
    }
  }

  lemma AnnouncedSnoc(calls: seq<Call>, k: Kind, tag: string)
    requires calls != []
    ensures var prefix, last := calls[..|calls| - 1], calls[|calls| - 1];
      Announced(calls, k, tag) == Announced(prefix, k, tag) + if tag in CallTags(last, k) then {last.address} else {}
  {
    var prefix, last := calls[..|calls| - 1], calls[|calls| - 1];
    forall b | b in Announced(calls, k, tag)
      ensures b in Announced(prefix, k, tag) || (tag in CallTags(last, k) && b == last.address)
    {
      var i :| 0 <= i < |calls| && tag in CallTags(calls[i], k) && calls[i].address == b;
      if i < |prefix| {
        assert prefix[i] == calls[i];
      }
    }
    forall b | b in Announced(prefix, k, tag) ensures b in Announced(calls, k, tag) {
      var i :| 0 <= i < |prefix| && tag in CallTags(prefix[i], k) && prefix[i].address == b;
      assert calls[i] == prefix[i];
    }
    if tag in CallTags(last, k) {
      assert calls[|calls| - 1] == last;
    }
  }

  /**
   * The first-seen counting is exact: starting from a new builder, each
   * distinct-client counter equals the number of distinct addresses for which
   * that key was ever recorded, however often each address repeated it.
   */
  lemma DistinctCountsAreDistinctAddresses(calls: seq<Call>, k: Kind, tag: string)
    requires tag in KeysOf(ApplyCalls(EMPTY_STATE, calls), k)
    ensures DistinctCount(ApplyCalls(EMPTY_STATE, calls), k, tag) == |Announced(calls, k, tag)|
  {
    EmptyStateInv();
    ApplyCallsPreservesInv(EMPTY_STATE, calls);
    HoldersAfterCalls(EMPTY_STATE, calls, k, tag);
    assert Holders(EMPTY_STATE.clients, k, tag) == {};
  }

  /** Two different addresses logging in successfully as one user count as two clients. */
  lemma TwoClientsSucceedingAsOneUser(a1: Address, a2: Address, userName: string)
    requires a1 != a2
    ensures var s := ApplyCalls(EMPTY_STATE, [LoginAttemptCall(a1, userName, true), LoginAttemptCall(a2, userName, true)]);
      && userName in s.userNames
      && s.userNames[userName].successes == 2
      && s.userNames[userName].clientsSucceeded == 2
  {
    var calls := [LoginAttemptCall(a1, userName, true), LoginAttemptCall(a2, userName, true)];
    assert calls[..1] == [calls[0]];
    assert calls[..1][..0] == [];
    var once := WithLoginAttempt(EMPTY_STATE, a1, userName, true);
    assert ApplyCalls(EMPTY_STATE, calls[..1]) == once;
    assert UserStatsOf(once, userName).successes == 1 && UserStatsOf(once, userName).clientsSucceeded == 1;
    assert userName !in ClientOf(once, a2).userNamesSucceeded;
  }

  /** Announcing the same version twice from one new address: two instances, one client. */
  lemma ClientVersionTwice(s: BuilderState, a: Address, clientVersion: string)
    requires clientVersion !in ClientOf(s, a).clientVersions
    ensures var t := WithClientVersion(WithClientVersion(s, a, clientVersion), a, clientVersion);
      && t.clientVersions[clientVersion].instances == VersionStatsOf(s, clientVersion).instances + 2
      && t.clientVersions[clientVersion].clients == VersionStatsOf(s, clientVersion).clients + 1
  {
    var once := WithClientVersion(s, a, clientVersion);
    assert clientVersion in ClientOf(once, a).clientVersions by {
      assert ClientOf(once, a).Tags(Version) == ClientOf(s, a).Tags(Version) + {clientVersion};
    }
  }

  /** The times of the events with the given `isBlocked` flag, in their order (`from e in Events where ... select e.time`). */
  function TimesWhere(events: seq<TimedEvent>, blocked: bool): (r: seq<Time>)
    ensures |r| <= |events|
    decreases |events|
  {
    if events == [] then []
    else
      var last := events[|events| - 1];
      TimesWhere(events[..|events| - 1], blocked) + if last.isBlocked == blocked then [last.time] else []
  }

  /** A time is in the filtered list exactly when some event with that flag has it. */
  lemma {:induction false} TimesWhereMembers(events: seq<TimedEvent>, blocked: bool, t: Time)
    ensures t in TimesWhere(events, blocked) <==>
      exists i :: 0 <= i < |events| && events[i].isBlocked == blocked && events[i].time == t
    decreases |events|
  {
    if events != [] {
      var prefix, last := events[..|events| - 1], events[|events| - 1];
      TimesWhereMembers(prefix, blocked, t);
      assert forall i :: 0 <= i < |prefix| ==> prefix[i] == events[i];
      if exists i :: 0 <= i < |events| && events[i].isBlocked == blocked && events[i].time == t {
        var i :| 0 <= i < |events| && events[i].isBlocked == blocked && events[i].time == t;
        if i < |prefix| {
          assert prefix[i].isBlocked == blocked && prefix[i].time == t;
        }
      }
    }
  }

  /** All the times of an event list, in order. */
  function Times(events: seq<TimedEvent>): seq<Time>
    decreases |events|
  {
    if events == [] then [] else Times(events[..|events| - 1]) + [events[|events| - 1].time]
  }

  /** The two filters split the event list: together they hold every event's time, once. */
  lemma {:induction false} TimesWherePartition(events: seq<TimedEvent>)
    ensures |TimesWhere(events, false)| + |TimesWhere(events, true)| == |events|
    ensures multiset(TimesWhere(events, false)) + multiset(TimesWhere(events, true)) == multiset(Times(events))
    decreases |events|
  {
    if events != [] {
      var prefix, last := events[..|events| - 1], events[|events| - 1];
      TimesWherePartition(prefix);
      assert Times(events) == Times(prefix) + [last.time];
    }
  }

  /** A client has no non-blocked time exactly when every one of its events was blocked. */
  lemma {:induction false} NoEventTimesIffAllBlocked(events: seq<TimedEvent>)
    ensures TimesWhere(events, false) == [] <==> forall i :: 0 <= i < |events| ==> events[i].isBlocked
    decreases |events|
  {
    if events != [] {
      var prefix := events[..|events| - 1];
      NoEventTimesIffAllBlocked(prefix);
      assert forall i :: 0 <= i < |prefix| ==> prefix[i] == events[i];
    }
  }

  /** The snapshot `Build` makes of one accumulator, through the validating constructor. */
  function ClientSnapshot(a: Address, info: ClientInfo): Result<ReviewClient, Fault> {
    NewReviewClient(Some(a), Some(TimesWhere(info.events, false)), TimesWhere(info.events, true),
                    info.userNamesSucceeded, info.userNamesFailed, info.clientVersions)
  }

  /**
   * `Build`: a snapshot of every client, the usernames with a non-zero success
   * (failure) count and every client version. It fails as soon as one client
   * has no non-blocked event, because that client's constructor throws.
   */
  function Snapshot(s: BuilderState): (r: Result<Review, Fault>)
    ensures r.Failure? <==> exists a :: a in s.clients && TimesWhere(s.clients[a].events, false) == []
    ensures r.Failure? ==> r.error == ArgumentInvalid("eventTimes")
    ensures r.Success? ==> r.value.clientVersions == s.clientVersions.Keys
  {
    if exists a :: a in s.clients && ClientSnapshot(a, s.clients[a]).Failure? then
      Failure(ArgumentInvalid("eventTimes"))
    else
      Success(Review(
        (set a | a in s.clients :: ClientSnapshot(a, s.clients[a]).value),
        (set u | u in s.userNames && s.userNames[u].successes != 0),
        (set u | u in s.userNames && s.userNames[u].failures != 0),
        s.clientVersions.Keys))
  }

  /** A snapshot's set of kind `k`. */
  function SnapshotTags(c: ReviewClient, k: Kind): set<string> {
    match k
    case UserSucceeded => c.userNamesSucceeded
    case UserFailed => c.userNamesFailed
    case Version => c.clientVersions
  }

  /** The aggregate collection of a review that lists strings of kind `k`. */
  function AggregateOf(r: Review, k: Kind): set<string> {
    match k
    case UserSucceeded => r.userNamesSucceeded
    case UserFailed => r.userNamesFailed
    case Version => r.clientVersions
  }

  /**
   * Each snapshot describes exactly one address of the builder, every address
   * gets one, and its two time lists split that address's events.
   */
  lemma SnapshotClients(s: BuilderState)
    requires Snapshot(s).Success?
    ensures var clients := Snapshot(s).value.clients;
      && (set c | c in clients :: c.ipAddress) == s.clients.Keys
      && (forall c1, c2 :: c1 in clients && c2 in clients && c1.ipAddress == c2.ipAddress ==> c1 == c2)
      && forall c :: c in clients ==>
           var info := s.clients[c.ipAddress];
           && c.HasEvents()
           && c.eventTimes == TimesWhere(info.events, false)
           && c.blockedEventTimes == TimesWhere(info.events, true)
           && |c.eventTimes| + |c.blockedEventTimes| == |info.events|
           && c.userNamesSucceeded == info.userNamesSucceeded
           && c.userNamesFailed == info.userNamesFailed
           && c.clientVersions == info.clientVersions
  {
    var clients := Snapshot(s).value.clients;
    forall a | a in s.clients ensures a in (set c | c in clients :: c.ipAddress) {
      assert ClientSnapshot(a, s.clients[a]).value in clients;
    }
    forall c | c in clients ensures |c.eventTimes| + |c.blockedEventTimes| == |s.clients[c.ipAddress].events| {
      TimesWherePartition(s.clients[c.ipAddress].events);
    }
  }

  /**
   * Under the invariant, the aggregate lists agree with the per-client sets: a
   * username is listed as succeeded (failed) exactly when some client succeeded
   * (failed) with it, and a version exactly when some client announced it.
   */
  lemma SnapshotAggregates(s: BuilderState)
    requires Inv(s)
    requires Snapshot(s).Success?
    ensures var r := Snapshot(s).value;
      forall k, tag :: tag in AggregateOf(r, k) <==> exists c :: c in r.clients && tag in SnapshotTags(c, k)
  {
    var r := Snapshot(s).value;
    forall k, tag
      ensures tag in AggregateOf(r, k) <==> exists c :: c in r.clients && tag in SnapshotTags(c, k)
    {
      AggregateHasHolder(s, k, tag);
      if b :| b in Holders(s.clients, k, tag) {
        var c := ClientSnapshot(b, s.clients[b]).value;
        assert c in r.clients && SnapshotTags(c, k) == s.clients[b].Tags(k);
      }
      if c :| c in r.clients && tag in SnapshotTags(c, k) {
        var b :| b in s.clients && c == ClientSnapshot(b, s.clients[b]).value;
        assert b in Holders(s.clients, k, tag);
      }
    }
  }

  /** Under the invariant, a key is listed in the review exactly when some address holds it. */
  lemma AggregateHasHolder(s: BuilderState, k: Kind, tag: string)
    requires Inv(s)
    requires Snapshot(s).Success?
    ensures tag in AggregateOf(Snapshot(s).value, k) <==> Holders(s.clients, k, tag) != {}
  {
    var h := Holders(s.clients, k, tag);
    if tag in KeysOf(s, k) {
      assert CountAgrees(s, k, tag);
      if h != {} {
        var b :| b in h;
        assert |h| != 0;
      }
    } else {
      NoHoldersWithoutKey(s, k, tag);
    }
  }

  /**
   * Starting from a new builder, the review lists a username as succeeded
   * (failed), or a version, exactly when some call recorded it.
   */
  lemma ReviewListsRecordedKeys(calls: seq<Call>, k: Kind, tag: string)
    requires Snapshot(ApplyCalls(EMPTY_STATE, calls)).Success?
    ensures tag in AggregateOf(Snapshot(ApplyCalls(EMPTY_STATE, calls)).value, k) <==>
      exists i :: 0 <= i < |calls| && tag in CallTags(calls[i], k)
  {
    var s := ApplyCalls(EMPTY_STATE, calls);
    EmptyStateInv();
    ApplyCallsPreservesInv(EMPTY_STATE, calls);
    HoldersAfterCalls(EMPTY_STATE, calls, k, tag);
    assert Holders(EMPTY_STATE.clients, k, tag) == {};
    AggregateHasHolder(s, k, tag);
    if i :| 0 <= i < |calls| && tag in CallTags(calls[i], k) {
      assert calls[i].address in Announced(calls, k, tag);
    }
  }

  /**
   * A call that reaches a new address without recording a non-blocked
   * connection (a rejected connection, a login attempt, a version) leaves that
   * address without event times, so `Build` throws.
   */
  lemma SnapshotFailsWithoutConnection(s: BuilderState, c: Call)
    requires c.address !in s.clients
    requires !(c.RemoteEventCall? && !c.isBlocked)
    ensures Snapshot(Step(s, c)).Failure?
  {
    var t := Step(s, c);
    var a := c.address;
    assert forall i :: 0 <= i < |t.clients[a].events| ==> t.clients[a].events[i].isBlocked;
    NoEventTimesIffAllBlocked(t.clients[a].events);
  }

  /**
   * The class: three dictionaries the operations update in place. Their
   * contracts tie the new state to the specification functions above.
   */
  class ReviewBuilder {
    var clients: map<Address, ClientInfo>
    var userNames: map<string, UserStats>
    var clientVersions: map<string, VersionStats>

    function State(): BuilderState
      reads this
    {
      BuilderState(clients, userNames, clientVersions)
    }

    ghost predicate Valid()
      reads this
    {
      Inv(State())
    }

    constructor ()
      ensures State() == EMPTY_STATE && Valid()
    {
      clients := map[];
      userNames := map[];
      clientVersions := map[];
    }

    method AddRemoteEvent(time: Time, remoteAddress: Address, isBlocked: bool)
      requires Valid()
      modifies this
      ensures State() == WithRemoteEvent(old(State()), time, remoteAddress, isBlocked)
      ensures Valid()
    {
      StepPreservesInv(State(), RemoteEventCall(time, remoteAddress, isBlocked));
      var info := GetClientInfo(remoteAddress);
      clients := clients[remoteAddress := info.(events := info.events + [TimedEvent(time, isBlocked)])];
    }

    /** The accumulator of an address, added to `clients` first if absent. */
    method GetClientInfo(remoteAddress: Address) returns (info: ClientInfo)
      modifies this
      ensures info == ClientOf(old(State()), remoteAddress)
      ensures clients == old(clients)[remoteAddress := info]
      ensures userNames == old(userNames) && clientVersions == old(clientVersions)
    {
      if remoteAddress in clients {
        info := clients[remoteAddress];
      } else {
        info := NEW_CLIENT_INFO;
        clients := clients[remoteAddress := info];
      }
    }

    /** The read-only projection into an immutable snapshot. */
    function Build(): (r: Result<Review, Fault>)
      reads this
      ensures r == Snapshot(State())
    {
      Snapshot(State())
    }

    method AddLoginAttempt(remoteAddress: Address, userName: string, success: bool)
      requires Valid()
      modifies this
      ensures State() == WithLoginAttempt(old(State()), remoteAddress, userName, success)
      ensures Valid()
    {
      ghost var target := WithLoginAttempt(State(), remoteAddress, userName, success);
      StepPreservesInv(State(), LoginAttemptCall(remoteAddress, userName, success));
      assert Inv(target);
      var value := GetValueOrDefault(Some(userNames), userName, ZERO_USER_STATS).value;
      if success {
        value := value.(successes := value.successes + 1);
        var info := GetClientInfo(remoteAddress);
        var added := userName !in info.userNamesSucceeded;
        clients := clients[remoteAddress := info.(userNamesSucceeded := info.userNamesSucceeded + {userName})];
        if added {
          value := value.(clientsSucceeded := value.clientsSucceeded + 1);
        }
        assert clients == target.clients && value == target.userNames[userName];
      } else {
        value := value.(failures := value.failures + 1);
        var info := GetClientInfo(remoteAddress);
        var added := userName !in info.userNamesFailed;
        clients := clients[remoteAddress := info.(userNamesFailed := info.userNamesFailed + {userName})];
        if added {
          value := value.(clientsFailed := value.clientsFailed + 1);
        }
        assert clients == target.clients && value == target.userNames[userName];
      }
      userNames := userNames[userName := value];
      assert State() == target;
    }

    method AddClientVersion(remoteAddress: Address, clientVersion: string)
      requires Valid()
      modifies this
      ensures State() == WithClientVersion(old(State()), remoteAddress, clientVersion)
      ensures Valid()
    {
      StepPreservesInv(State(), ClientVersionCall(remoteAddress, clientVersion));
      var value := GetValueOrDefault(Some(clientVersions), clientVersion, ZERO_VERSION_STATS).value;
      value := value.(instances := value.instances + 1);
      var info := GetClientInfo(remoteAddress);
      var added := clientVersion !in info.clientVersions;
      clients := clients[remoteAddress := info.(clientVersions := info.clientVersions + {clientVersion})];
      if added {
        value := value.(clients := value.clients + 1);
      }
      clientVersions := clientVersions[clientVersion := value];
    }
  }
}
