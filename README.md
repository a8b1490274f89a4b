# logreview: the review aggregation engine, in Dafny

`logreview` reads server event logs and summarises the remote clients they mention. It lists which usernames logged in successfully, which failed, which addresses tried to log in and which did not, and which client versions were seen. This project models the core of that program:

- **`ReviewBuilder`** (module `ReviewBuilding`). This is a class with the builder's three dictionaries:
  - `clients`: address → event list plus three string sets;
  - `userNames`: username → four counters;
  - `clientVersions`: version → two counters.

  Its mutating methods `AddRemoteEvent`, `GetClientInfo`, `AddLoginAttempt` and `AddClientVersion` update these maps in place. Each method is proved equal to a specification function of the builder's state (`WithRemoteEvent`, `WithLoginAttempt`, `WithClientVersion`). `Build` is a read-only function of the state (`Snapshot`).
- **The counting invariant** (`Inv`). Every distinct-client counter equals the number of addresses whose set holds its key. `StepPreservesInv` proves that every operation keeps it. Two consequences are proved:
  - after any sequence of calls, each counter equals the number of distinct addresses that recorded the key (`DistinctCountsAreDistinctAddresses`);
  - the review's aggregate lists agree with the per-client sets (`SnapshotAggregates`, `ReviewListsRecordedKeys`).
- **`ReviewClient` and `Review`** (module `Snapshots`). Both are immutable datatypes. `NewReviewClient` is the validating constructor: it fails on a null address, on null event times, and on empty event times.
- **The per-event logic of `Program.ReadLog`** (module `LogReading`):
  - `DispatchEvent` gives the builder calls one event makes;
  - `ReadEvent` and `ReadLog` carry out those calls on a `ReviewBuilder`, in order, and stop at the first exception.
- **`IPAddressComparer.Compare`** (module `IPAddressOrder`) and **`Extensions.GetValueOrDefault`** (module `Extensions`).

Three facts about the code shape the model:

- **Event names.** The events that drive the builder are `I_CONNECT_REJECTED`, `I_LOGON_AUTH_FAILED`, `I_LOGON_AUTH_SUCCEEDED` and `I_CONNECT_VERSION_RECEIVED`.
- **Which clients `Build` snapshots.** `Build` snapshots every address. The `ReviewClient` constructor throws when an address has no non-blocked event. An address seen only in `I_CONNECT_REJECTED` events reaches that case (`SnapshotFailsWithoutConnection`).
- **What `ReadLog` guarantees.** Reading keeps every address with at least one event, blocked or not, also on a builder that already read earlier logs (`ReadLogClientsHaveEvents`).

Failures are `Fault` values inside a `Result`. A null reference is `None`. Times are integers. An address is its byte sequence. `IPAddress.Parse` is a function parameter, and `DateTime.Parse` is abstracted into an optional time.

## Model

| member | source | states |
|---|---|---|
| IPAddressOrder.CompareBytes | logreview/IPAddressComparer.cs:18 | structural comparison of equal-length byte arrays; result is -1, 0 or 1, and 0 exactly when the bytes are equal |
| IPAddressOrder.Compare | logreview/IPAddressComparer.cs:12-19 | equal arguments (both null included) give 0; null against non-null gives -1; non-null against null gives 1; two addresses give 0 exactly when their bytes are equal |
| IPAddressOrder.CompareBytesIsLexicographic | logreview/IPAddressComparer.cs:18 | the byte comparison is below zero exactly when the first byte that differs is smaller (lexicographic order) |
| IPAddressOrder.CompareBytesAntisymmetric | logreview/IPAddressComparer.cs:18 | swapping the byte arrays negates the result |
| IPAddressOrder.CompareAntisymmetric | logreview/IPAddressComparer.cs:14-18 | `Compare(x, y) == -Compare(y, x)`, the null cases included |
| IPAddressOrder.CompareBytesTransitive | logreview/IPAddressComparer.cs:18 | the order is transitive |
| Extensions.GetValueOrDefault | logreview/Extensions.cs:8-12 | a null dictionary fails with an argument-null error; a present key yields the stored value; an absent key yields the default; the dictionary is a value and is not changed |
| Snapshots.NewReviewClient | logreview/ReviewClient.cs:12-30 | fails exactly when the address is null, the event times are null, or the event times are empty (checked in that order, with those errors); otherwise every property is its constructor argument and the client has at least one event time |
| Snapshots.ReviewClient.EventSpan | logreview/ReviewClient.cs:44-47 | the min and max that `ToString` takes exist for every constructed client; both are event times, they bound all event times, and min ≤ max |
| Snapshots.Earliest | logreview/ReviewClient.cs:46 | `Min()` of a non-empty list is one of its elements and is ≤ every element |
| Snapshots.Latest | logreview/ReviewClient.cs:47 | `Max()` of a non-empty list is one of its elements and is ≥ every element |
| ReviewBuilding.UserStatsOf | logreview/ReviewBuilder.cs:65 | the username counters, all zero when the username has no entry |
| ReviewBuilding.VersionStatsOf | logreview/ReviewBuilder.cs:85 | the version counters, both zero when the version has no entry |
| ReviewBuilding.WithRemoteEvent | logreview/ReviewBuilder.cs:35-45 | `(time, isBlocked)` is appended to that address's event list (a new entry when the address is absent); the address's sets, every other client and all counters are unchanged |
| ReviewBuilding.WithLoginAttempt | logreview/ReviewBuilder.cs:63-81 | on success: `successes` +1; `clientsSucceeded` +1 exactly when the address's succeeded set lacked the username; the name joins that set; failure counters unchanged. The failure case is symmetric. Other usernames, other clients, the events and the version counters are unchanged |
| ReviewBuilding.WithClientVersion | logreview/ReviewBuilder.cs:83-89 | `instances` +1; `clients` +1 exactly when the address had not announced the version; the version joins the address's set; everything else is unchanged |
| ReviewBuilding.EmptyStateInv | logreview/ReviewBuilder.cs:28-31 | a new builder satisfies the counting invariant |
| ReviewBuilding.HoldersMembership | logreview/ReviewBuilder.cs:40-45 | an address holds a key exactly when the accumulator `GetClientInfo` yields for it has the key in its set |
| ReviewBuilding.NoHoldersWithoutKey | logreview/ReviewBuilder.cs:63-89 | a string without a counter entry is in no client's set |
| ReviewBuilding.HoldersAfterCall | logreview/ReviewBuilder.cs:35-89 | one operation adds its own address to the holders of the key it records, and changes no other holder set |
| ReviewBuilding.CountsAfterCall | logreview/ReviewBuilder.cs:63-89 | one operation raises a key's event counter by 1 and its distinct counter by 1 exactly when the address is new to the key; all other counters stay put; absent entries read as zero |
| ReviewBuilding.StepKeepsTagsRegistered | logreview/ReviewBuilder.cs:63-89 | after any operation, every string in a client's set still has a counter entry |
| ReviewBuilding.StepKeepsCount | logreview/ReviewBuilder.cs:63-89 | after any operation, each key's distinct-client counter still equals its number of holders, and is ≤ its event counter and non-zero once that counter is |
| ReviewBuilding.StepPreservesInv | logreview/ReviewBuilder.cs:35-89 | each of the three operations preserves the invariant: distinct-client counters equal the number of addresses whose set holds the key |
| ReviewBuilding.ApplyCallsPreservesInv | logreview/ReviewBuilder.cs:35-89 | the invariant holds after any sequence of operations |
| ReviewBuilding.HoldersAfterCalls | logreview/ReviewBuilder.cs:63-89 | after a sequence of operations, a key's holders are its old holders plus every address an operation recorded it for |
| ReviewBuilding.AnnouncedSnoc | logreview/ReviewBuilder.cs:63-89 | the addresses that recorded a key in a longer sequence of calls are those of the shorter sequence plus the last call's address when it records the key |
| ReviewBuilding.DistinctCountsAreDistinctAddresses | logreview/ReviewBuilder.cs:63-89 | from a new builder, `clientsSucceeded[u]`, `clientsFailed[u]` and `clientVersions[v].clients` each equal the number of distinct addresses that recorded the key, however often each repeated it |
| ReviewBuilding.TwoClientsSucceedingAsOneUser | logreview/ReviewBuilder.cs:63-81 | two different addresses logging in successfully as one user give `successes == 2` and `clientsSucceeded == 2` |
| ReviewBuilding.ClientVersionTwice | logreview/ReviewBuilder.cs:83-89 | the same address announcing a version twice raises `instances` by 2 but `clients` by only 1 |
| ReviewBuilding.TimesWhere | logreview/ReviewBuilder.cs:52-53 | the filtered time list is never longer than the event list |
| ReviewBuilding.TimesWhereMembers | logreview/ReviewBuilder.cs:52-53 | a time is in the filtered list exactly when some event with the given blocked flag has that time |
| ReviewBuilding.TimesWherePartition | logreview/ReviewBuilder.cs:52-53 | the non-blocked and blocked time lists together hold every event's time exactly once (lengths add up; multisets add up) |
| ReviewBuilding.NoEventTimesIffAllBlocked | logreview/ReviewBuilder.cs:52 | a client's non-blocked time list is empty exactly when all its events are blocked |
| ReviewBuilding.Snapshot | logreview/ReviewBuilder.cs:47-61 | `Build` fails, with the constructor's empty-event-times error, exactly when some client has no non-blocked event; otherwise the version list is every key of `clientVersions` |
| ReviewBuilding.SnapshotClients | logreview/ReviewBuilder.cs:50-57 | exactly one snapshot per builder address; its event times and blocked times are the order-preserving filters of that address's events and split them completely; its sets are the address's sets |
| ReviewBuilding.SnapshotAggregates | logreview/ReviewBuilder.cs:58-60 | under the invariant: a username is listed as succeeded (or failed) exactly when some client snapshot has it in that set; a version is listed exactly when some client announced it |
| ReviewBuilding.AggregateHasHolder | logreview/ReviewBuilder.cs:58-60 | under the invariant: `successes != 0` (or `failures != 0`, or a version key) exactly when some address holds the key |
| ReviewBuilding.ReviewListsRecordedKeys | logreview/ReviewBuilder.cs:58-89 | from a new builder, the review lists a username as succeeded (or failed), or a version, exactly when some call recorded it; a username that only ever failed is never listed as succeeded |
| ReviewBuilding.SnapshotFailsWithoutConnection | logreview/ReviewBuilder.cs:50-52 | a new address reached only by a rejected connection, a login attempt or a version announcement makes `Build` fail |
| ReviewBuilding.ReviewBuilder.constructor | logreview/ReviewBuilder.cs:28-31 | a new builder has three empty dictionaries and satisfies the invariant |
| ReviewBuilding.ReviewBuilder.AddRemoteEvent | logreview/ReviewBuilder.cs:35-38 | the new state is `WithRemoteEvent` of the old one; the invariant is kept |
| ReviewBuilding.ReviewBuilder.GetClientInfo | logreview/ReviewBuilder.cs:40-45 | returns the address's accumulator; adds a new empty one only when the address is absent; the counters are untouched |
| ReviewBuilding.ReviewBuilder.Build | logreview/ReviewBuilder.cs:47-61 | a read-only function of the builder's state (`Snapshot`) that changes nothing |
| ReviewBuilding.ReviewBuilder.AddLoginAttempt | logreview/ReviewBuilder.cs:63-81 | the new state is `WithLoginAttempt` of the old one, reached through `GetValueOrDefault`, `GetClientInfo` and the set insertion's first-time result; the invariant is kept |
| ReviewBuilding.ReviewBuilder.AddClientVersion | logreview/ReviewBuilder.cs:83-89 | the new state is `WithClientVersion` of the old one; the invariant is kept |
| LogReading.IndexOf | logreview/Program.cs:70 | -1 exactly when the character is absent; otherwise the position of its first occurrence |
| LogReading.HostOf | logreview/Program.cs:69-71 | the host is a prefix of the raw text with no `':'`; it stops at the first `':'` when there is one, and is the whole text otherwise |
| LogReading.HostOfHostAndPort | logreview/Program.cs:69-71 | `host:port` yields `host` |
| LogReading.IPv6LiteralLosesItsHost | logreview/Program.cs:70-71 | `::1` yields the empty host |
| LogReading.DispatchEvent | logreview/Program.cs:61-89 | an unparsable time fails; no remote address means no calls; an unparsable host fails before any call; an omitted address means no calls. A kept event makes exactly one `AddRemoteEvent`, first, with `isBlocked` iff the name is `I_CONNECT_REJECTED`, and every call concerns that address. After it: the two login names add one `AddLoginAttempt` (`success` iff `I_LOGON_AUTH_SUCCEEDED`), or fail when `userName` is missing; `I_CONNECT_VERSION_RECEIVED` adds `AddClientVersion`, or fails when `clientVersion` is missing; any other name adds nothing. Whenever a second call is made, no exception follows and reading continues |
| LogReading.ReadLogStopsAtFault | logreview/Program.cs:59-91 | once an event has thrown, later events change nothing |
| LogReading.DispatchKeepsClientsWithEvents | logreview/Program.cs:74-87 | the calls for one event leave no address without events |
| LogReading.ReadLogClientsHaveEvents | logreview/Program.cs:59-90 | reading a log into a builder whose every client has an event (a new builder, or one that already read earlier log files) leaves every client with at least one (blocked or non-blocked) event |
| LogReading.ReadEvent | logreview/Program.cs:61-89 | the builder's new state is the old one after exactly `DispatchEvent`'s calls, in order, and the returned fault is `DispatchEvent`'s |
| LogReading.ReadLog | logreview/Program.cs:55-92 | processes the events in order, stopping at the first exception; the final state and fault are those of `ReadLogSpec`, and the invariant is kept |

## Left out

- `Main`, `GetRemoteAddressesToOmit`, `BuildReview` (logreview/Program.cs:12-53): file reading, directory search and the `IOException` handler are I/O. The omit list is a plain `set<Address>` input, and `ReadLog` takes the events as a list.
- XML navigation (`XmlReader`): an event is the `LogEvent` record with optional fields. A missing `name` attribute is not modelled.
- `DateTime.Parse` and `IPAddress.Parse` are parsers from the platform. A time is an `Option<Time>`, with `None` for text the parser rejects. The address parser is the function parameter `parse`.
- `WriteSummary` (logreview/Program.cs:94-127): console output and sorting for display.
- The `ToString` texts of `Review` and `ReviewClient` use culture-dependent date formatting. Only the min/max that `ReviewClient.ToString` relies on is modelled (`EventSpan`). `Review.ToString` reports `Clients.Count`, which is the number of builder addresses (`SnapshotClients`: one snapshot per address).
- Hashing, and the reference equality `x == y` in `IPAddressComparer.Compare`: addresses are compared by value, as Dafny sets and maps do.
- IPAddressOrder.Compare: requires equal byte lengths when both addresses are present, because comparing arrays of different lengths is platform behaviour. It returns -1, 0 or 1, whereas the platform's byte comparer may return any negative or positive number; only the sign is modelled.
- ReviewBuilding.WithLoginAttempt: the counters are unbounded integers; C# `int` counters would wrap around after 2^31 increments.
- ReviewBuilding.WithClientVersion: the counters are unbounded integers, as above.
- Snapshots.NewReviewClient: the unvalidated arguments (blocked times and the three string collections) are never null here. The string collections are sets, because `Build` fills them only from hash sets.
- Collection order: the lists `Build` makes from dictionaries and hash sets have no defined order, so `Review` holds sets. `Build` throws at the first offending client in enumeration order; the model fails with the same error whenever any client offends.
- Exception types are `Fault` values, not exception classes.
