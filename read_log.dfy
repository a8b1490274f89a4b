/**
 * The per-event logic of `Program.ReadLog`: from one log event, take the
 * remote host, drop omitted addresses, record the connection, and then a login
 * attempt or a client version according to the event's name.
 */
module LogReading {
  import opened Outcomes
  import opened IPAddressOrder
  import opened Snapshots
  import opened ReviewBuilding

  const CONNECT_REJECTED := "I_CONNECT_REJECTED"
  const LOGON_AUTH_FAILED := "I_LOGON_AUTH_FAILED"
  const LOGON_AUTH_SUCCEEDED := "I_LOGON_AUTH_SUCCEEDED"
  const CONNECT_VERSION_RECEIVED := "I_CONNECT_VERSION_RECEIVED"

  /**
   * One `event` element of a log. `time` is `None` when its text is not a date
   * `DateTime.Parse` accepts; `remoteAddress` is the `remoteAddress` attribute of
   * the `session` child, `userName` that of the `authentication` sibling and
   * `clientVersion` that of the `parameters` sibling, each `None` when absent.
   */
  datatype LogEvent = LogEvent(
    time: Option<Time>,
    name: string,
    remoteAddress: Option<string>,
    userName: Option<string>,
    clientVersion: Option<string>)

  /** The builder calls one event makes, and the exception it ends with, if any. */
  datatype Dispatch = Dispatch(calls: seq<Call>, fault: Option<Fault>)

  /** `String.IndexOf(char)`: the first position of `c`, or -1. */
  function IndexOf(s: string, c: char): (r: int)
    ensures r == -1 <==> c !in s
    ensures r != -1 ==> 0 <= r < |s| && s[r] == c && c !in s[..r]
    decreases |s|
  {
    if s == [] then -1
    else if s[0] == c then 0
    else
      var rest := IndexOf(s[1..], c);
      if rest == -1 then -1
      else
        assert s[..rest + 1] == [s[0]] + s[1..][..rest];
        rest + 1
  }

  /** The text before the first `':'`, or the whole text when it has none. */
  function HostOf(raw: string): (host: string)
    ensures ':' !in host
    ensures host <= raw
    ensures ':' in raw ==> |host| < |raw| && raw[|host|] == ':'
    ensures ':' !in raw ==> host == raw
  {
    var portIndex := IndexOf(raw, ':');
    if portIndex != -1 then raw[..portIndex] else raw
  }

  /** `host:port` yields `host`. */
  lemma HostOfHostAndPort(host: string, port: string)
    requires ':' !in host
    ensures HostOf(host + ":" + port) == host
  {
    var raw := host + ":" + port;
    assert raw[|host|] == ':';
  }

  /** An IPv6 literal is cut at its first colon: `::1` yields the empty host. */
  lemma IPv6LiteralLosesItsHost()
    ensures HostOf("::1") == ""
  {
  }

  /**
   * The builder calls for one event. `parse` stands for `IPAddress.Parse`
   * (`None` when it throws); `omitRemoteAddresses` is the omit list.
   */
  function DispatchEvent(ev: LogEvent, omitRemoteAddresses: set<Address>, parse: string -> Option<Address>): (d: Dispatch)
    ensures ev.time.None? ==> d == Dispatch([], Some(FormatInvalid("time")))
    ensures ev.time.Some? && ev.remoteAddress.None? ==> d == Dispatch([], None)
    ensures ev.time.Some? && ev.remoteAddress.Some? ==>
      var address := parse(HostOf(ev.remoteAddress.value));
      && (address.None? ==> d == Dispatch([], Some(FormatInvalid("remoteAddress"))))
      && (address.Some? && address.value in omitRemoteAddresses ==> d == Dispatch([], None))
      && (address.Some? && address.value !in omitRemoteAddresses ==>
            && 1 <= |d.calls| <= 2
            && d.calls[0] == RemoteEventCall(ev.time.value, address.value, ev.name == CONNECT_REJECTED)
            && (forall c :: c in d.calls ==> c.address == address.value))
    ensures |d.calls| == 2 ==>
      || (ev.name in {LOGON_AUTH_FAILED, LOGON_AUTH_SUCCEEDED} && ev.userName.Some? &&
          d.calls[1] == LoginAttemptCall(d.calls[0].address, ev.userName.value, ev.name == LOGON_AUTH_SUCCEEDED))
      || (ev.name == CONNECT_VERSION_RECEIVED && ev.clientVersion.Some? &&
          d.calls[1] == ClientVersionCall(d.calls[0].address, ev.clientVersion.value))
    ensures |d.calls| == 2 ==> d.fault.None?
    ensures |d.calls| == 1 ==>
      || (ev.name in {LOGON_AUTH_FAILED, LOGON_AUTH_SUCCEEDED} && ev.userName.None? &&
          d.fault == Some(NotImplemented("I_LOGON_AUTH_FAILED without userName")))
      || (ev.name == CONNECT_VERSION_RECEIVED && ev.clientVersion.None? &&
          d.fault == Some(NotImplemented("I_CONNECT_VERSION_RECEIVED without clientVersion")))
      || (ev.name !in {LOGON_AUTH_FAILED, LOGON_AUTH_SUCCEEDED, CONNECT_VERSION_RECEIVED} && d.fault.None?)
  {
    if ev.time.None? then Dispatch([], Some(FormatInvalid("time")))
    else if ev.remoteAddress.None? then Dispatch([], None)
    else
      var parsed := parse(HostOf(ev.remoteAddress.value));
      if parsed.None? then Dispatch([], Some(FormatInvalid("remoteAddress")))
      else if parsed.value in omitRemoteAddresses then Dispatch([], None)
      else
        var remoteAddress := parsed.value;
        var recorded := [RemoteEventCall(ev.time.value, remoteAddress, ev.name == CONNECT_REJECTED)];
        if ev.name == LOGON_AUTH_FAILED || ev.name == LOGON_AUTH_SUCCEEDED then
          if ev.userName.None? then Dispatch(recorded, Some(NotImplemented("I_LOGON_AUTH_FAILED without userName")))
          else Dispatch(recorded + [LoginAttemptCall(remoteAddress, ev.userName.value, ev.name == LOGON_AUTH_SUCCEEDED)], None)
        else if ev.name == CONNECT_VERSION_RECEIVED then
          if ev.clientVersion.None? then Dispatch(recorded, Some(NotImplemented("I_CONNECT_VERSION_RECEIVED without clientVersion")))
          else Dispatch(recorded + [ClientVersionCall(remoteAddress, ev.clientVersion.value)], None)
        else Dispatch(recorded, None)
  }

  /** The builder's state after reading, and the exception reading stopped with, if any. */
  datatype ReadOutcome = ReadOutcome(state: BuilderState, fault: Option<Fault>)

  /** Reading a list of events: each event in turn, stopping at the first exception. */
  function ReadLogSpec(s: BuilderState, events: seq<LogEvent>, omitRemoteAddresses: set<Address>,
                       parse: string -> Option<Address>): ReadOutcome
    decreases |events|
  {
    if events == [] then ReadOutcome(s, None)
    else
      var before := ReadLogSpec(s, events[..|events| - 1], omitRemoteAddresses, parse);
      if before.fault.Some? then before
      else
        var d := DispatchEvent(events[|events| - 1], omitRemoteAddresses, parse);
        ReadOutcome(ApplyCalls(before.state, d.calls), d.fault)
  }

  /** Once an event has thrown, the later events change nothing. */
  lemma {:induction false} ReadLogStopsAtFault(s: BuilderState, events: seq<LogEvent>, j: nat,
                                               omitRemoteAddresses: set<Address>, parse: string -> Option<Address>)
    requires j <= |events|
    requires ReadLogSpec(s, events[..j], omitRemoteAddresses, parse).fault.Some?
    ensures ReadLogSpec(s, events, omitRemoteAddresses, parse) == ReadLogSpec(s, events[..j], omitRemoteAddresses, parse)
    decreases |events|
  {
    if j < |events| {
      var prefix := events[..|events| - 1];
      assert prefix[..j] == events[..j];
      ReadLogStopsAtFault(s, prefix, j, omitRemoteAddresses, parse);
    } else {
      assert events[..j] == events;
    }
  }

  /** Every accumulator holds at least one event. */
  ghost predicate ClientsHaveEvents(s: BuilderState) {
    forall a :: a in s.clients ==> s.clients[a].events != []
  }

  /** The calls of one event keep every accumulator non-empty: any call on an address comes after its connection event. */
  lemma DispatchKeepsClientsWithEvents(s: BuilderState, ev: LogEvent, omitRemoteAddresses: set<Address>,
                                       parse: string -> Option<Address>)
    requires ClientsHaveEvents(s)
    ensures ClientsHaveEvents(ApplyCalls(s, DispatchEvent(ev, omitRemoteAddresses, parse).calls))
  {
    var calls := DispatchEvent(ev, omitRemoteAddresses, parse).calls;
    if calls != [] {
      var first := Step(s, calls[0]);
      assert calls[..1] == [calls[0]];
      assert ApplyCalls(s, calls[..1]) == first;
      assert ClientsHaveEvents(first);
      if |calls| == 2 {
        assert ApplyCalls(s, calls) == Step(first, calls[1]);
        var a := calls[0].address;
        assert calls[1].address == a;
      }
    }
  }

  /**
   * Reading leaves no address without events, blocked or not, from any builder
   * that had none: the program reads every log file into one shared builder.
   */
  lemma {:induction false} ReadLogClientsHaveEvents(s: BuilderState, events: seq<LogEvent>,
                                                    omitRemoteAddresses: set<Address>,
                                                    parse: string -> Option<Address>)
    requires ClientsHaveEvents(s)
    ensures ClientsHaveEvents(ReadLogSpec(s, events, omitRemoteAddresses, parse).state)
    decreases |events|
  {
    if events != [] {
      var prefix := events[..|events| - 1];
      ReadLogClientsHaveEvents(s, prefix, omitRemoteAddresses, parse);
      var before := ReadLogSpec(s, prefix, omitRemoteAddresses, parse);
      if before.fault.None? {
        DispatchKeepsClientsWithEvents(before.state, events[|events| - 1], omitRemoteAddresses, parse);
      }
    }
  }

  /** The body of the reading loop for one event. */
  method ReadEvent(builder: ReviewBuilder, ev: LogEvent, omitRemoteAddresses: set<Address>,
                   parse: string -> Option<Address>) returns (fault: Option<Fault>)
    requires builder.Valid()
    modifies builder
    ensures builder.Valid()
    ensures var d := DispatchEvent(ev, omitRemoteAddresses, parse);
      builder.State() == ApplyCalls(old(builder.State()), d.calls) && fault == d.fault
  {
    ghost var before := builder.State();
    if ev.time.None? {
      return Some(FormatInvalid("time"));
    }
    var time := ev.time.value;
    if ev.remoteAddress.None? {
      return None;
    }
    var remoteAddressRaw := ev.remoteAddress.value;
    var portIndex := IndexOf(remoteAddressRaw, ':');
    var parsed := parse(if portIndex != -1 then remoteAddressRaw[..portIndex] else remoteAddressRaw);
    if parsed.None? {
      return Some(FormatInvalid("remoteAddress"));
    }
    var remoteAddress := parsed.value;
    if remoteAddress in omitRemoteAddresses {
      return None;
    }
    var recorded := RemoteEventCall(time, remoteAddress, ev.name == CONNECT_REJECTED);
    builder.AddRemoteEvent(time, remoteAddress, ev.name == CONNECT_REJECTED);
    assert builder.State() == ApplyCalls(before, [recorded]) by {
      assert [recorded][..0] == [];
    }
    fault := None;
    if ev.name == LOGON_AUTH_FAILED || ev.name == LOGON_AUTH_SUCCEEDED {
      if ev.userName.None? {
        return Some(NotImplemented("I_LOGON_AUTH_FAILED without userName"));
      }
      builder.AddLoginAttempt(remoteAddress, ev.userName.value, ev.name == LOGON_AUTH_SUCCEEDED);
      ghost var calls := [recorded, LoginAttemptCall(remoteAddress, ev.userName.value, ev.name == LOGON_AUTH_SUCCEEDED)];
      assert calls[..1] == [recorded];
    } else if ev.name == CONNECT_VERSION_RECEIVED {
      if ev.clientVersion.None? {
        return Some(NotImplemented("I_CONNECT_VERSION_RECEIVED without clientVersion"));
      }
      builder.AddClientVersion(remoteAddress, ev.clientVersion.value);
      ghost var calls := [recorded, ClientVersionCall(remoteAddress, ev.clientVersion.value)];
      assert calls[..1] == [recorded];
    }
  }

  /** `ReadLog`: the events of one log, in order, until the first exception. */
  method ReadLog(builder: ReviewBuilder, events: seq<LogEvent>, omitRemoteAddresses: set<Address>,
                 parse: string -> Option<Address>) returns (fault: Option<Fault>)
    requires builder.Valid()
    modifies builder
    ensures builder.Valid()
    ensures ReadLogSpec(old(builder.State()), events, omitRemoteAddresses, parse) == ReadOutcome(builder.State(), fault)
  {
    ghost var start := builder.State();
    var i := 0;
    while i < |events|
      invariant 0 <= i <= |events|
      invariant builder.Valid()
      invariant ReadLogSpec(start, events[..i], omitRemoteAddresses, parse) == ReadOutcome(builder.State(), None)
    {
      assert events[..i + 1][..i] == events[..i];
      fault := ReadEvent(builder, events[i], omitRemoteAddresses, parse);
      if fault.Some? {
        ReadLogStopsAtFault(start, events, i + 1, omitRemoteAddresses, parse);
        return;
      }
      i := i + 1;
    }
    assert events[..i] == events;
    fault := None;
  }
}
