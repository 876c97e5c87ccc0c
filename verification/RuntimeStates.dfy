/** The trading-runtime state machine: what one event does to a state, and what any sequence of events does. */
module RuntimeStates {
  datatype RuntimeState = Requested | Provisioning | WarmingUp | Running | Degraded | Stopping | Stopped | Failed

  datatype EventType =
    | Heartbeat | StrategyLoaded | Signal | OrderIntent | OrderSubmitted | Fill | PositionSnapshot | PnlSnapshot
    | WarmupStarted | WarmupCompleted | WarmupFailed | RiskBlock | RuntimeError | StopRequested

  predicate Terminal(s: RuntimeState) { s == Stopped || s == Failed }

  /** runtime_state_after_event */
  function StateAfterEvent(s: RuntimeState, event: EventType, killSwitch: bool): RuntimeState {
    match event
    case Heartbeat =>
      if killSwitch then if Terminal(s) || s == Stopping then s else Stopping
      else if s == Requested then Running else s
    case StopRequested => if Terminal(s) then s else Stopping
    case RuntimeError | RiskBlock => if Terminal(s) || s == Stopping then s else Degraded
    case _ => s
  }

  function StateAfter(s: RuntimeState, events: seq<EventType>, killSwitch: bool): RuntimeState
    decreases |events|
  {
    if events == [] then s else StateAfter(StateAfterEvent(s, events[0], killSwitch), events[1..], killSwitch)
  }

  function Types(events: seq<EventType>): set<EventType> { set e | e in events }

  /** The state as a function of the set of event types only. */
  function Settled(s: RuntimeState, types: set<EventType>, killSwitch: bool): RuntimeState {
    if Terminal(s) then s
    else if StopRequested in types || (killSwitch && Heartbeat in types) then Stopping
    else if s != Stopping && (RuntimeError in types || RiskBlock in types) then Degraded
    else if s == Requested && Heartbeat in types then Running
    else s
  }

  /** The state after any events is settled by the set of their types. */
  lemma {:induction false} OnlyTheTypesMatter(s: RuntimeState, events: seq<EventType>, killSwitch: bool)
    ensures StateAfter(s, events, killSwitch) == Settled(s, Types(events), killSwitch)
    decreases |events|
  {
    if events != [] {
      OnlyTheTypesMatter(StateAfterEvent(s, events[0], killSwitch), events[1..], killSwitch);
      assert Types(events) == {events[0]} + Types(events[1..]);
    }
  }

  /** Order and repetition do not matter. */
  lemma OrderDoesNotMatter(s: RuntimeState, e1: seq<EventType>, e2: seq<EventType>, killSwitch: bool)
    requires Types(e1) == Types(e2)
    ensures StateAfter(s, e1, killSwitch) == StateAfter(s, e2, killSwitch)
  {
    OnlyTheTypesMatter(s, e1, killSwitch);
    OnlyTheTypesMatter(s, e2, killSwitch);
  }
}

/** The in-memory manager of runtimes, keyed by account and risk boundary. */
module RuntimeManagement {
  import opened Seqs
  import opened Text
  import opened RuntimeStates

  datatype RuntimeKey = RuntimeKey(userId: string, brokerConnectionId: string, accountId: string, mode: string,
                                   riskPolicyId: string)

  /** The contents of one record. */
  datatype Entry = Entry(runtimeId: string, key: RuntimeKey, state: RuntimeState, strategyIds: set<string>,
                         eventCount: nat, lastHeartbeat: Option<string>, killSwitch: bool)

  datatype Event = Event(eventType: EventType, runtimeId: string, timestamp: string)

  function KeyOf(e: Entry): RuntimeKey { e.key }

  function RuntimeId(e: Entry): string { e.runtimeId }

  /** The id of the n-th runtime. */
  function NthId(n: nat): string { "nautilus:" + NatText(n) }

  function FindKey(entries: seq<Entry>, key: RuntimeKey): (i: nat)
    ensures i <= |entries| && (i < |entries| ==> entries[i].key == key)
    ensures forall j :: 0 <= j < i ==> entries[j].key != key
  {
    if entries == [] || entries[0].key == key then 0 else 1 + FindKey(entries[1..], key)
  }

  function FindId(entries: seq<Entry>, id: string): (i: nat)
    ensures i <= |entries| && (i < |entries| ==> entries[i].runtimeId == id)
    ensures forall j :: 0 <= j < i ==> entries[j].runtimeId != id
  {
    if entries == [] || entries[0].runtimeId == id then 0 else 1 + FindId(entries[1..], id)
  }

  // The manager as a value

  function Request(entries: seq<Entry>, key: RuntimeKey, strategyId: string): seq<Entry> {
    var i := FindKey(entries, key);
    if i < |entries| then entries[i := entries[i].(strategyIds := entries[i].strategyIds + {strategyId})]
    else entries + [Entry(NthId(|entries| + 1), key, Requested, {strategyId}, 0, None, false)]
  }

  function AfterEvent(e: Entry, event: Event): Entry {
    e.(eventCount := e.eventCount + 1,
       lastHeartbeat := if event.eventType == Heartbeat then Some(event.timestamp) else e.lastHeartbeat,
       state := StateAfterEvent(e.state, event.eventType, e.killSwitch))
  }

  /** An unknown runtime id raises KeyError and changes nothing. */
  function IngestEvent(entries: seq<Entry>, event: Event): seq<Entry> {
    var i := FindId(entries, event.runtimeId);
    if i < |entries| then entries[i := AfterEvent(entries[i], event)] else entries
  }

  function ActivateKillSwitch(entries: seq<Entry>, id: string): seq<Entry> {
    var i := FindId(entries, id);
    if i < |entries| then entries[i := entries[i].(killSwitch := true, state := Stopping)] else entries
  }

  datatype Call =
    | RequestRuntime(key: RuntimeKey, strategyId: string)
    | Ingest(event: Event)
    | Kill(runtimeId: string)

  function Apply(entries: seq<Entry>, c: Call): seq<Entry> {
    match c
    case RequestRuntime(key, strategyId) => Request(entries, key, strategyId)
    case Ingest(event) => IngestEvent(entries, event)
    case Kill(id) => ActivateKillSwitch(entries, id)
  }

  function Run(entries: seq<Entry>, calls: seq<Call>): seq<Entry>
    decreases |calls|
  {
    if calls == [] then entries else Run(Apply(entries, calls[0]), calls[1..])
  }

  // What every run keeps

  predicate Reachable(s: RuntimeState) { s in {Requested, Running, Degraded, Stopping} }

  ghost predicate Numbered(entries: seq<Entry>) {
    forall i :: 0 <= i < |entries| ==> entries[i].runtimeId == NthId(i + 1)
  }

  ghost predicate StatesKept(entries: seq<Entry>) {
    forall i :: 0 <= i < |entries| ==>
                  Reachable(entries[i].state) && (entries[i].killSwitch ==> entries[i].state == Stopping)
  }

  ghost predicate ManagerInv(entries: seq<Entry>) {
    && Distinct(Map(KeyOf, entries))
    && Numbered(entries)
    && StatesKept(entries)
  }

  lemma NthIdInjective(m: nat, n: nat)
    requires NthId(m) == NthId(n)
    ensures m == n
  {
    var p := "nautilus:";
    assert NatText(m) == NthId(m)[|p|..] && NatText(n) == NthId(n)[|p|..];
    NatTextInjective(m, n);
  }

  /** Runtime ids are pairwise distinct. */
  lemma IdsDistinct(entries: seq<Entry>)
    requires ManagerInv(entries)
    ensures Distinct(Map(RuntimeId, entries))
  {
    forall i, j | 0 <= i < j < |entries| ensures entries[i].runtimeId != entries[j].runtimeId {
      if entries[i].runtimeId == entries[j].runtimeId {
        NthIdInjective(i + 1, j + 1);
      }
    }
  }

  lemma KeysKept(entries: seq<Entry>, c: Call)
    requires Distinct(Map(KeyOf, entries))
    ensures Distinct(Map(KeyOf, Apply(entries, c)))
  {
    var t := Apply(entries, c);
    if |t| == |entries| {
      assert Map(KeyOf, t) == Map(KeyOf, entries);
    } else {
      var keys := Map(KeyOf, entries);
      assert Map(KeyOf, t) == keys + [c.key];
      forall i | 0 <= i < |keys| ensures keys[i] != c.key {
        assert entries[i].key != c.key;
      }
      DistinctAppend(keys, [c.key]);
    }
  }

  lemma ApplyStates(entries: seq<Entry>, c: Call)
    requires StatesKept(entries)
    ensures StatesKept(Apply(entries, c))
  {}

  lemma ApplyIds(entries: seq<Entry>, c: Call)
    requires Numbered(entries)
    ensures Numbered(Apply(entries, c))
  {}

  lemma ApplyInv(entries: seq<Entry>, c: Call)
    requires ManagerInv(entries)
    ensures ManagerInv(Apply(entries, c))
  {
    KeysKept(entries, c);
    ApplyIds(entries, c);
    ApplyStates(entries, c);
  }

  /** A call touches at most one record; the others, and every key and id, stay. */
  lemma ApplyTouchesOne(entries: seq<Entry>, c: Call)
    ensures var t := Apply(entries, c);
            && |entries| <= |t|
            && (forall i :: 0 <= i < |entries| ==> t[i].key == entries[i].key && t[i].runtimeId == entries[i].runtimeId)
            && (forall i :: 0 <= i < |entries| && !Addressed(entries[i], c) ==> t[i] == entries[i])
  {}

  predicate Addressed(e: Entry, c: Call) {
    match c
    case RequestRuntime(key, _) => e.key == key
    case Ingest(event) => e.runtimeId == event.runtimeId
    case Kill(id) => e.runtimeId == id
  }

  function TotalEvents(entries: seq<Entry>): nat {
    if entries == [] then 0 else entries[0].eventCount + TotalEvents(entries[1..])
  }

  /** How many of the calls are events for a runtime that exists at that moment. */
  function SuccessfulIngests(entries: seq<Entry>, calls: seq<Call>): nat
    decreases |calls|
  {
    if calls == [] then 0
    else
      (if calls[0].Ingest? && FindId(entries, calls[0].event.runtimeId) < |entries| then 1 else 0)
      + SuccessfulIngests(Apply(entries, calls[0]), calls[1..])
  }

  lemma {:induction false} TotalUpdate(entries: seq<Entry>, i: nat, e: Entry)
    requires i < |entries|
    ensures TotalEvents(entries[i := e]) + entries[i].eventCount == TotalEvents(entries) + e.eventCount
  {
    if i == 0 {
      assert entries[0 := e][1..] == entries[1..];
    } else {
      assert entries[i := e][1..] == entries[1..][i - 1 := e];
      TotalUpdate(entries[1..], i - 1, e);
    }
  }

  lemma {:induction false} TotalSnoc(entries: seq<Entry>, e: Entry)
    ensures TotalEvents(entries + [e]) == TotalEvents(entries) + e.eventCount
  {
    if entries == [] {
      assert [e][1..] == [];
    } else {
      assert (entries + [e])[1..] == entries[1..] + [e];
      TotalSnoc(entries[1..], e);
    }
  }

  lemma ApplyCounts(entries: seq<Entry>, c: Call)
    ensures TotalEvents(Apply(entries, c))
            == TotalEvents(entries) + if c.Ingest? && FindId(entries, c.event.runtimeId) < |entries| then 1 else 0
  {
    match c
    case RequestRuntime(key, strategyId) =>
      var i := FindKey(entries, key);
      if i < |entries| {
        TotalUpdate(entries, i, entries[i].(strategyIds := entries[i].strategyIds + {strategyId}));
      } else {
        TotalSnoc(entries, Entry(NthId(|entries| + 1), key, Requested, {strategyId}, 0, None, false));
      }
    case Ingest(event) =>
      var i := FindId(entries, event.runtimeId);
      if i < |entries| {
        TotalUpdate(entries, i, AfterEvent(entries[i], event));
      }
    case Kill(id) =>
      var i := FindId(entries, id);
      if i < |entries| {
        TotalUpdate(entries, i, entries[i].(killSwitch := true, state := Stopping));
      }
  }

  /**
   * In every run of manager calls: ids and keys stay unique, only the four states above occur, and the event
   * counts add up to the events that found their runtime.
   */
  lemma {:induction false} EveryRun(entries: seq<Entry>, calls: seq<Call>)
    requires ManagerInv(entries)
    ensures ManagerInv(Run(entries, calls)) && Distinct(Map(RuntimeId, Run(entries, calls)))
    ensures TotalEvents(Run(entries, calls)) == TotalEvents(entries) + SuccessfulIngests(entries, calls)
    decreases |calls|
  {
    if calls == [] {
      IdsDistinct(entries);
    } else {
      ApplyInv(entries, calls[0]);
      ApplyCounts(entries, calls[0]);
      EveryRun(Apply(entries, calls[0]), calls[1..]);
    }
  }

  datatype RestartPolicy = DoNotRestartKillSwitchActive | RestartWithBackoff | RestartOrReconcile | KeepRunning

  /** runtime_restart_policy */
  function Restart(e: Entry, stale: bool): RestartPolicy {
    if e.killSwitch then DoNotRestartKillSwitchActive
    else if e.state == Failed then RestartWithBackoff
    else if e.state == Degraded || stale then RestartOrReconcile
    else KeepRunning
  }

  /** A runtime is left alone exactly when it is not killed, failed, degraded or stale; a kill overrides everything. */
  lemma RestartIff(e: Entry, stale: bool)
    ensures Restart(e, stale) == KeepRunning <==> !e.killSwitch && !stale && e.state != Failed && e.state != Degraded
    ensures Restart(e, stale) == DoNotRestartKillSwitchActive <==> e.killSwitch
    ensures Restart(e, stale) == RestartWithBackoff <==> !e.killSwitch && e.state == Failed
  {}

  /** Once a kill switch is set, no later call revives the runtime: it stays stopping and is never restarted. */
  lemma {:induction false} KillSwitchIsFinal(entries: seq<Entry>, calls: seq<Call>, i: nat)
    requires ManagerInv(entries) && i < |entries| && entries[i].killSwitch
    ensures var t := Run(entries, calls);
            && i < |t| && t[i].runtimeId == entries[i].runtimeId && t[i].killSwitch && t[i].state == Stopping
            && forall stale :: Restart(t[i], stale) == DoNotRestartKillSwitchActive
    decreases |calls|
  {
    if calls != [] {
      ApplyInv(entries, calls[0]);
      ApplyTouchesOne(entries, calls[0]);
      KillSwitchIsFinal(Apply(entries, calls[0]), calls[1..], i);
    }
  }

  // The closed form of a run

  /** The types of the events addressed to a runtime, in order. */
  function EventsFor(calls: seq<Call>, id: string): seq<EventType> {
    if calls == [] then []
    else if calls[0].Ingest? && calls[0].event.runtimeId == id
    then [calls[0].event.eventType] + EventsFor(calls[1..], id)
    else EventsFor(calls[1..], id)
  }

  /** The timestamps of the heartbeats addressed to a runtime, in order. */
  function HeartbeatsFor(calls: seq<Call>, id: string): seq<string> {
    if calls == [] then []
    else if calls[0].Ingest? && calls[0].event.runtimeId == id && calls[0].event.eventType == Heartbeat
    then [calls[0].event.timestamp] + HeartbeatsFor(calls[1..], id)
    else HeartbeatsFor(calls[1..], id)
  }

  function LastOf(beats: seq<string>, start: Option<string>): Option<string> {
    if beats == [] then start else Some(beats[|beats| - 1])
  }

  /** The strategies that the calls request for a key. */
  function StrategiesFor(calls: seq<Call>, key: RuntimeKey): set<string> {
    set c | c in calls && c.RequestRuntime? && c.key == key :: c.strategyId
  }

  lemma FindNumbered(entries: seq<Entry>, i: nat)
    requires Numbered(entries) && i < |entries|
    ensures FindId(entries, entries[i].runtimeId) == i
  {
    var j := FindId(entries, entries[i].runtimeId);
    assert entries[j].runtimeId == NthId(j + 1);
    NthIdInjective(j + 1, i + 1);
  }

  /** What one call does to one record. */
  lemma ApplyToRecord(entries: seq<Entry>, c: Call, i: nat)
    requires Numbered(entries) && i < |entries|
    ensures var e, t := entries[i], Apply(entries, c);
            && Numbered(t) && |entries| <= |t| && t[i].runtimeId == e.runtimeId
            && t[i].killSwitch == (e.killSwitch || c == Kill(e.runtimeId))
            && t[i].state == if c == Kill(e.runtimeId) then Stopping
                             else if c.Ingest? && c.event.runtimeId == e.runtimeId
                             then StateAfterEvent(e.state, c.event.eventType, e.killSwitch)
                             else e.state
  {
    FindNumbered(entries, i);
  }

  /** What one call adds to the event count and the heartbeat of one record. */
  lemma ApplyToCounts(entries: seq<Entry>, c: Call, i: nat)
    requires Numbered(entries) && i < |entries|
    ensures var e, t := entries[i], Apply(entries, c);
            var addressed := c.Ingest? && c.event.runtimeId == e.runtimeId;
            && |entries| <= |t|
            && t[i].eventCount == e.eventCount + (if addressed then 1 else 0)
            && t[i].lastHeartbeat == if addressed && c.event.eventType == Heartbeat then Some(c.event.timestamp)
                                     else e.lastHeartbeat
  {
    FindNumbered(entries, i);
  }

  lemma StaysStopping(events: seq<EventType>)
    ensures StateAfter(Stopping, events, true) == Stopping
  {
    OnlyTheTypesMatter(Stopping, events, true);
  }

  lemma InFirstOrRest<T>(x: T, xs: seq<T>)
    requires xs != []
    ensures x in xs <==> x == xs[0] || x in xs[1..]
  {}

  lemma {:induction false} RecordAfter(entries: seq<Entry>, calls: seq<Call>, i: nat)
    requires Numbered(entries) && i < |entries|
    ensures var e, t := entries[i], Run(entries, calls);
            && i < |t| && t[i].runtimeId == e.runtimeId
            && t[i].killSwitch == (e.killSwitch || Kill(e.runtimeId) in calls)
            && t[i].state == if Kill(e.runtimeId) in calls then Stopping
                             else StateAfter(e.state, EventsFor(calls, e.runtimeId), e.killSwitch)
    decreases |calls|
  {
    if calls != [] {
      var id := entries[i].runtimeId;
      ApplyToRecord(entries, calls[0], i);
      RecordAfter(Apply(entries, calls[0]), calls[1..], i);
      InFirstOrRest(Kill(id), calls);
      StaysStopping(EventsFor(calls[1..], id));
    }
  }

  lemma {:induction false} CountsAfter(entries: seq<Entry>, calls: seq<Call>, i: nat)
    requires Numbered(entries) && i < |entries|
    ensures var e, t := entries[i], Run(entries, calls);
            && i < |t| && t[i].eventCount == e.eventCount + |EventsFor(calls, e.runtimeId)|
            && t[i].lastHeartbeat == LastOf(HeartbeatsFor(calls, e.runtimeId), e.lastHeartbeat)
    decreases |calls|
  {
    if calls != [] {
      ApplyToRecord(entries, calls[0], i);
      ApplyToCounts(entries, calls[0], i);
      CountsAfter(Apply(entries, calls[0]), calls[1..], i);
    }
  }

  /** The calls of a run from the moment when record i exists. */
  function Lifespan(entries: seq<Entry>, calls: seq<Call>, i: nat): seq<Call>
    decreases |calls|
  {
    if i < |entries| || calls == [] then calls else Lifespan(Apply(entries, calls[0]), calls[1..], i)
  }

  /**
   * Every run, record by record: a record is stopping once a kill addressed it, whatever its state was and whatever
   * comes after. Otherwise its state is settled by the set of types of the events addressed to it, from its state at
   * the start, or from requested when the run created it.
   */
  lemma {:induction false} EveryRecord(entries: seq<Entry>, calls: seq<Call>, i: nat)
    requires Numbered(entries) && i < |Run(entries, calls)|
    ensures var id, life := NthId(i + 1), Lifespan(entries, calls, i);
            var start, killed :=
                if i < |entries| then entries[i].state else Requested, i < |entries| && entries[i].killSwitch;
            && Run(entries, calls)[i].runtimeId == id
            && Run(entries, calls)[i].killSwitch == (killed || Kill(id) in life)
            && Run(entries, calls)[i].state
               == if Kill(id) in life then Stopping else Settled(start, Types(EventsFor(life, id)), killed)
    decreases |calls|
  {
    if i < |entries| {
      RecordAfter(entries, calls, i);
      OnlyTheTypesMatter(entries[i].state, EventsFor(calls, entries[i].runtimeId), entries[i].killSwitch);
    } else {
      ApplyNumbered(entries, calls[0]);
      EveryRecord(Apply(entries, calls[0]), calls[1..], i);
    }
  }

  /** Every event addressed to a record since it exists is counted, and the last heartbeat among them is kept. */
  lemma {:induction false} EveryRecordCounts(entries: seq<Entry>, calls: seq<Call>, i: nat)
    requires Numbered(entries) && i < |Run(entries, calls)|
    ensures var id, life, e := NthId(i + 1), Lifespan(entries, calls, i), Run(entries, calls)[i];
            && e.eventCount == (if i < |entries| then entries[i].eventCount else 0) + |EventsFor(life, id)|
            && e.lastHeartbeat
               == LastOf(HeartbeatsFor(life, id), if i < |entries| then entries[i].lastHeartbeat else None)
    decreases |calls|
  {
    if i < |entries| {
      CountsAfter(entries, calls, i);
    } else {
      ApplyNumbered(entries, calls[0]);
      EveryRecordCounts(Apply(entries, calls[0]), calls[1..], i);
    }
  }

  /** A call keeps the numbering and creates at most one record, which is requested and not killed. */
  lemma ApplyNumbered(entries: seq<Entry>, c: Call)
    requires Numbered(entries)
    ensures var t := Apply(entries, c);
            && Numbered(t) && |entries| <= |t| <= |entries| + 1
            && (|t| == |entries| + 1 ==> t[|entries|].state == Requested && !t[|entries|].killSwitch
                                         && t[|entries|].eventCount == 0 && t[|entries|].lastHeartbeat == None)
  {}

  // The strategies of a record

  /** What one call does to the strategies of a record that exists, and with which strategies it creates one. */
  lemma ApplyStrategies(entries: seq<Entry>, c: Call, i: nat)
    requires Distinct(Map(KeyOf, entries)) && i < |Apply(entries, c)|
    ensures var t := Apply(entries, c);
            && (i < |entries| ==> t[i].key == entries[i].key)
            && t[i].strategyIds == (if i < |entries| then entries[i].strategyIds else {}) + StrategiesFor([c], t[i].key)
  {
    var t := Apply(entries, c);
    assert forall d :: d in [c] <==> d == c;
    if c.RequestRuntime? && i < |entries| && entries[i].key == c.key {
      assert Map(KeyOf, entries)[i] == c.key && Map(KeyOf, entries)[FindKey(entries, c.key)] == c.key;
      assert StrategiesFor([c], c.key) == {c.strategyId};
    }
  }

  lemma StrategiesCons(c: Call, calls: seq<Call>, key: RuntimeKey)
    ensures StrategiesFor([c] + calls, key) == StrategiesFor([c], key) + StrategiesFor(calls, key)
  {}

  /** Before a record exists no call requests its key. */
  lemma {:induction false} FirstRequest(entries: seq<Entry>, calls: seq<Call>, i: nat)
    requires Distinct(Map(KeyOf, entries)) && i < |Run(entries, calls)|
    ensures i >= |entries| ==> forall e :: e in entries ==> e.key != Run(entries, calls)[i].key
    ensures i < |entries| ==> Run(entries, calls)[i].key == entries[i].key
    ensures Distinct(Map(KeyOf, Run(entries, calls)))
    decreases |calls|
  {
    if calls != [] {
      KeysKept(entries, calls[0]);
      ApplyTouchesOne(entries, calls[0]);
      FirstRequest(Apply(entries, calls[0]), calls[1..], i);
      if i >= |entries| {
        NewKey(entries, calls[0], Run(entries, calls)[i].key, i);
      }
    }
  }

  lemma NewKey(entries: seq<Entry>, c: Call, key: RuntimeKey, i: nat)
    requires i >= |entries|
    requires i >= |Apply(entries, c)| ==> forall e :: e in Apply(entries, c) ==> e.key != key
    requires i < |Apply(entries, c)| ==> key == Apply(entries, c)[i].key
    ensures forall e :: e in entries ==> e.key != key
  {
    var t := Apply(entries, c);
    ApplyTouchesOne(entries, c);
    if i >= |t| {
      forall e | e in entries ensures e.key != key {
        var j :| 0 <= j < |entries| && entries[j] == e;
        assert t[j] in t;
      }
    } else {
      forall e | e in entries ensures e.key != key {
        var j :| 0 <= j < |entries| && entries[j] == e;
      }
    }
  }

  /**
   * Every run, record by record: the strategies of a record are those it started with, none when the run created it,
   * and all that the run requested for its key.
   */
  lemma {:induction false} EveryRecordStrategies(entries: seq<Entry>, calls: seq<Call>, i: nat)
    requires Distinct(Map(KeyOf, entries)) && i < |Run(entries, calls)|
    ensures var e := Run(entries, calls)[i];
            && (i < |entries| ==> e.key == entries[i].key)
            && e.strategyIds == (if i < |entries| then entries[i].strategyIds else {}) + StrategiesFor(calls, e.key)
    decreases |calls|
  {
    if calls != [] {
      var key := Run(entries, calls)[i].key;
      KeysKept(entries, calls[0]);
      EveryRecordStrategies(Apply(entries, calls[0]), calls[1..], i);
      assert calls == [calls[0]] + calls[1..];
      StrategiesCons(calls[0], calls[1..], key);
      if i < |Apply(entries, calls[0])| {
        ApplyStrategies(entries, calls[0], i);
      } else {
        ApplyTouchesOne(entries, calls[0]);
        FirstRequest(Apply(entries, calls[0]), calls[1..], i);
        NotYet(entries, calls[0], key);
      }
    }
  }

  lemma NotYet(entries: seq<Entry>, c: Call, key: RuntimeKey)
    requires forall e :: e in Apply(entries, c) ==> e.key != key
    ensures StrategiesFor([c], key) == {}
  {
    assert forall d :: d in [c] <==> d == c;
    if c.RequestRuntime? && c.key == key {
      RequestedPresent(entries, c);
    }
  }

  lemma RequestedPresent(entries: seq<Entry>, c: Call)
    requires c.RequestRuntime?
    ensures exists e :: e in Apply(entries, c) && e.key == c.key
  {
    assert Apply(entries, c)[FindKey(entries, c.key)] in Apply(entries, c);
  }

  /** Around a kill, as elsewhere, the order of the calls for a record does not matter, only which calls there are. */
  lemma CallOrderDoesNotMatter(entries: seq<Entry>, a: seq<Call>, b: seq<Call>, i: nat)
    requires Numbered(entries) && i < |entries|
    requires var id := entries[i].runtimeId;
             (Kill(id) in a <==> Kill(id) in b) && Types(EventsFor(a, id)) == Types(EventsFor(b, id))
    ensures var s, t := Run(entries, a), Run(entries, b);
            i < |s| && i < |t| && s[i].state == t[i].state && s[i].killSwitch == t[i].killSwitch
  {
    var e := entries[i];
    RecordAfter(entries, a, i);
    RecordAfter(entries, b, i);
    OrderDoesNotMatter(e.state, EventsFor(a, e.runtimeId), EventsFor(b, e.runtimeId), e.killSwitch);
  }

  // The classes

  class RuntimeRecord {
    const runtimeId: string
    const key: RuntimeKey
    var state: RuntimeState
    var strategyIds: set<string>
    var eventCount: nat
    var lastHeartbeat: Option<string>
    var killSwitch: bool

    constructor (runtimeId: string, key: RuntimeKey)
      ensures Value() == Entry(runtimeId, key, Requested, {}, 0, None, false)
    {
      this.runtimeId, this.key := runtimeId, key;
      state, strategyIds, eventCount, lastHeartbeat, killSwitch := Requested, {}, 0, None, false;
    }

    function Value(): Entry
      reads this
    {
      Entry(runtimeId, key, state, strategyIds, eventCount, lastHeartbeat, killSwitch)
    }
  }

  class RuntimeManager {
    var records: seq<RuntimeRecord>

    /** Distinct record objects, and everything that runs keep. */
    ghost predicate Valid()
      reads this, records
    {
      Distinct(records) && ManagerInv(Entries())
    }

    ghost function Entries(): (r: seq<Entry>)
      reads this, records
      ensures |r| == |records|
    {
      seq(|records|, i requires 0 <= i < |records| reads this, records => records[i].Value())
    }

    constructor ()
      ensures Valid() && records == []
    {
      records := [];
    }

    /** _record_by_runtime_id: the position of the record, or none for a KeyError. */
    method RecordByRuntimeId(id: string) returns (i: nat)
      requires Valid()
      ensures i == FindId(Entries(), id)
      ensures i < |records| ==>
                && records[i].runtimeId == id
                && forall j :: 0 <= j < |records| && j != i ==> records[j].runtimeId != id
    {
      i := 0;
      while i < |records| && records[i].runtimeId != id
        invariant i <= |records| && forall j :: 0 <= j < i ==> records[j].runtimeId != id
      {
        i := i + 1;
      }
      ghost var entries := Entries();
      assert forall j :: 0 <= j < |records| ==> entries[j].runtimeId == records[j].runtimeId;
      if i < |records| {
        forall j | 0 <= j < |records| && j != i ensures records[j].runtimeId != id {
          if records[j].runtimeId == id {
            NthIdInjective(i + 1, j + 1);
          }
        }
      }
    }

    /** The position of the record with the key, or none. */
    method RecordByKey(key: RuntimeKey) returns (i: nat)
      ensures i == FindKey(Entries(), key)
    {
      i := 0;
      while i < |records| && records[i].key != key
        invariant i <= |records| && forall j :: 0 <= j < i ==> records[j].key != key
      {
        i := i + 1;
      }
      ghost var entries := Entries();
      assert forall j :: 0 <= j < |records| ==> entries[j].key == records[j].key;
    }

    /** request_strategy_runtime */
    method RequestStrategyRuntime(key: RuntimeKey, strategyId: string) returns (record: RuntimeRecord)
      requires Valid()
      modifies this, records
      ensures Valid() && Entries() == Request(old(Entries()), key, strategyId)
      ensures record in records && record.key == key && strategyId in record.strategyIds
      ensures forall r :: r in records ==> r in old(records) || fresh(r)
    {
      ApplyInv(Entries(), RequestRuntime(key, strategyId));
      var i := RecordByKey(key);
      if i == |records| {
        record := AddRecord(key, strategyId);
      } else {
        record := records[i];
        AddStrategy(i, strategyId);
      }
    }

    /** A new record, which starts with the strategy. */
    method AddRecord(key: RuntimeKey, strategyId: string) returns (record: RuntimeRecord)
      requires Distinct(records)
      modifies this
      ensures fresh(record) && records == old(records) + [record] && Distinct(records)
      ensures Entries()
              == old(Entries()) + [Entry(NthId(|old(records)| + 1), key, Requested, {strategyId}, 0, None, false)]
      ensures record.key == key && record.strategyIds == {strategyId}
    {
      ghost var before := Entries();
      record := new RuntimeRecord("nautilus:" + NatText(|records| + 1), key);
      record.strategyIds := record.strategyIds + {strategyId};
      records := records + [record];
      assert record.strategyIds == {strategyId};
      SnocByElements(Entries(), before, record.Value());
    }

    method AddStrategy(i: nat, strategyId: string)
      requires i < |records| && Distinct(records)
      modifies records[i]
      ensures Entries() == old(Entries())[i := records[i].Value()]
      ensures records[i].Value() == old(records[i].Value().(strategyIds := records[i].strategyIds + {strategyId}))
    {
      ghost var before := Entries();
      records[i].strategyIds := records[i].strategyIds + {strategyId};
      assert forall j :: 0 <= j < |records| && j != i ==> records[j].Value() == before[j];
      assert Entries() == before[i := records[i].Value()];
    }

    /** ingest_event; false stands for the KeyError of an unknown runtime. */
    method IngestRuntimeEvent(event: Event) returns (found: bool)
      requires Valid()
      modifies records
      ensures Valid() && records == old(records) && Entries() == IngestEvent(old(Entries()), event)
      ensures found <==> FindId(old(Entries()), event.runtimeId) < |records|
    {
      ghost var before := Entries();
      ApplyInv(before, Ingest(event));
      var i := RecordByRuntimeId(event.runtimeId);
      found := i < |records|;
      if found {
        var record := records[i];
        record.eventCount := record.eventCount + 1;
        if event.eventType == Heartbeat {
          record.lastHeartbeat := Some(event.timestamp);
        }
        record.state := StateAfterEvent(record.state, event.eventType, record.killSwitch);
      }
      assert Entries() == IngestEvent(before, event);
    }

    /** activate_kill_switch; false stands for the KeyError of an unknown runtime. */
    method Activate(id: string) returns (found: bool)
      requires Valid()
      modifies records
      ensures Valid() && records == old(records) && Entries() == ActivateKillSwitch(old(Entries()), id)
      ensures found <==> FindId(old(Entries()), id) < |records|
    {
      ghost var before := Entries();
      ApplyInv(before, Kill(id));
      var i := RecordByRuntimeId(id);
      found := i < |records|;
      if found {
        records[i].killSwitch := true;
        records[i].state := Stopping;
      }
      assert Entries() == ActivateKillSwitch(before, id);
    }
  }

  // runtime_scale_summary

  datatype Tiers = Tiers(pooledPaper: nat, accountRuntime: nat, dedicatedRuntime: nat)

  datatype Summary = Summary(runtimes: nat, strategies: nat, tiers: Tiers)

  /** runtime_tier_for without a dedicated runtime: at most five paper strategies share a pool. */
  predicate Pooled(e: Entry) { e.key.mode == "paper" && |e.strategyIds| <= 5 }

  function Strategies(entries: seq<Entry>): nat {
    if entries == [] then 0 else Strategies(entries[..|entries| - 1]) + |entries[|entries| - 1].strategyIds|
  }

  lemma SummarySnoc(entries: seq<Entry>, i: nat)
    requires i < |entries|
    ensures Strategies(entries[..i + 1]) == Strategies(entries[..i]) + |entries[i].strategyIds|
    ensures |Filter(Pooled, entries[..i + 1])| == |Filter(Pooled, entries[..i])| + if Pooled(entries[i]) then 1 else 0
  {
    assert entries[..i + 1] == entries[..i] + [entries[i]] && entries[..i + 1][..i] == entries[..i];
    FilterSnoc(Pooled, entries[..i], entries[i]);
  }

  /** The number of runtimes of paper accounts with at most five strategies. */
  lemma PooledMeans(entries: seq<Entry>)
    ensures |Filter(Pooled, entries)|
            == |set i | 0 <= i < |entries| && entries[i].key.mode == "paper" && |entries[i].strategyIds| <= 5|
  {
    FilterCounts(Pooled, entries);
    assert Places(Pooled, entries)
           == set i | 0 <= i < |entries| && entries[i].key.mode == "paper" && |entries[i].strategyIds| <= 5;
  }

  /** Strategies add up over lists of runtimes, each with its own number. */
  lemma {:induction false} StrategiesAdd(a: seq<Entry>, b: seq<Entry>)
    ensures Strategies(a + b) == Strategies(a) + Strategies(b)
    ensures |a| == 1 ==> Strategies(a) == |a[0].strategyIds|
  {
    if b == [] {
      assert a + b == a;
    } else {
      assert (a + b)[..|a + b| - 1] == a + b[..|b| - 1];
      StrategiesAdd(a, b[..|b| - 1]);
    }
    assert |a| == 1 ==> a[..0] == [];
  }

  /** The tiers partition the runtimes, and strategies are counted per runtime. */
  method ScaleSummary(entries: seq<Entry>) returns (s: Summary)
    ensures s.runtimes == |entries| == s.tiers.pooledPaper + s.tiers.accountRuntime && s.tiers.dedicatedRuntime == 0
    ensures s.tiers.pooledPaper == |Filter(Pooled, entries)|
    ensures s.strategies == Strategies(entries)
  {
    var pooled, account, strategies := 0, 0, 0;
    for i := 0 to |entries|
      invariant pooled == |Filter(Pooled, entries[..i])| && pooled + account == i
      invariant strategies == Strategies(entries[..i])
    {
      SummarySnoc(entries, i);
      strategies := strategies + |entries[i].strategyIds|;
      if Pooled(entries[i]) {
        pooled := pooled + 1;
      } else {
        account := account + 1;
      }
    }
    assert entries[..|entries|] == entries;
    s := Summary(|entries|, strategies, Tiers(pooled, account, 0));
  }
}
