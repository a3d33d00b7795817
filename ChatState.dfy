/** The synchronisation state of the chat component as a value: the message
    log, the connection status, the pending input and the payloads emitted on
    the socket, together with the effect of each event on it. The class in
    module ChatApp holds the same state in fields and is specified by `Step`. */
module ChatState {
  import opened JsString

  /** Who produced an entry: the local user ('You') or the peer ('Stranger'). */
  datatype Sender = You | Stranger

  /** One entry of the log. `timestamp` is the formatted wall-clock time
      captured when the entry is admitted; the model treats it as opaque text
      supplied by the caller. */
  datatype Message = Message(id: nat, sender: Sender, content: string, timestamp: string)

  type Log = seq<Message>

  /** The transport label shown while no connection exists. */
  const NoTransport: string := "N/A"

  /** The component state. `upgradeRegistered` records whether the upgrade
      listener has been installed (it is installed by the first connect and
      never removed); `outbound` lists the payloads emitted on the socket's
      'message' channel, oldest first. */
  datatype Chat = Chat(
    messages: Log,
    isConnected: bool,
    transport: string,
    upgradeRegistered: bool,
    input: string,
    outbound: seq<string>)

  /** The events the component reacts to, one at a time. */
  datatype Event =
    | Connect(kind: string)                       // socket 'connect', with the engine's transport name
    | Disconnect                                  // socket 'disconnect'
    | Upgrade(kind: string)                       // engine 'upgrade', with the new transport name
    | Inbound(payload: string, timestamp: string) // socket 'message' from the peer
    | EditInput(text: string)                     // the text field's onChange
    | Submit(timestamp: string)                   // the form's onSubmit (handleSendMessage)
  {
    /** Events that only concern the connection, not the log or the input. */
    predicate IsStatusEvent() {
      Connect? || Disconnect? || Upgrade?
    }
  }

  /** Ids are exactly 1, 2, ..., N in log order. */
  predicate WellNumbered(log: Log) {
    forall i :: 0 <= i < |log| ==> log[i].id == i + 1
  }

  /** The contents of the entries the local user sent, in log order. */
  function LocalContents(log: Log): seq<string> {
    if log == [] then []
    else LocalContents(log[..|log| - 1])
         + (if log[|log| - 1].sender == You then [log[|log| - 1].content] else [])
  }

  /** The log after admitting one entry: everything already there stays as it
      was, and the new entry goes last with the next id. */
  function Append(log: Log, sender: Sender, content: string, timestamp: string): (r: Log)
    ensures |r| == |log| + 1 && r[..|log|] == log
    ensures r[|log|] == Message(|log| + 1, sender, content, timestamp)
    ensures WellNumbered(log) ==> WellNumbered(r)
    ensures LocalContents(r) == LocalContents(log) + (if sender == You then [content] else [])
  {
    var r := log + [Message(|log| + 1, sender, content, timestamp)];
    assert r[..|log|] == log;
    r
  }

  /** The state the component mounts with. */
  function Initial(): Chat {
    Chat([], false, NoTransport, false, "", [])
  }

  /** The header's status text. */
  function StatusLabel(isConnected: bool, transport: string): (r: string)
    ensures r == "Disconnected" <==> !isConnected
    ensures isConnected ==> |r| >= 14 && r[..14] == "Connected via " && r[14..] == transport
  {
    if isConnected then "Connected via " + transport else "Disconnected"
  }

  /** The effect of one event on the state, as the component's handlers have it. */
  function Step(c: Chat, e: Event): Chat {
    match e
    case Connect(kind) =>
      c.(isConnected := true, transport := kind, upgradeRegistered := true)
    case Disconnect =>
      c.(isConnected := false, transport := NoTransport)
    case Upgrade(kind) =>
      if c.upgradeRegistered then c.(transport := kind) else c
    case Inbound(payload, timestamp) =>
      c.(messages := Append(c.messages, Stranger, payload, timestamp))
    case EditInput(text) =>
      c.(input := text)
    case Submit(timestamp) =>
      if IsBlank(c.input) then c
      else c.(outbound := c.outbound + [c.input],
               messages := Append(c.messages, You, c.input, timestamp),
               input := "")
  }

  /** The state after a sequence of events, applied in order. */
  function Run(c: Chat, events: seq<Event>): Chat
    decreases |events|
  {
    if events == [] then c else Run(Step(c, events[0]), events[1..])
  }

  /** Running two sequences of events one after the other is running their
      concatenation. */
  lemma {:induction false} RunConcat(c: Chat, a: seq<Event>, b: seq<Event>)
    ensures Run(c, a + b) == Run(Run(c, a), b)
    decreases |a|
  {
    if a != [] {
      assert (a + b)[0] == a[0] && (a + b)[1..] == a[1..] + b;
      RunConcat(Step(c, a[0]), a[1..], b);
    } else {
      assert a + b == b;
    }
  }

  /** Two events in a row. */
  lemma RunTwo(c: Chat, e1: Event, e2: Event)
    ensures Run(c, [e1, e2]) == Step(Step(c, e1), e2)
  {
    assert [e1, e2][1..] == [e2] && [e2][1..] == [];
    assert Run(c, [e1, e2]) == Run(Step(c, e1), [e2]);
    assert Run(Step(c, e1), [e2]) == Run(Step(Step(c, e1), e2), []);
  }

  /** What every reachable state satisfies: ids are 1..N, the local entries
      are exactly the emitted payloads in order, no local entry is blank, and
      until the upgrade listener exists the status is the initial one. */
  ghost predicate Inv(c: Chat) {
    && WellNumbered(c.messages)
    && LocalContents(c.messages) == c.outbound
    && (forall i :: 0 <= i < |c.messages| && c.messages[i].sender == You ==> !IsBlank(c.messages[i].content))
    && (!c.upgradeRegistered ==> !c.isConnected && c.transport == NoTransport)
  }

  lemma InitialInv()
    ensures Inv(Initial())
  {
  }

  /** Every event keeps the invariant. */
  lemma StepKeepsInv(c: Chat, e: Event)
    requires Inv(c)
    ensures Inv(Step(c, e))
  {
    match e
    case Inbound(payload, timestamp) => AppendKeepsInv(c, Stranger, payload, timestamp);
    case Submit(timestamp) =>
      if !IsBlank(c.input) {
        AppendKeepsInv(c.(outbound := c.outbound + [c.input]), You, c.input, timestamp);
      }
    case _ =>
  }

  /** Appending an entry keeps the invariant when a local entry is non-blank
      and the local contents match the emitted payloads afterwards. */
  lemma AppendKeepsInv(c: Chat, sender: Sender, content: string, timestamp: string)
    requires WellNumbered(c.messages)
    requires LocalContents(c.messages) + (if sender == You then [content] else []) == c.outbound
    requires forall i :: 0 <= i < |c.messages| && c.messages[i].sender == You ==> !IsBlank(c.messages[i].content)
    requires sender == You ==> !IsBlank(content)
    requires !c.upgradeRegistered ==> !c.isConnected && c.transport == NoTransport
    ensures Inv(c.(messages := Append(c.messages, sender, content, timestamp)))
  {
    var m := Append(c.messages, sender, content, timestamp);
    forall i | 0 <= i < |m| && m[i].sender == You
      ensures !IsBlank(m[i].content)
    {
      if i < |c.messages| {
        assert m[..|c.messages|][i] == c.messages[i];
      }
    }
  }

  /** Every sequence of events keeps the invariant. */
  lemma {:induction false} RunKeepsInv(c: Chat, events: seq<Event>)
    requires Inv(c)
    ensures Inv(Run(c, events))
    decreases |events|
  {
    if events != [] {
      StepKeepsInv(c, events[0]);
      RunKeepsInv(Step(c, events[0]), events[1..]);
      assert Run(c, events) == Run(Step(c, events[0]), events[1..]);
    }
  }

  /** For any interleaving of sends, receipts and connection events, the ids
      in the log are exactly 1..N, and every local entry is a payload that was
      emitted, in the same order. */
  lemma IdsAreOneToN(events: seq<Event>)
    ensures var c := Run(Initial(), events);
            (forall i :: 0 <= i < |c.messages| ==> c.messages[i].id == i + 1)
            && LocalContents(c.messages) == c.outbound
  {
    InitialInv();
    RunKeepsInv(Initial(), events);
  }

  /** One event leaves the existing log entries where they are; only an
      inbound payload or an accepted send adds one, and only an accepted send
      emits; status events touch neither the log, the input nor the emitted
      payloads. */
  lemma StepEffectOnLog(c: Chat, e: Event)
    ensures var d := Step(c, e);
            && |c.messages| <= |d.messages| && d.messages[..|c.messages|] == c.messages
            && |c.outbound| <= |d.outbound|
            && |d.messages| <= |c.messages| + 1
            && (!e.Submit? ==> d.outbound == c.outbound)
            && |d.messages| == |c.messages| + (if e.Inbound? then 1 else 0) + (|d.outbound| - |c.outbound|)
            && (e.IsStatusEvent() ==> d.messages == c.messages && d.outbound == c.outbound && d.input == c.input)
  {
  }

  /** The log only grows at its end: the log before any sequence of events is
      a prefix of the log after it. */
  lemma {:induction false} RunExtendsLog(c: Chat, events: seq<Event>)
    ensures |c.messages| <= |Run(c, events).messages|
    ensures Run(c, events).messages[..|c.messages|] == c.messages
    decreases |events|
  {
    if events != [] {
      var d := Step(c, events[0]);
      StepEffectOnLog(c, events[0]);
      RunExtendsLog(d, events[1..]);
      var r := Run(d, events[1..]);
      assert Run(c, events) == r;
      assert r.messages[..|c.messages|] == r.messages[..|d.messages|][..|c.messages|];
    }
  }

  /** The number of inbound payloads among `events`. */
  function CountInbound(events: seq<Event>): nat {
    if events == [] then 0 else (if events[0].Inbound? then 1 else 0) + CountInbound(events[1..])
  }

  /** Nothing but inbound payloads and accepted sends grows the log: it grows
      by one per inbound payload plus one per payload emitted. */
  lemma {:induction false} LogGrowthAccounted(c: Chat, events: seq<Event>)
    ensures |Run(c, events).outbound| >= |c.outbound|
    ensures |Run(c, events).messages| == |c.messages| + CountInbound(events)
                                         + (|Run(c, events).outbound| - |c.outbound|)
    decreases |events|
  {
    if events != [] {
      var d := Step(c, events[0]);
      StepEffectOnLog(c, events[0]);
      LogGrowthAccounted(d, events[1..]);
      assert Run(c, events) == Run(d, events[1..]);
    }
  }

  /** Connection churn alone (connects, disconnects, upgrades) creates no log
      entry, emits nothing and leaves the pending input alone. */
  lemma {:induction false} StatusChurnKeepsLog(c: Chat, events: seq<Event>)
    requires forall i :: 0 <= i < |events| ==> events[i].IsStatusEvent()
    ensures Run(c, events).messages == c.messages
    ensures Run(c, events).outbound == c.outbound
    ensures Run(c, events).input == c.input
    decreases |events|
  {
    if events != [] {
      var d := Step(c, events[0]);
      StepEffectOnLog(c, events[0]);
      StatusChurnKeepsLog(d, events[1..]);
      assert Run(c, events) == Run(d, events[1..]);
    }
  }

  /** A status tracker that drops an upgrade unless a connection is up. It
      differs from `Step` only on `Upgrade`. */
  function DropStaleUpgradeStep(c: Chat, e: Event): Chat {
    match e
    case Upgrade(kind) => if c.isConnected then c.(transport := kind) else c
    case _ => Step(c, e)
  }

  function DropStaleUpgradeRun(c: Chat, events: seq<Event>): Chat
    decreases |events|
  {
    if events == [] then c else DropStaleUpgradeRun(DropStaleUpgradeStep(c, events[0]), events[1..])
  }

  /** Two states that nobody can tell apart from the outside: same log,
      input, emitted payloads and status, and the same transport whenever it
      is displayed. */
  predicate Indistinguishable(c: Chat, d: Chat) {
    && c.messages == d.messages
    && c.input == d.input
    && c.outbound == d.outbound
    && c.isConnected == d.isConnected
    && (c.isConnected ==> c.transport == d.transport)
  }

  /** One event keeps the component and the tracker that drops stale
      upgrades indistinguishable. */
  lemma StepIndistinguishable(c: Chat, d: Chat, e: Event)
    requires Inv(c) && Indistinguishable(c, d)
    ensures Indistinguishable(Step(c, e), DropStaleUpgradeStep(d, e))
  {
  }

  /** The upgrade listener outlives the connection it was installed by, so an
      upgrade arriving after a disconnect rewrites the transport although
      nothing is connected. This is never visible: along any sequence of
      events the component and the tracker that drops stale upgrades agree on the header label, the
      log, the input and the emitted payloads. */
  lemma {:induction false} StaleUpgradeUnobservable(c: Chat, d: Chat, events: seq<Event>)
    requires Inv(c) && Indistinguishable(c, d)
    ensures Indistinguishable(Run(c, events), DropStaleUpgradeRun(d, events))
    ensures StatusLabel(Run(c, events).isConnected, Run(c, events).transport)
            == StatusLabel(DropStaleUpgradeRun(d, events).isConnected, DropStaleUpgradeRun(d, events).transport)
    decreases |events|
  {
    if events != [] {
      StepKeepsInv(c, events[0]);
      StepIndistinguishable(c, d, events[0]);
      StaleUpgradeUnobservable(Step(c, events[0]), DropStaleUpgradeStep(d, events[0]), events[1..]);
      assert Run(c, events) == Run(Step(c, events[0]), events[1..]);
      assert DropStaleUpgradeRun(d, events) == DropStaleUpgradeRun(DropStaleUpgradeStep(d, events[0]), events[1..]);
    }
  }

  /** An upgrade before the first connect changes nothing, since its listener
      does not exist yet; after connect, disconnect, upgrade the header still
      reads "Disconnected". */
  lemma UpgradeBeforeConnectIgnored(kind: string, next: string)
    ensures Step(Initial(), Upgrade(kind)) == Initial()
    ensures var c := Run(Initial(), [Connect(kind), Disconnect, Upgrade(next)]);
            StatusLabel(c.isConnected, c.transport) == "Disconnected" && c.transport == next
  {
    var es := [Connect(kind), Disconnect, Upgrade(next)];
    var c1 := Step(Initial(), es[0]);
    var c2 := Step(c1, es[1]);
    var c3 := Step(c2, es[2]);
    assert Run(c3, es[3..]) == c3;
    assert Run(c2, es[2..]) == Run(c3, es[3..]);
    assert Run(c1, es[1..]) == Run(c2, es[2..]);
    assert Run(Initial(), es) == Run(c1, es[1..]);
  }

  /** Without a connect the upgrade listener is never installed, so the
      status stays the initial one. */
  lemma {:induction false} NoConnectNoListener(c: Chat, events: seq<Event>)
    requires !c.upgradeRegistered && !c.isConnected && c.transport == NoTransport
    requires forall i :: 0 <= i < |events| ==> !events[i].Connect?
    ensures var d := Run(c, events);
            !d.upgradeRegistered && !d.isConnected && d.transport == NoTransport
    decreases |events|
  {
    if events != [] {
      NoConnectNoListener(Step(c, events[0]), events[1..]);
      assert Run(c, events) == Run(Step(c, events[0]), events[1..]);
    }
  }

  /** However many messages, edits, sends and disconnects come first, an
      upgrade that arrives before any connect changes nothing. */
  lemma UpgradeIgnoredUntilConnect(events: seq<Event>, kind: string)
    requires forall i :: 0 <= i < |events| ==> !events[i].Connect?
    ensures Step(Run(Initial(), events), Upgrade(kind)) == Run(Initial(), events)
    ensures var d := Run(Initial(), events);
            StatusLabel(d.isConnected, d.transport) == "Disconnected"
  {
    NoConnectNoListener(Initial(), events);
  }

  /** Connect over `kind`, type and send `text`, receive `payload`: the log
      holds the local entry with id 1 and the peer's with id 2, exactly one
      payload, the text as typed, was emitted, and the input is cleared. */
  lemma {:induction false} EndToEndScenario(kind: string, text: string, payload: string, t1: string, t2: string)
    requires !IsBlank(text)
    ensures var c := Run(Initial(), [Connect(kind), EditInput(text), Submit(t1), Inbound(payload, t2)]);
            && c.isConnected && c.transport == kind
            && c.messages == [Message(1, You, text, t1), Message(2, Stranger, payload, t2)]
            && c.outbound == [text]
            && c.input == ""
  {
    var first := [Connect(kind), EditInput(text)];
    var second := [Submit(t1), Inbound(payload, t2)];
    var m1 := [Message(1, You, text, t1)];
    var c2 := Chat([], true, kind, true, text, []);
    var c3 := Chat(m1, true, kind, true, "", [text]);
    var c4 := c3.(messages := [Message(1, You, text, t1), Message(2, Stranger, payload, t2)]);
    assert Run(Initial(), first) == c2 by {
      RunTwo(Initial(), first[0], first[1]);
    }
    assert Run(c2, second) == c4 by {
      RunTwo(c2, second[0], second[1]);
      assert Append([], You, text, t1) == m1;
      assert Append(m1, Stranger, payload, t2) == c4.messages;
    }
    RunConcat(Initial(), first, second);
    assert first + second == [Connect(kind), EditInput(text), Submit(t1), Inbound(payload, t2)];
  }

  /** From any state: disconnect, connect over `k1`, upgrade to `k2` ends
      connected over `k2`; connect over `k1`, disconnect, connect over `k2`
      ends connected over `k2` with the log untouched by the churn. */
  lemma {:induction false} ReconnectScenario(c: Chat, k1: string, k2: string)
    ensures var d := Run(c, [Disconnect, Connect(k1), Upgrade(k2)]);
            d.isConnected && d.transport == k2
    ensures var d := Run(c, [Connect(k1), Disconnect, Connect(k2)]);
            d.isConnected && d.transport == k2 && d.messages == c.messages
  {
    var es := [Disconnect, Connect(k1), Upgrade(k2)];
    var c1 := Step(c, es[0]);
    var c2 := Step(c1, es[1]);
    var c3 := Step(c2, es[2]);
    assert Run(c, es) == c3 by {
      assert Run(c3, es[3..]) == c3;
      assert Run(c2, es[2..]) == Run(c3, es[3..]);
      assert Run(c1, es[1..]) == Run(c2, es[2..]);
    }
    var fs := [Connect(k1), Disconnect, Connect(k2)];
    var d1 := Step(c, fs[0]);
    var d2 := Step(d1, fs[1]);
    var d3 := Step(d2, fs[2]);
    assert Run(c, fs) == d3 by {
      assert Run(d3, fs[3..]) == d3;
      assert Run(d2, fs[2..]) == Run(d3, fs[3..]);
      assert Run(d1, fs[1..]) == Run(d2, fs[2..]);
    }
  }

  /** Blank text is never sent: submitting "" or "   " leaves the state as it
      was, "hi" is sent, and an inbound "" is still logged. */
  lemma BlankScenario(c: Chat, t: string)
    ensures Step(c.(input := ""), Submit(t)) == c.(input := "")
    ensures Step(c.(input := "   "), Submit(t)) == c.(input := "   ")
    ensures |Step(c.(input := "hi"), Submit(t)).messages| == |c.messages| + 1
    ensures |Step(c, Inbound("", t)).messages| == |c.messages| + 1
  {
    BlankExamples();
  }
}
