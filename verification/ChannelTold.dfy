/**
 What a channel asks: once told its interfaces it asks for the group's properties and the
 conference's, listening to the group from then on, and it is ready only when all was answered.
 */
module ChannelTold {
  import opened Handles
  import opened GroupDelta
  import opened GroupReplica
  import opened ChannelMachine
  import opened ChannelInvariants
  import opened ChannelReadiness
  import opened ChannelConvergence
  import opened ChannelMeaning

  /** An event that says which interfaces the channel has, with the connection's self handle then. */
  function InterfacesIn(e: Event): Option<Handle> {
    match e
    case Connected(self, Complete(props)) => if props.Usable() then Some(self) else None
    case MainReply(props, connectionSelf) => if props.Usable() then Some(connectionSelf) else None
    case InterfacesReply(found, connectionSelf) => if found.Some? then Some(connectionSelf) else None
    case _ => None
  }

  function InterfacesOf(e: Event): Interfaces
    requires InterfacesIn(e).Some?
  {
    match e
    case Connected(_, Complete(props)) => props.interfaces.value
    case MainReply(props, _) => props.interfaces.value
    case InterfacesReply(found, _) => found.value
  }

  /** The connection's self handle when the channel was last told its interfaces, from the events alone. */
  function SelfWhenTold(events: seq<Event>): Option<Handle>
    decreases |events|
  {
    if events == [] then None
    else
      var e := events[|events| - 1];
      if InterfacesIn(e).Some? then InterfacesIn(e) else SelfWhenTold(events[..|events| - 1])
  }

  /** What is asked of a channel with these interfaces, in this order. */
  function Questions(i: Interfaces): seq<Introspection> {
    (if i.group then [GroupProperties] else []) + (if i.conference then [ConferenceProperties] else [])
  }

  /** The channel is still to be told what it is, or the last reply to that was a failure. */
  predicate AsksWhatItIs(c: Channel) {
    IsSettingUp(Pipeline(c)) || (!c.valid && Pipeline(c) == [])
  }

  /** Until it is told its interfaces a channel asks for them; then it asks, or has been
      answered, what it wants to know. */
  predicate Asks(c: Channel, told: bool, conference: bool) {
    && (!told ==> AsksWhatItIs(c))
    && (told ==>
          && !IsSettingUp(Pipeline(c))
          && (c.interfaces.group ==> c.listening && (c.group.haveMembers || IsAskingGroup(Pipeline(c))))
          && (c.interfaces.conference ==> conference || ConferenceProperties in Pipeline(c)))
  }

  // ---------------------------------------------------------------- told its interfaces

  function WithMain(c: Channel, props: MainProps): Channel
    requires props.Usable()
  {
    c.(interfaces := props.interfaces.value, group := c.group.(parties := PartiesIn(c.group.parties, props)))
  }

  /** After its main properties, all a channel knows of members is what it faked. */
  lemma MainIsSame(c: Channel, props: MainProps, connectionSelf: Handle)
    requires props.Usable()
    ensures Same(FakeGroup(WithMain(c, props), connectionSelf),
                 ContinueIntrospection(ExtractMainProps(c, props, connectionSelf)))
  {
    var c1 := WithMain(c, props);
    var c2 := FakeGroup(c1, connectionSelf);
    hide FakeGroup, BuildContacts, NowHaveInterfaces, ContinueIntrospection;
    BuildIsSame(c2);
    var c3 := if !FakesGroup(c1) && !c2.interfaces.group && c2.group.parties.initiatorHandle != 0
              then BuildContacts(c2) else c2;
    InterfacesAreSame(c3);
    ContinueIsSame(NowHaveInterfaces(c3));
  }

  lemma ContinueKeepsPipeline(c: Channel)
    requires c.calls == []
    ensures Pipeline(ContinueIntrospection(c)) == c.introspectQueue
    ensures c.listening || (c.introspectQueue != [] && c.introspectQueue[0] == GroupProperties) ==>
              ContinueIntrospection(c).listening
  {
    if c.introspectQueue != [] {
      assert [c.introspectQueue[0]] + c.introspectQueue[1..] == c.introspectQueue;
    }
  }

  lemma FakingKeepsCalls(c: Channel, connectionSelf: Handle)
    ensures var n := FakeGroup(c, connectionSelf);
            c.calls == [] && c.group.queue == [] ==> n.calls == [] && n.introspectQueue == c.introspectQueue
  {
    if FakesGroup(c) && connectionSelf != 0 && c.group.parties.targetHandle != 0 {
      var w := c.(group := FakedGroup(c.group, connectionSelf));
      hide ProcessMembersChanged, InitialDeltas;
      ProcessIsSame(w.(group := HaveInitialMembers(w.group)));
    }
  }

  lemma MainQueues(c: Channel, props: MainProps, connectionSelf: Handle)
    requires props.Usable() && c.calls == [] && c.introspectQueue == [] && c.group.queue == []
    ensures var x := ExtractMainProps(c, props, connectionSelf);
            x.calls == [] && x.introspectQueue == Questions(props.interfaces.value)
  {
    var c1 := WithMain(c, props);
    var c2 := FakeGroup(c1, connectionSelf);
    FakingKeepsCalls(c1, connectionSelf);
    hide FakeGroup, BuildContacts;
    BuildIsSame(c2);
    BuildKeepsQueue(c2);
    var c3 := if !FakesGroup(c1) && !c2.interfaces.group && c2.group.parties.initiatorHandle != 0
              then BuildContacts(c2) else c2;
    assert c3.interfaces == props.interfaces.value by {
      FakingIsSame(c1, connectionSelf);
    }
    assert [] + (if c3.interfaces.group then [GroupProperties] else [])
           + (if c3.interfaces.conference then [ConferenceProperties] else []) == Questions(props.interfaces.value);
  }

  lemma FakingIsSame(c: Channel, connectionSelf: Handle)
    ensures FakeGroup(c, connectionSelf).interfaces == c.interfaces
  {
    var h := c.(group := HaveInitialMembers(FakedGroup(c.group, connectionSelf)));
    hide ProcessMembersChanged, InitialDeltas;
    ProcessIsSame(h);
  }

  lemma MainAsks(c: Channel, props: MainProps, connectionSelf: Handle)
    requires props.Usable() && c.calls == [] && c.introspectQueue == [] && c.group.queue == []
    ensures var n := ContinueIntrospection(ExtractMainProps(c, props, connectionSelf));
            && Pipeline(n) == Questions(props.interfaces.value)
            && (props.interfaces.value.group ==> n.listening)
  {
    hide ExtractMainProps, ContinueIntrospection;
    MainQueues(c, props, connectionSelf);
    ContinueKeepsPipeline(ExtractMainProps(c, props, connectionSelf));
  }

  lemma InterfacesAsk(c: Channel, found: Interfaces, connectionSelf: Handle)
    requires c.calls == [FallbackInterfaces] && c.introspectQueue == [] && c.group.queue == []
    ensures var n := GotInterfaces(c, Some(found), connectionSelf);
            Pipeline(n) == Questions(found) && (found.group ==> n.listening)
  {
    var c2 := NowHaveInterfaces(Answered(c, FallbackInterfaces).(interfaces := found));
    assert c2.calls == [] && c2.introspectQueue == Questions(found);
    hide FakeGroup, ContinueIntrospection, NowHaveInterfaces;
    FakingKeepsCalls(c2, connectionSelf);
    ContinueKeepsPipeline(FakeGroup(c2, connectionSelf));
  }

  lemma ReportedInterfaces(c: Channel, e: Event, m: Meaning)
    requires Inv(c) && Enabled(c, e) && Knows(c, m)
    ensures Step(c, e).interfaces == if InterfacesIn(e).Some? then InterfacesOf(e) else c.interfaces
  {
    StepKnows(c, e, m);
    MeantInterfaces(m, e);
    hide Step, Inv, KnowsMembers, InterfacesOf, InterfacesIn, After;
  }

  lemma MeantInterfaces(m: Meaning, e: Event)
    ensures After(m, e).interfaces == if InterfacesIn(e).Some? then InterfacesOf(e) else m.interfaces
  {
  }

  lemma SetUpFacts(c: Channel, m: Meaning)
    requires Inv(c) && Knows(c, m) && StillAsks(c)
    ensures !c.group.haveMembers && c.group.history.accepted == [] && c.group.initial == Initial([], [], [])
    ensures !c.group.history.skipped && c.calls == [c.calls[0]] && c.group.queue == []
  {
    assert Pipeline(c)[0] == c.calls[0];
    NothingTaken(c, m);
  }

  lemma ReportAsks(c: Channel, e: Event, m: Meaning)
    requires Inv(c) && Enabled(c, e) && Knows(c, m) && InterfacesIn(e).Some?
    ensures Pipeline(Step(c, e)) == Questions(InterfacesOf(e))
    ensures InterfacesOf(e).group ==> Step(c, e).listening
  {
    AnsweredCall(c, CallOf(e).value);
    SetUpFacts(c, m);
    hide Inv, Knows, ExtractMainProps, ContinueIntrospection, GotInterfaces, Questions;
    match e
    case Connected(self, Complete(props)) =>
      var parties := c.group.parties.(selfHandle := self, initiatorHandle := InitiatorIn(Complete(props)));
      MainAsks(Answered(c, ConnectionReady).(group := c.group.(parties := parties)), props, self);
    case MainReply(props, connectionSelf) => MainAsks(Answered(c, MainProperties), props, connectionSelf);
    case InterfacesReply(Some(found), connectionSelf) => InterfacesAsk(c, found, connectionSelf);
    case _ =>
  }

  // ---------------------------------------------------------------- before and after

  lemma SetUpReplies(c: Channel, e: Event)
    requires Chain(c) && Enabled(c, e) && IsSettingUp(Pipeline(c)) && InterfacesIn(e).None? && CallOf(e).Some?
    ensures AsksWhatItIs(Step(c, e))
  {
    AnsweredCall(c, CallOf(e).value);
    assert Pipeline(c)[0] == CallOf(e).value;
    hide Chain, ContinueIntrospection;
    match e
    case Connected(self, Complete(props)) =>
      var parties := c.group.parties.(selfHandle := self, initiatorHandle := InitiatorIn(Complete(props)));
      UnusableAsks(Answered(c, ConnectionReady).(group := c.group.(parties := parties)), props, self);
    case MainReply(props, self) => UnusableAsks(Answered(c, MainProperties), props, self);
    case ChannelTypeReply(ok) => ContinueKeepsPipeline(Answered(c, FallbackChannelType));
    case HandleReply(Some(t)) =>
      var parties := c.group.parties.(targetIsContact := t.isContact, targetHandle := t.handle);
      ContinueKeepsPipeline(Answered(c, FallbackHandle).(group := c.group.(parties := parties)));
    case _ =>
  }

  lemma UnusableAsks(c: Channel, props: MainProps, self: Handle)
    requires !props.Usable() && c.calls == [] && c.introspectQueue == []
    ensures IsSettingUp(Pipeline(ContinueIntrospection(ExtractMainProps(c, props, self))))
  {
    hide ContinueIntrospection;
    ContinueKeepsPipeline(ExtractMainProps(c, props, self));
  }

  /** The replies that tell a channel it cannot be used, and its end. */
  predicate Fails(e: Event) {
    || e.ConnectionFailed? || e.Closed? || (e.ChannelTypeReply? && !e.ok) || (e.HandleReply? && e.target.None?)
    || (e.InterfacesReply? && e.found.None?)
  }

  /** What an event after the set-up leaves to be asked. */
  predicate Moves(c: Channel, e: Event, n: Channel) {
    && (c.listening ==> n.listening) && (n.valid <==> c.valid && !Fails(e))
    && Pipeline(n) == if CallOf(e).None? then Pipeline(c)
                      else c.introspectQueue + if e.GroupReply? && !e.groupProps.Usable() then FALLBACK else []
  }

  const FALLBACK: seq<Introspection> := [FallbackFlags, FallbackMembers, FallbackLocalPending, FallbackSelfHandle]

  lemma SignalMoves(c: Channel, e: Event)
    requires Enabled(c, e) && CallOf(e).None?
    ensures Moves(c, e, Step(c, e))
  {
    hide ProcessMembersChanged, Receive, SetFlags, ChangedFlags, AfterWork, EmissionFor, PartiesAfter;
    match e
    case ContactsReply(reply) =>
      var x := Applied(c, reply);
      assert GotContacts(c, reply) == ProcessMembersChanged(x);
      ProcessIsSame(x);
    case MembersChanged(d, known) => ProcessIsSame(c.(group := Receive(c.group, d, known)));
    case MembersChangedDetailed(d, known) => ProcessIsSame(c.(group := Receive(c.group, d, known)));
    case _ =>
  }

  lemma StoredMoves(c: Channel, call: Introspection, x: Channel)
    requires c.calls == [call] && x.calls == [] && x.introspectQueue == c.introspectQueue
    requires (c.listening ==> x.listening) && x.valid == c.valid
    ensures Pipeline(ContinueIntrospection(x)) == c.introspectQueue
    ensures (c.listening ==> ContinueIntrospection(x).listening) && ContinueIntrospection(x).valid == c.valid
  {
    hide ContinueIntrospection;
    ContinueIsSame(x);
    ContinueKeepsPipeline(x);
  }

  lemma TakenMoves(c: Channel, w: Channel)
    requires w.calls == [] && w.introspectQueue == c.introspectQueue && w.listening == c.listening && w.valid == c.valid
    ensures var n := ContinueIntrospection(ProcessMembersChanged(w.(group := HaveInitialMembers(w.group))));
            Pipeline(n) == c.introspectQueue && (c.listening ==> n.listening) && n.valid == c.valid
  {
    hide ProcessMembersChanged, ContinueIntrospection, HaveInitialMembers;
    var h := w.(group := HaveInitialMembers(w.group));
    ProcessIsSame(h);
    ContinueIsSame(ProcessMembersChanged(h));
    ContinueKeepsPipeline(ProcessMembersChanged(h));
  }

  lemma GroupReplyMoves(c: Channel, props: GroupProps)
    requires c.calls == [GroupProperties] && c.interfaces.group && (c.group.usingDetailed <==> Promises(c.group.flags))
    ensures Moves(c, GroupReply(props), GotGroupProperties(c, props))
  {
    if props.Usable() {
      var w := WithProps(c, props);
      assert w.calls == [] && w.introspectQueue == c.introspectQueue;
      assert w.listening == c.listening && w.valid == c.valid;
      UsablePropsLead(c, props);
      hide ProcessMembersChanged, ContinueIntrospection, HaveInitialMembers, GotGroupProperties, WithProps;
      TakenMoves(c, w);
      assert c.introspectQueue + [] == c.introspectQueue;
    } else {
      hide ContinueIntrospection;
      ContinueIsSame(ExtractGroupProps(Answered(c, GroupProperties), props));
      ContinueKeepsPipeline(ExtractGroupProps(Answered(c, GroupProperties), props));
    }
  }

  lemma SelfToldStays(c: Channel, handle: Option<Handle>)
    requires c.calls != []
    ensures WithSelfTold(c, handle).listening == c.listening && WithSelfTold(c, handle).valid == c.valid
  {
    hide Without;
  }

  lemma NeverFails(handle: Option<Handle>)
    ensures !Fails(SelfHandleReply(handle))
  {
  }

  lemma SelfHandleReplyMoves(c: Channel, handle: Option<Handle>)
    requires c.calls == [FallbackSelfHandle]
    ensures Moves(c, SelfHandleReply(handle), GotSelfHandle(c, handle))
  {
    hide ProcessMembersChanged, ContinueIntrospection, HaveInitialMembers, GotSelfHandle, WithSelfTold, Pipeline, Fails;
    SelfToldLeads(c, handle);
    SelfToldStays(c, handle);
    TakenMoves(c, WithSelfTold(c, handle));
    NeverFails(handle);
    assert c.introspectQueue + [] == c.introspectQueue;
  }

  lemma FlagsReplyMoves(c: Channel, flags: Option<Flags>)
    requires c.calls == [FallbackFlags]
    ensures Moves(c, FlagsReply(flags), GotGroupFlags(c, flags))
  {
    var c1 := Answered(c, FallbackFlags);
    hide ContinueIntrospection, SetFlags;
    StoredMoves(c, FallbackFlags, c1);
    if flags.Some? {
      var g := SetFlags(c1.group, c1.interfaces.group, flags.value);
      StoredMoves(c, FallbackFlags, c1.(group := g.(flags := g.flags - {FLAG_PROPERTIES})));
    }
  }

  lemma OtherReplyMoves(c: Channel, e: Event)
    requires Enabled(c, e) && CallOf(e).Some? && c.calls == [CallOf(e).value]
    requires e.MembersReply? || e.LocalPendingReply? || e.ConferenceReply?
    ensures Moves(c, e, Step(c, e))
  {
    var c1 := Answered(c, CallOf(e).value);
    hide ContinueIntrospection, BareInfos;
    StoredMoves(c, CallOf(e).value, c1);
    match e
    case MembersReply(Some(all)) =>
      var i := Initial(all.members, c1.group.initial.localPending + BareInfos(all.localPending), all.remotePending);
      StoredMoves(c, FallbackMembers, c1.(group := c1.group.(initial := i)));
    case LocalPendingReply(Some(infos)) =>
      var i := c1.group.initial.(localPending := infos);
      StoredMoves(c, FallbackLocalPending, c1.(group := c1.group.(initial := i)));
    case ConferenceReply => StoredMoves(c, ConferenceProperties, c1.(introspectingConference := false));
    case _ =>
  }

  lemma ReplyMoves(c: Channel, e: Event)
    requires Inv(c) && Enabled(c, e) && CallOf(e).Some? && !IsSettingUp(Pipeline(c))
    ensures Moves(c, e, Step(c, e)) && !IsSetUpCall(CallOf(e).value)
  {
    AnsweredCall(c, CallOf(e).value);
    assert Chain(c) && Pipeline(c)[0] == CallOf(e).value;
    if e.GroupReply? {
      BeforeAnswer(c);
    }
    hide Inv, Chain, Moves, ProcessMembersChanged, ContinueIntrospection;
    match e
    case GroupReply(props) => GroupReplyMoves(c, props);
    case FlagsReply(flags) => FlagsReplyMoves(c, flags);
    case SelfHandleReply(handle) => SelfHandleReplyMoves(c, handle);
    case _ => OtherReplyMoves(c, e);
  }

  // ---------------------------------------------------------------- the results

  lemma MeantMembers(m: Meaning, e: Event)
    ensures m.haveMembers || e.SelfHandleReply? || (e.GroupReply? && e.groupProps.Usable()) ==> After(m, e).haveMembers
  {
  }

  /** What is left to ask when the first question was answered. */
  lemma QuestionsLeft(p: seq<Introspection>, call: Introspection, queue: seq<Introspection>, fallback: bool)
    requires p == [call] + queue && (IsAskingGroup(p) || IsLate(p)) && (fallback ==> call == GroupProperties)
    ensures var q := queue + if fallback then FALLBACK else [];
            && !IsSettingUp(q)
            && (IsAskingGroup(p) && call != FallbackSelfHandle && (call == GroupProperties ==> fallback) ==>
                  IsAskingGroup(q))
            && (ConferenceProperties in p ==> call == ConferenceProperties || ConferenceProperties in q)
  {
    assert p[0] == call && p[1..] == queue;
    assert ConferenceProperties in p ==> call == ConferenceProperties || ConferenceProperties in queue;
    if fallback {
      assert [] + FALLBACK == FALLBACK;
      assert [ConferenceProperties] + FALLBACK ==
             [ConferenceProperties, FallbackFlags, FallbackMembers, FallbackLocalPending, FallbackSelfHandle];
    } else {
      assert queue + [] == queue;
    }
  }

  lemma ToldStays(c: Channel, e: Event, n: Channel, conference: bool)
    requires Chain(c) && Enabled(c, e) && Asks(c, true, conference) && Moves(c, e, n)
    requires n.interfaces == c.interfaces
    requires c.group.haveMembers || e.SelfHandleReply? || (e.GroupReply? && e.groupProps.Usable()) ==>
               n.group.haveMembers
    ensures Asks(n, true, conference || e.ConferenceReply?)
  {
    if CallOf(e).Some? {
      AnsweredCall(c, CallOf(e).value);
      AskingOrLate(c);
      hide Chain, IsSettingUp, IsAskingGroup, IsLate;
      QuestionsLeft(Pipeline(c), CallOf(e).value, c.introspectQueue, e.GroupReply? && !e.groupProps.Usable());
      CallIs(e);
    } else {
      hide Chain, IsSettingUp, IsAskingGroup, IsLate;
    }
  }

  lemma AskingOrLate(c: Channel)
    requires Chain(c) && !IsSettingUp(Pipeline(c))
    ensures IsAskingGroup(Pipeline(c)) || IsLate(Pipeline(c))
  {
  }

  lemma CallIs(e: Event)
    requires CallOf(e).Some?
    ensures CallOf(e).value == FallbackSelfHandle <==> e.SelfHandleReply?
    ensures CallOf(e).value == GroupProperties <==> e.GroupReply?
    ensures CallOf(e).value == ConferenceProperties <==> e.ConferenceReply?
  {
  }

  lemma ToldAsksOn(c: Channel, e: Event, m: Meaning, conference: bool)
    requires Inv(c) && Enabled(c, e) && Knows(c, m) && Asks(c, true, conference) && InterfacesIn(e).None?
    ensures Asks(Step(c, e), true, conference || e.ConferenceReply?)
  {
    ReportedInterfaces(c, e, m);
    AskedBefore(c, conference);
    MovesOn(c, e);
    StepKnows(c, e, m);
    MeantMembers(m, e);
    assert c.group.haveMembers == m.haveMembers && Step(c, e).group.haveMembers == After(m, e).haveMembers;
    assert Chain(c);
    hide Step, Inv, Knows, Chain, Enabled, Moves, Asks, IsSettingUp, After, InterfacesIn;
    ToldStays(c, e, Step(c, e), conference);
  }

  lemma UntoldAsksOn(c: Channel, e: Event)
    requires Inv(c) && Enabled(c, e) && InterfacesIn(e).None? && AsksWhatItIs(c)
    ensures AsksWhatItIs(Step(c, e))
  {
    if CallOf(e).Some? {
      AnsweredCall(c, CallOf(e).value);
      hide GroupInv, Alive, FlagsAgree, Lookups, Readiness, Step;
      SetUpReplies(c, e);
    } else {
      SignalMoves(c, e);
      StepIsCareful(c, e);
      assert Step(c, e).valid ==> c.valid;
      hide Step, Inv;
    }
  }

  lemma QuestionsAsked(n: Channel, conference: bool)
    requires Pipeline(n) == Questions(n.interfaces) && (n.interfaces.group ==> n.listening)
    ensures Asks(n, true, conference)
  {
    var q := Questions(n.interfaces);
    assert q != [] ==> q[0] == GroupProperties || q[0] == ConferenceProperties;
    if n.interfaces.conference {
      assert q[|q| - 1] == ConferenceProperties;
    }
  }

  lemma ReportAsksOn(c: Channel, e: Event, m: Meaning, conference: bool)
    requires Inv(c) && Enabled(c, e) && Knows(c, m) && InterfacesIn(e).Some?
    ensures Asks(Step(c, e), true, conference)
  {
    ReportedInterfaces(c, e, m);
    ReportAsks(c, e, m);
    hide Step, Inv, Knows, Enabled, InterfacesIn, InterfacesOf, Asks, Questions;
    QuestionsAsked(Step(c, e), conference);
  }

  lemma StepAsks(c: Channel, e: Event, m: Meaning, told: bool, conference: bool)
    requires Inv(c) && Enabled(c, e) && Knows(c, m) && Asks(c, told, conference)
    ensures Asks(Step(c, e), told || InterfacesIn(e).Some?, conference || e.ConferenceReply?)
  {
    hide Step, Inv, Knows, Enabled, IsSettingUp, IsAskingGroup;
    if InterfacesIn(e).Some? {
      ReportAsksOn(c, e, m, conference || e.ConferenceReply?);
    } else if told {
      ToldAsksOn(c, e, m, conference);
    } else {
      UntoldAsksOn(c, e);
    }
  }

  lemma AskedBefore(c: Channel, conference: bool)
    requires Asks(c, true, conference)
    ensures !IsSettingUp(Pipeline(c))
  {
  }

  lemma MovesOn(c: Channel, e: Event)
    requires Inv(c) && Enabled(c, e) && !IsSettingUp(Pipeline(c))
    ensures Moves(c, e, Step(c, e)) && (CallOf(e).Some? ==> !IsSetUpCall(CallOf(e).value))
  {
    hide Inv, Step, Moves;
    if CallOf(e).Some? {
      ReplyMoves(c, e);
    } else {
      SignalMoves(c, e);
    }
  }

  /** Whether the conference's properties were answered. */
  predicate ConferenceTold(events: seq<Event>) {
    exists k :: 0 <= k < |events| && events[k].ConferenceReply?
  }

  lemma {:induction false} AsksInTurn(run: seq<Channel>, events: seq<Event>, i: nat)
    requires IsRun(run, events) && i <= |events|
    ensures Asks(run[i], SelfWhenTold(events[..i]).Some?, ConferenceTold(events[..i]))
  {
    hide Step, Enabled, Inv, Knows, Asks;
    if i == 0 {
      FirstAsks();
    } else {
      var e, before := events[i - 1], events[..i - 1];
      assert events[..i] == before + [e];
      AsksInTurn(run, events, i - 1);
      RunKeeps(run, events, i - 1);
      KnowsWhatItWasTold(run, events, i - 1);
      StepAsks(run[i - 1], e, MeaningOf(before), SelfWhenTold(before).Some?, ConferenceTold(before));
      assert ConferenceTold(events[..i]) <==> ConferenceTold(before) || e.ConferenceReply? by {
        assert events[..i][i - 1] == e;
        assert forall k :: 0 <= k < i - 1 ==> before[k] == events[..i][k];
      }
    }
  }

  lemma FirstAsks()
    ensures Asks(INITIAL_CHANNEL, false, false)
  {
  }

  /** A channel that is ready was told its interfaces; its group's members are known and its changes
      listened to, if it has a group; and its conference's properties were answered, if it is one. */
  lemma ReadyWhenTold(run: seq<Channel>, events: seq<Event>, i: nat)
    requires IsRun(run, events) && i <= |events| && run[i].ready
    ensures SelfWhenTold(events[..i]).Some?
    ensures MeaningOf(events[..i]).interfaces.group ==> MeaningOf(events[..i]).haveMembers && run[i].listening
    ensures MeaningOf(events[..i]).interfaces.conference ==> ConferenceTold(events[..i])
  {
    RunKeeps(run, events, i);
    KnowsWhatItWasTold(run, events, i);
    AsksInTurn(run, events, i);
    assert run[i].valid && Pipeline(run[i]) == [];
    hide Step, Enabled, Inv, KnowsMembers, ConferenceTold;
  }

  /** From the moment a channel is told that it has a group, it listens to the group's signals. */
  lemma ListensToItsGroup(run: seq<Channel>, events: seq<Event>, i: nat)
    requires IsRun(run, events) && i <= |events| && SelfWhenTold(events[..i]).Some?
    ensures run[i].listening <==> MeaningOf(events[..i]).interfaces.group
  {
    RunKeeps(run, events, i);
    KnowsWhatItWasTold(run, events, i);
    AsksInTurn(run, events, i);
    hide Step, Enabled, KnowsMembers, ConferenceTold, IsAskingGroup, IsLate, FlagsAgree, Lookups, Readiness, GroupInv,
         Alive;
  }

  /** A channel without a group interface asks nothing more of its group. */
  lemma AsksNoMore(c: Channel, conference: bool)
    requires Inv(c) && Asks(c, true, conference) && !c.interfaces.group
    ensures IsLate(Pipeline(c)) && !c.listening
  {
  }

  // ---------------------------------------------------------------- validity

  lemma GoesOnValid(x: Channel, valid: bool)
    requires x.valid == valid
    ensures ContinueIntrospection(x).valid == valid
  {
    hide ContinueIntrospection;
    ContinueIsSame(x);
  }

  lemma MainKeepsValid(x: Channel, props: MainProps, self: Handle)
    ensures ContinueIntrospection(ExtractMainProps(x, props, self)).valid == x.valid
  {
    hide ContinueIntrospection;
    GoesOnValid(ExtractMainProps(x, props, self), x.valid) by {
      if props.Usable() {
        var c2 := FakeGroup(WithMain(x, props), self);
        hide FakeGroup, BuildContacts;
        FakingKeepsValid(WithMain(x, props), self);
        BuildIsSame(c2);
      }
    }
  }

  lemma FakingKeepsValid(c: Channel, self: Handle)
    ensures FakeGroup(c, self).valid == c.valid
  {
    hide ProcessMembersChanged, HaveInitialMembers;
    ProcessIsSame(c.(group := HaveInitialMembers(FakedGroup(c.group, self))));
  }

  lemma ConnectedValid(c: Channel, self: Handle, immutable: Immutable)
    requires c.calls != []
    ensures GotConnection(c, self, immutable).valid == c.valid
  {
    hide ContinueIntrospection, ExtractMainProps, Without;
    var parties := c.group.parties.(selfHandle := self, initiatorHandle := InitiatorIn(immutable));
    if immutable.Complete? {
      MainKeepsValid(Answered(c, ConnectionReady).(group := c.group.(parties := parties)), immutable.props, self);
    }
  }

  lemma InterfacesValid(c: Channel, found: Interfaces, self: Handle)
    requires c.calls != []
    ensures GotInterfaces(c, Some(found), self).valid == c.valid
  {
    hide ContinueIntrospection, FakeGroup, Without;
    var c2 := NowHaveInterfaces(Answered(c, FallbackInterfaces).(interfaces := found));
    FakingKeepsValid(c2, self);
    GoesOnValid(FakeGroup(c2, self), c.valid);
  }

  lemma InterfacesRefused(c: Channel, self: Handle)
    requires c.calls != []
    ensures !GotInterfaces(c, None, self).valid
  {
  }

  lemma SetUpValid(c: Channel, e: Event)
    requires Enabled(c, e) && CallOf(e).Some? && IsSetUpCall(CallOf(e).value)
    ensures Step(c, e).valid <==> c.valid && !Fails(e)
  {
    hide ContinueIntrospection, ExtractMainProps, GotConnection, GotInterfaces, Without;
    match e
    case Connected(self, immutable) => ConnectedValid(c, self, immutable);
    case MainReply(props, self) => MainKeepsValid(Answered(c, MainProperties), props, self);
    case ChannelTypeReply(ok) => GoesOnValid(Answered(c, FallbackChannelType), c.valid);
    case HandleReply(Some(t)) =>
      var parties := c.group.parties.(targetIsContact := t.isContact, targetHandle := t.handle);
      GoesOnValid(Answered(c, FallbackHandle).(group := c.group.(parties := parties)), c.valid);
    case InterfacesReply(Some(found), self) => InterfacesValid(c, found, self);
    case InterfacesReply(None, self) => InterfacesRefused(c, self);
    case _ =>
  }

  lemma StepValid(c: Channel, e: Event)
    requires Inv(c) && Enabled(c, e)
    ensures Step(c, e).valid <==> c.valid && !Fails(e)
  {
    hide Inv, Step, Fails, Pipeline, IsSettingUp;
    if CallOf(e).None? {
      SignalMoves(c, e);
    } else if IsSetUpCall(CallOf(e).value) {
      SetUpValid(c, e);
    } else {
      NotSettingUp(c, e);
      ReplyMoves(c, e);
    }
  }

  lemma NotSettingUp(c: Channel, e: Event)
    requires Inv(c) && Enabled(c, e) && CallOf(e).Some? && !IsSetUpCall(CallOf(e).value)
    ensures !IsSettingUp(Pipeline(c))
  {
    AnsweredCall(c, CallOf(e).value);
    assert Pipeline(c)[0] == CallOf(e).value;
  }

  /** A channel is valid exactly as long as nothing it was told makes it unusable. */
  lemma {:induction false} ValidIff(run: seq<Channel>, events: seq<Event>, i: nat)
    requires IsRun(run, events) && i <= |events|
    ensures run[i].valid <==> forall k :: 0 <= k < i ==> !Fails(events[k])
  {
    hide Step, Enabled, Inv, Fails;
    if i > 0 {
      ValidIff(run, events, i - 1);
      RunKeeps(run, events, i - 1);
      StepValid(run[i - 1], events[i - 1]);
    }
  }
}
