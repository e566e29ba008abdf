/**
 One-to-one channels: without a group interface, a channel whose target is a contact has its two
 sides as members, from the moment its interfaces are told to the end of the run.
 */
module ChannelSides {
  import opened Handles
  import opened GroupDelta
  import opened GroupReplica
  import opened ChannelMachine
  import opened ChannelInvariants
  import opened ChannelReadiness
  import opened ChannelHistory
  import opened ChannelMeaning
  import opened ChannelTold

  function TwoSides(a: Handle, b: Handle): Delta {
    Delta([a, b], [], [], [], NO_DETAILS)
  }

  lemma FakingTakes(c: Channel, connectionSelf: Handle)
    requires c.group.history.accepted == [] && c.group.initial == Initial([], [], []) && !c.group.haveMembers
    ensures var n, p := FakeGroup(c, connectionSelf), c.group.parties;
            && n.interfaces == c.interfaces && n.group.parties.targetHandle == p.targetHandle
            && n.group.parties.targetIsContact == p.targetIsContact
            && (n.group.haveMembers && !n.interfaces.group ==>
                  && n.group.parties.selfHandle == connectionSelf != 0 && p.targetHandle != 0 && p.targetIsContact
                  && n.group.history.accepted == [TwoSides(connectionSelf, p.targetHandle)])
            && (!c.interfaces.group ==>
                  (n.group.haveMembers <==> p.targetIsContact && connectionSelf != 0 && p.targetHandle != 0))
  {
    if FakesGroup(c) && connectionSelf != 0 && c.group.parties.targetHandle != 0 {
      var w := c.(group := FakedGroup(c.group, connectionSelf));
      var h := w.(group := HaveInitialMembers(w.group));
      assert InitialDeltas(w.group.initial) == [TwoSides(connectionSelf, c.group.parties.targetHandle)];
      hide ProcessMembersChanged, InitialDeltas;
      ProcessIsSame(h);
    }
  }

  /** When the interfaces become known and there is no group among them, members are known exactly if
      the target is a contact and neither handle is zero; they are then the two sides. */
  predicate FakesExactly(n: Channel, connectionSelf: Handle) {
    var p := n.group.parties;
    !n.interfaces.group ==>
      && (n.group.haveMembers <==> p.targetIsContact && connectionSelf != 0 && p.targetHandle != 0)
      && (n.group.haveMembers ==>
            p.selfHandle == connectionSelf && n.group.history.accepted == [TwoSides(connectionSelf, p.targetHandle)])
  }

  lemma MainFakesExactly(c: Channel, props: MainProps, connectionSelf: Handle)
    requires props.Usable() && c.group.history.accepted == [] && c.group.initial == Initial([], [], [])
    requires !c.group.haveMembers
    ensures FakesExactly(ContinueIntrospection(ExtractMainProps(c, props, connectionSelf)), connectionSelf)
  {
    hide FakeGroup, ContinueIntrospection, ExtractMainProps;
    FakingTakes(WithMain(c, props), connectionSelf);
    MainIsSame(c, props, connectionSelf);
  }

  lemma InterfacesFakeExactly(c: Channel, found: Interfaces, connectionSelf: Handle)
    requires c.calls != [] && c.group.history.accepted == [] && c.group.initial == Initial([], [], [])
    requires !c.group.haveMembers
    ensures FakesExactly(GotInterfaces(c, Some(found), connectionSelf), connectionSelf)
  {
    var c2 := NowHaveInterfaces(Answered(c, FallbackInterfaces).(interfaces := found));
    assert c2.group == c.group;
    hide FakeGroup, ContinueIntrospection, NowHaveInterfaces;
    FakingTakes(c2, connectionSelf);
    ContinueIsSame(FakeGroup(c2, connectionSelf));
  }

  lemma ReportFakesExactly(c: Channel, e: Event, m: Meaning)
    requires Inv(c) && Enabled(c, e) && Knows(c, m) && InterfacesIn(e).Some?
    ensures FakesExactly(Step(c, e), InterfacesIn(e).value)
  {
    AnsweredCall(c, CallOf(e).value);
    SetUpFacts(c, m);
    hide Inv, Knows, FakesExactly, ExtractMainProps, ContinueIntrospection, GotInterfaces;
    match e
    case Connected(self, Complete(props)) =>
      var parties := c.group.parties.(selfHandle := self, initiatorHandle := InitiatorIn(Complete(props)));
      MainFakesExactly(Answered(c, ConnectionReady).(group := c.group.(parties := parties)), props, self);
    case MainReply(props, connectionSelf) => MainFakesExactly(Answered(c, MainProperties), props, connectionSelf);
    case InterfacesReply(Some(found), connectionSelf) => InterfacesFakeExactly(c, found, connectionSelf);
    case _ =>
  }

  // ---------------------------------------------------------------- the rest of the run

  predicate SidesKnown(c: Channel, s: Handle) {
    !c.interfaces.group ==>
      FakesExactly(c, s) && (c.group.haveMembers ==> !c.group.history.skipped)
  }

  /** A report of the interfaces settles it. */
  lemma ReportSettles(c: Channel, e: Event, m: Meaning)
    requires Inv(c) && Enabled(c, e) && Knows(c, m) && InterfacesIn(e).Some?
    ensures SidesKnown(Step(c, e), InterfacesIn(e).value)
  {
    ReportFakesExactly(c, e, m);
    SetUpCalls(c, e, m);
    StepIsCareful(c, e);
    hide Step, Inv, Knows, IsLate;
  }

  lemma SetUpCalls(c: Channel, e: Event, m: Meaning)
    requires Inv(c) && Enabled(c, e) && Knows(c, m) && InterfacesIn(e).Some?
    ensures !c.group.history.skipped
  {
    AnsweredCall(c, CallOf(e).value);
    SetUpFacts(c, m);
  }

  /** Nothing changes any more of what the channel knows of its sides. */
  lemma LateIsSame(c: Channel, e: Event)
    requires Inv(c) && Enabled(c, e) && IsLate(Pipeline(c)) && !c.listening
    ensures Same(c, Step(c, e))
  {
    if CallOf(e).Some? {
      ConferenceIsSame(c, e);
    } else {
      hide Inv, GotContacts, IsLate;
      match e
      case ContactsReply(reply) => ContactsAreSame(c, reply);
      case _ =>
    }
  }

  lemma ConferenceIsSame(c: Channel, e: Event)
    requires Inv(c) && Enabled(c, e) && IsLate(Pipeline(c)) && CallOf(e).Some?
    ensures Same(c, Step(c, e))
  {
    AnsweredCall(c, CallOf(e).value);
    assert Pipeline(c)[0] == ConferenceProperties;
    hide Inv, ContinueIntrospection;
    var x := Answered(c, ConferenceProperties).(introspectingConference := false);
    ContinueIsSame(x);
  }

  lemma ContactsAreSame(c: Channel, reply: LookupReply)
    requires c.lookups != []
    ensures Same(c, GotContacts(c, reply))
  {
    hide ProcessMembersChanged, AfterWork, EmissionFor;
    var x := Applied(c, reply);
    assert GotContacts(c, reply) == ProcessMembersChanged(x);
    ProcessIsSame(x);
  }

  lemma SidesStay(c: Channel, e: Event, s: Handle, m: Meaning)
    requires Inv(c) && Enabled(c, e) && Knows(c, m) && SidesKnown(c, s) && InterfacesIn(e).None?
    requires !c.interfaces.group ==> IsLate(Pipeline(c))
    ensures SidesKnown(Step(c, e), s)
  {
    ReportedInterfaces(c, e, m);
    if !c.interfaces.group {
      assert !c.listening;
      hide Enabled;
      LateIsSame(c, e);
      StepIsCareful(c, e);
      hide Step, Inv, Knows, IsLate;
    }
  }

  /** Without a group interface the channel has members exactly if its target is a contact and
      neither handle is zero, and it then has the self handle of the connection; at rest it shows
      exactly the two sides. */
  lemma OneToOneHasItsSides(run: seq<Channel>, events: seq<Event>, i: nat)
    requires IsRun(run, events) && i <= |events|
    requires SelfWhenTold(events[..i]).Some? && !MeaningOf(events[..i]).interfaces.group
    ensures var self, target := SelfWhenTold(events[..i]).value, MeaningOf(events[..i]).target;
            var n, p := run[i].group, run[i].group.parties;
            && (n.haveMembers <==> MeaningOf(events[..i]).targetIsContact && self != 0 && target != 0)
            && (n.haveMembers ==> p.selfHandle == self && p.targetHandle == target)
            && (n.haveMembers && n.queue == [] && !n.building && LookupsComplete(run, events, i) ==>
                  KeySets(n.maps) == Sets({self, target}, {}, {}))
  {
    var self := SelfWhenTold(events[..i]).value;
    SidesKnownInRuns(run, events, i);
    KnowsWhatItWasTold(run, events, i);
    var n := run[i].group;
    if n.haveMembers && n.queue == [] && !n.building && LookupsComplete(run, events, i) {
      var d := TwoSides(self, n.parties.targetHandle);
      TwoSidesMean(self, n.parties.targetHandle);
      assert n.history.accepted == [d];
      RunKeeps(run, events, i);
      ReplicaIsExact(run, events, i);
      AllApplied(run[i]);
    }
    hide Step, Enabled, LookupsComplete, KnowsMembers, Inv;
  }

  lemma TwoSidesMean(a: Handle, b: Handle)
    ensures AllWellFormed(NOBODY, [TwoSides(a, b)]) && ApplyAll(NOBODY, [TwoSides(a, b)]) == Sets({a, b}, {}, {})
  {
    assert SetOf([a, b]) == {a, b} && SetOf<Handle>([]) == {};
    assert [TwoSides(a, b)][1..] == [];
    assert Apply(NOBODY, TwoSides(a, b)) == Sets({a, b}, {}, {});
  }

  lemma {:induction false} SidesKnownInRuns(run: seq<Channel>, events: seq<Event>, i: nat)
    requires IsRun(run, events) && i <= |events|
    requires SelfWhenTold(events[..i]).Some?
    ensures SidesKnown(run[i], SelfWhenTold(events[..i]).value)
  {
    hide Step, Enabled, Inv, Knows, SidesKnown;
    assert i > 0;
    var e := events[i - 1];
    assert events[..i][..i - 1] == events[..i - 1];
    RunKeeps(run, events, i - 1);
    KnowsWhatItWasTold(run, events, i - 1);
    if InterfacesIn(e).Some? {
      ReportSettles(run[i - 1], e, MeaningOf(events[..i - 1]));
    } else {
      SidesKnownInRuns(run, events, i - 1);
      AsksInTurn(run, events, i - 1);
      ReportedInterfaces(run[i - 1], e, MeaningOf(events[..i - 1]));
      if !run[i - 1].interfaces.group {
        AsksNoMore(run[i - 1], ConferenceTold(events[..i - 1]));
      }
      SidesStay(run[i - 1], e, SelfWhenTold(events[..i]).value, MeaningOf(events[..i - 1]));
    }
  }
}
