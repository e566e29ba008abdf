/**
 The contacts a channel has apart from its members: while lookups return everything asked for, it
 has those of its self handle, initiator and target as soon as it has members and builds nothing.
 */
module ChannelContacts {
  import opened Handles
  import opened GroupDelta
  import opened GroupReplica
  import opened ChannelMachine
  import opened ChannelInvariants
  import opened ChannelReadiness
  import opened ChannelHistory
  import opened ChannelConvergence
  import opened ChannelMeaning
  import opened ChannelTold

  predicate Has(c: Option<Contact>, h: Handle) {
    h != 0 ==> c == Some(Contact(h))
  }

  /** All three contacts are there; that of the self handle unless it changed with no build since. */
  predicate Complete3(p: Parties) {
    && (!p.retrieveSelf ==> Has(p.selfContact, p.selfHandle))
    && Has(p.initiatorContact, p.initiatorHandle)
    && (p.targetIsContact ==> Has(p.targetContact, p.targetHandle))
  }

  /** A build asks for those of them that are missing, and for who made the change. */
  predicate Asked(hs: set<Handle>, p: Parties, w: Work) {
    && (WorkActor(w) != 0 ==> WorkActor(w) in hs)
    && (!p.retrieveSelf && p.selfHandle != 0 ==> p.selfHandle in hs)
    && (p.initiatorContact.None? && p.initiatorHandle != 0 ==> p.initiatorHandle in hs)
    && (p.targetContact.None? && p.targetIsContact && p.targetHandle != 0 ==> p.targetHandle in hs)
  }

  predicate NoneWrong(p: Parties) {
    && (p.initiatorContact.Some? ==> p.initiatorContact.value == Contact(p.initiatorHandle))
    && (p.targetContact.Some? ==> p.targetContact.value == Contact(p.targetHandle))
  }

  /** Without a self handle there is no self contact. */
  predicate NoStranger(p: Parties) {
    p.selfHandle == 0 && !p.retrieveSelf ==> p.selfContact.None?
  }

  /** Nothing is wrong; and unless a build was skipped, a build asks for what is missing, and without
      one nothing is missing once there are members. */
  predicate Covered(c: Channel) {
    && NoneWrong(c.group.parties)
    && (c.lookups == [] && c.group.haveMembers ==> NoStranger(c.group.parties))
    && (!c.group.history.skipped ==>
          && (c.lookups != [] ==> Asked(c.lookups[0], c.group.parties, c.group.work))
          && (c.lookups == [] && c.group.haveMembers ==> Complete3(c.group.parties)))
  }

  /** Nothing was looked up yet. */
  predicate Blank(c: Channel) {
    && c.group.parties.initiatorContact.None? && c.group.parties.targetContact.None? && c.lookups == []
    && !c.group.haveMembers
  }

  predicate SameParties(c: Channel, n: Channel) {
    && n.group.parties == c.group.parties && n.lookups == c.lookups && n.group.haveMembers == c.group.haveMembers
    && n.group.history.skipped == c.group.history.skipped && n.group.work == c.group.work
  }

  lemma BuildCovers(c: Channel)
    requires c.lookups == [] && NoneWrong(c.group.parties)
    ensures Covered(BuildContacts(c))
  {
  }

  /** A channel whose queue is about to be served. */
  predicate Serves(c: Channel) {
    && c.lookups == [] && NoneWrong(c.group.parties)
    && (c.group.queue == [] && c.group.haveMembers ==> NoStranger(c.group.parties))
    && (c.group.queue == [] && !c.group.parties.retrieveSelf && c.group.haveMembers && !c.group.history.skipped ==>
          Complete3(c.group.parties))
  }

  lemma ProcessCovers(c: Channel)
    requires Serves(c)
    ensures Covered(ProcessMembersChanged(c))
  {
    hide BuildContacts, StartDelta, ContinueIntrospection;
    if c.group.queue != [] {
      StartedParties(c);
      BuildCovers(c.(group := StartDelta(c.group)));
    } else if c.group.parties.retrieveSelf {
      BuildCovers(c.(group := c.group.(parties := c.group.parties.(retrieveSelf := false))));
    } else {
      ContinuedParties(c);
    }
  }

  lemma StartedParties(c: Channel)
    requires c.group.queue != []
    ensures StartDelta(c.group).parties == c.group.parties.(retrieveSelf := false)
  {
    hide WorkFor;
  }

  lemma ContinuedParties(c: Channel)
    ensures SameParties(c, ContinueIntrospection(c))
  {
  }

  // ---------------------------------------------------------------- the events

  lemma ContactsCover(c: Channel, reply: LookupReply)
    requires c.lookups != [] && |c.lookups| == 1 && Covered(c) && c.lookups[0] <= Built(reply)
    ensures Covered(GotContacts(c, reply))
  {
    var x := Applied(c, reply);
    var p := PartiesAfterLookup(c.group.parties, reply);
    assert x.group.parties == PartiesAfter(p, Built(reply)) && x.lookups == []
           && x.group.history.skipped == c.group.history.skipped by {
      hide AfterWork, EmissionFor, PartiesAfter, PartiesAfterLookup;
    }
    assert NoneWrong(x.group.parties) && NoStranger(x.group.parties);
    assert !c.group.history.skipped ==> Complete3(x.group.parties);
    hide ProcessMembersChanged, Applied, Covered, Complete3, NoneWrong, NoStranger, PartiesAfter, PartiesAfterLookup,
         Built;
    ProcessCovers(x);
  }

  lemma ReceivedParties(c: Channel, d: Delta, actorKnown: bool)
    requires Covered(c)
    ensures var r := c.(group := Receive(c.group, d, actorKnown));
            Covered(r) && r.lookups == c.lookups && r.group.building == c.group.building
            && (Accepts(c.group, d) ==> r.group.queue != [])
  {
  }

  lemma DeltaCovers(c: Channel, d: Delta, actorKnown: bool)
    requires Covered(c) && (c.group.building <==> c.lookups != [])
    ensures Covered(DoMembersChanged(c, d, actorKnown))
  {
    var r := c.(group := Receive(c.group, d, actorKnown));
    ReceivedParties(c, d, actorKnown);
    hide ProcessMembersChanged, Receive, Complete3, Asked;
    if Accepts(c.group, d) && !r.group.building {
      ProcessCovers(r);
    }
  }

  /** Members taken over are looked up, and the parties with them. */
  lemma MembersCover(w: Channel)
    requires w.lookups == [] && NoneWrong(w.group.parties)
    ensures Covered(ProcessMembersChanged(w.(group := HaveInitialMembers(w.group))))
    ensures Covered(ContinueIntrospection(ProcessMembersChanged(w.(group := HaveInitialMembers(w.group)))))
  {
    var h := w.(group := HaveInitialMembers(w.group));
    assert h.group.queue != [];
    hide ProcessMembersChanged, ContinueIntrospection, HaveInitialMembers;
    ProcessCovers(h);
    ContinuedParties(ProcessMembersChanged(h));
  }

  lemma MainCovers(c: Channel, props: MainProps, connectionSelf: Handle)
    requires Blank(c)
    ensures Covered(ContinueIntrospection(ExtractMainProps(c, props, connectionSelf)))
  {
    if props.Usable() {
      var c1 := WithMain(c, props);
      var c2 := FakeGroup(c1, connectionSelf);
      FakingCovers(c1, connectionSelf);
      hide FakeGroup, BuildContacts, ContinueIntrospection;
      var lone := !FakesGroup(c1) && !c2.interfaces.group && c2.group.parties.initiatorHandle != 0;
      if lone {
        assert c2 == c1 by {
          NoFaking(c1, connectionSelf);
        }
        BuildCovers(c2);
      }
      var c3 := if lone then BuildContacts(c2) else c2;
      ContinuedParties(NowHaveInterfaces(c3));
    } else {
      hide ContinueIntrospection;
      ContinuedParties(ExtractMainProps(c, props, connectionSelf));
    }
  }

  lemma NoFaking(c: Channel, connectionSelf: Handle)
    requires !FakesGroup(c)
    ensures FakeGroup(c, connectionSelf) == c
  {
  }

  lemma FakingCovers(c: Channel, connectionSelf: Handle)
    requires Blank(c)
    ensures Covered(FakeGroup(c, connectionSelf))
  {
    hide ProcessMembersChanged, HaveInitialMembers;
    MembersCover(c.(group := FakedGroup(c.group, connectionSelf)));
  }

  lemma BlankGoesOn(x: Channel)
    requires Blank(x)
    ensures Blank(ContinueIntrospection(x))
  {
    hide ContinueIntrospection;
    ContinuedParties(x);
  }

  lemma UnusableIsBlank(x: Channel, props: MainProps, self: Handle)
    requires Blank(x) && !props.Usable()
    ensures Blank(ContinueIntrospection(ExtractMainProps(x, props, self)))
  {
    hide ContinueIntrospection;
    BlankGoesOn(ExtractMainProps(x, props, self));
  }

  /** A reply in the set-up that does not tell the interfaces leaves everything to be looked up. */
  lemma SetUpIsBlank(c: Channel, e: Event)
    requires Enabled(c, e) && Blank(c) && InterfacesIn(e).None? && CallOf(e).Some? && IsSetUpCall(CallOf(e).value)
    ensures Blank(Step(c, e))
  {
    hide Blank, ContinueIntrospection, ExtractMainProps, Without;
    match e
    case Connected(self, immutable) => ConnectedIsBlank(c, self, immutable);
    case MainReply(props, self) =>
      AnswerIsBlank(c, MainProperties);
      UnusableIsBlank(Answered(c, MainProperties), props, self);
    case ConnectionFailed => AnswerIsBlank(c, ConnectionReady);
    case ChannelTypeReply(ok) =>
      AnswerIsBlank(c, FallbackChannelType);
      BlankGoesOn(Answered(c, FallbackChannelType));
    case HandleReply(target) => HandleIsBlank(c, target);
    case InterfacesReply(_, _) => AnswerIsBlank(c, FallbackInterfaces);
  }

  lemma AnswerIsBlank(c: Channel, call: Introspection)
    requires Blank(c) && c.calls != []
    ensures Blank(Answered(c, call)) && Blank(Invalidated(Answered(c, call)))
  {
  }

  lemma ConnectedIsBlank(c: Channel, self: Handle, immutable: Immutable)
    requires Blank(c) && c.calls != [] && InterfacesIn(Connected(self, immutable)).None?
    ensures Blank(GotConnection(c, self, immutable))
  {
    var parties := c.group.parties.(selfHandle := self, initiatorHandle := InitiatorIn(immutable));
    var c1 := Answered(c, ConnectionReady).(group := c.group.(parties := parties));
    hide ContinueIntrospection, ExtractMainProps;
    if immutable.Complete? {
      UnusableIsBlank(c1, immutable.props, self);
    }
  }

  lemma HandleIsBlank(c: Channel, target: Option<Target>)
    requires Blank(c) && c.calls != []
    ensures Blank(GotHandle(c, target))
  {
    hide ContinueIntrospection;
    if target.Some? {
      var t := target.value;
      var parties := c.group.parties.(targetIsContact := t.isContact, targetHandle := t.handle);
      BlankGoesOn(Answered(c, FallbackHandle).(group := c.group.(parties := parties)));
    }
  }

  lemma StaysBlank(c: Channel, e: Event)
    requires Inv(c) && Enabled(c, e) && AsksWhatItIs(c) && Blank(c) && InterfacesIn(e).None?
    ensures Blank(Step(c, e))
  {
    if CallOf(e).Some? {
      AnsweredCall(c, CallOf(e).value);
      assert Pipeline(c)[0] == CallOf(e).value;
      hide Inv, Step, Blank;
      SetUpIsBlank(c, e);
    } else {
      SignalIsBlank(c, e);
    }
  }

  lemma SignalIsBlank(c: Channel, e: Event)
    requires Enabled(c, e) && Blank(c) && CallOf(e).None?
    ensures Blank(Step(c, e))
  {
    hide ChangedFlags;
  }

  lemma BlankIsCovered(c: Channel)
    requires Blank(c)
    ensures Covered(c)
  {
  }

  lemma ReportCovers(c: Channel, e: Event)
    requires Enabled(c, e) && Blank(c) && InterfacesIn(e).Some?
    ensures Covered(Step(c, e))
  {
    hide ContinueIntrospection, ExtractMainProps, FakeGroup, Covered;
    match e
    case Connected(self, Complete(props)) =>
      var parties := c.group.parties.(selfHandle := self, initiatorHandle := InitiatorIn(Complete(props)));
      MainCovers(Answered(c, ConnectionReady).(group := c.group.(parties := parties)), props, self);
    case MainReply(props, self) => MainCovers(Answered(c, MainProperties), props, self);
    case InterfacesReply(Some(found), self) => InterfacesCover(c, found, self);
    case _ =>
  }

  lemma InterfacesCover(c: Channel, found: Interfaces, self: Handle)
    requires Blank(c) && c.calls != []
    ensures Covered(GotInterfaces(c, Some(found), self))
  {
    var c2 := NowHaveInterfaces(Answered(c, FallbackInterfaces).(interfaces := found));
    assert Blank(c2);
    hide ContinueIntrospection, FakeGroup, NowHaveInterfaces, Covered;
    FakingCovers(c2, self);
    StoredCovers(FakeGroup(c2, self), FakeGroup(c2, self));
  }

  lemma StoredCovers(c: Channel, x: Channel)
    requires Covered(c) && SameParties(c, x)
    ensures Covered(ContinueIntrospection(x))
  {
    hide ContinueIntrospection;
    ContinuedParties(x);
  }

  lemma GroupCovers(c: Channel, e: Event)
    requires Inv(c) && Enabled(c, e) && CallOf(e).Some? && !IsSetUpCall(CallOf(e).value) && Covered(c)
    ensures Covered(Step(c, e))
  {
    AnsweredCall(c, CallOf(e).value);
    assert Pipeline(c)[0] == CallOf(e).value;
    assert !e.ConferenceReply? ==> c.lookups == [];
    if e.GroupReply? {
      BeforeAnswer(c);
    }
    hide Inv, ContinueIntrospection, Covered, SetFlags, BareInfos;
    match e
    case GroupReply(props) => GroupReplyCovers(c, props);
    case SelfHandleReply(handle) => SelfHandleReplyCovers(c, handle);
    case FlagsReply(flags) => FlagsReplyCovers(c, flags);
    case MembersReply(all) => MembersReplyCovers(c, all);
    case LocalPendingReply(infos) => LocalPendingReplyCovers(c, infos);
    case ConferenceReply => StoredCovers(c, Answered(c, ConferenceProperties).(introspectingConference := false));
  }

  lemma GroupReplyCovers(c: Channel, props: GroupProps)
    requires Covered(c) && c.lookups == [] && c.calls == [GroupProperties] && c.interfaces.group
    requires c.group.usingDetailed <==> Promises(c.group.flags)
    ensures Covered(GotGroupProperties(c, props))
  {
    if props.Usable() {
      UsablePropsLead(c, props);
      hide ProcessMembersChanged, ContinueIntrospection, HaveInitialMembers, GotGroupProperties;
      MembersCover(WithProps(c, props));
    } else {
      hide Covered, ContinueIntrospection;
      StoredCovers(c, ExtractGroupProps(Answered(c, GroupProperties), props));
    }
  }

  lemma SelfHandleReplyCovers(c: Channel, handle: Option<Handle>)
    requires Covered(c) && c.lookups == [] && c.calls == [FallbackSelfHandle]
    ensures Covered(GotSelfHandle(c, handle))
  {
    SelfToldLeads(c, handle);
    hide ProcessMembersChanged, ContinueIntrospection, HaveInitialMembers, GotSelfHandle;
    MembersCover(WithSelfTold(c, handle));
  }

  lemma FlagsReplyCovers(c: Channel, flags: Option<Flags>)
    requires Covered(c) && c.calls != []
    ensures Covered(GotGroupFlags(c, flags))
  {
    hide Covered, ContinueIntrospection;
    var c1 := Answered(c, FallbackFlags);
    StoredCovers(c, c1);
    if flags.Some? {
      var g := SetFlags(c1.group, c1.interfaces.group, flags.value);
      StoredCovers(c, c1.(group := g.(flags := g.flags - {FLAG_PROPERTIES})));
    }
  }

  lemma MembersReplyCovers(c: Channel, all: Option<AllMembers>)
    requires Covered(c) && c.calls != []
    ensures Covered(GotAllMembers(c, all))
  {
    hide Covered, ContinueIntrospection, BareInfos;
    var c1 := Answered(c, FallbackMembers);
    StoredCovers(c, c1);
    if all.Some? {
      var i := Initial(all.value.members, c1.group.initial.localPending + BareInfos(all.value.localPending),
                       all.value.remotePending);
      StoredCovers(c, c1.(group := c1.group.(initial := i)));
    }
  }

  lemma LocalPendingReplyCovers(c: Channel, infos: Option<seq<LocalPendingInfo>>)
    requires Covered(c) && c.calls != []
    ensures Covered(GotLocalPending(c, infos))
  {
    hide Covered, ContinueIntrospection;
    var c1 := Answered(c, FallbackLocalPending);
    StoredCovers(c, c1);
    if infos.Some? {
      StoredCovers(c, c1.(group := c1.group.(initial := c1.group.initial.(localPending := infos.value))));
    }
  }

  lemma SignalCovers(c: Channel, e: Event)
    requires Inv(c) && Enabled(c, e) && CallOf(e).None? && Covered(c) && LooksUpEverything(c, e)
    ensures Covered(Step(c, e))
  {
    assert Lookups(c);
    hide Inv, GotContacts, DoMembersChanged, SetFlags;
    match e
    case ContactsReply(reply) => ContactsCover(c, reply);
    case MembersChanged(d, known) => DeltaCovers(c, d, known);
    case MembersChangedDetailed(d, known) => DeltaCovers(c, d, known);
    case FlagsChanged(added, removed) => FlagsCover(c, added, removed);
    case _ =>
  }

  lemma FlagsCover(c: Channel, added: Flags, removed: Flags)
    requires Covered(c)
    ensures Covered(OnGroupFlagsChanged(c, added, removed))
  {
    hide ChangedFlags;
  }

  lemma StepCovers(c: Channel, e: Event, told: bool, conference: bool)
    requires Inv(c) && Enabled(c, e) && Asks(c, told, conference) && LooksUpEverything(c, e)
    requires Covered(c) && (!told ==> Blank(c))
    ensures Covered(Step(c, e))
    ensures !told && InterfacesIn(e).None? ==> Blank(Step(c, e))
  {
    if CallOf(e).Some? && IsSetUpCall(CallOf(e).value) {
      AnsweredCall(c, CallOf(e).value);
      assert Pipeline(c)[0] == CallOf(e).value;
    }
    hide Inv, Step, Blank, Covered, Enabled, InterfacesIn;
    if !told && InterfacesIn(e).None? {
      StaysBlank(c, e);
      BlankIsCovered(Step(c, e));
    } else if InterfacesIn(e).Some? {
      ReportIsSetUp(e);
      ReportCovers(c, e);
    } else if CallOf(e).None? {
      SignalCovers(c, e);
    } else if !IsSetUpCall(CallOf(e).value) {
      GroupCovers(c, e);
    }
  }

  lemma ReportIsSetUp(e: Event)
    requires InterfacesIn(e).Some?
    ensures CallOf(e).Some? && IsSetUpCall(CallOf(e).value)
  {
  }

  // ---------------------------------------------------------------- the result

  lemma {:induction false} CoveredInTurn(run: seq<Channel>, events: seq<Event>, i: nat)
    requires IsRun(run, events) && i <= |events| && LookupsComplete(run, events, i)
    ensures Covered(run[i]) && (SelfWhenTold(events[..i]).None? ==> Blank(run[i]))
  {
    if i > 0 {
      var e, before := events[i - 1], events[..i - 1];
      hide Step, Enabled, Inv, Asks, Covered, Blank, LooksUpEverything;
      assert events[..i][..i - 1] == before;
      CoveredInTurn(run, events, i - 1);
      RunKeeps(run, events, i - 1);
      AsksInTurn(run, events, i - 1);
      StepCovers(run[i - 1], e, SelfWhenTold(before).Some?, ConferenceTold(before));
    }
  }

  /** A channel that has members and builds nothing has the contacts of its initiator and target, and
      that of its self handle unless the handle changed with no build since. */
  lemma HasItsContacts(run: seq<Channel>, events: seq<Event>, i: nat)
    requires IsRun(run, events) && i <= |events| && LookupsComplete(run, events, i)
    requires run[i].group.haveMembers && !run[i].group.building && !run[i].group.history.skipped
    ensures var p, m := run[i].group.parties, MeaningOf(events[..i]);
            && (m.initiator != 0 ==> p.initiatorContact == Some(Contact(m.initiator)))
            && (m.targetIsContact && m.target != 0 ==> p.targetContact == Some(Contact(m.target)))
            && (!p.retrieveSelf && m.self != 0 ==> p.selfContact == Some(Contact(m.self)))
  {
    CoveredInTurn(run, events, i);
    RunKeeps(run, events, i);
    KnowsWhatItWasTold(run, events, i);
    hide Step, Enabled, LooksUpEverything, KnowsMembers;
  }

  /** A channel that has members, builds nothing and has no self handle has no self contact, unless the
      handle changed with no build since. */
  lemma NoSelfContactWithoutHandle(run: seq<Channel>, events: seq<Event>, i: nat)
    requires IsRun(run, events) && i <= |events| && LookupsComplete(run, events, i)
    requires run[i].group.haveMembers && !run[i].group.building && !run[i].group.parties.retrieveSelf
    requires MeaningOf(events[..i]).self == 0
    ensures run[i].group.parties.selfContact.None?
  {
    CoveredInTurn(run, events, i);
    RunKeeps(run, events, i);
    KnowsWhatItWasTold(run, events, i);
    hide Step, Enabled, LooksUpEverything, KnowsMembers;
  }

  lemma BuildKeepsSelfContact(c: Channel)
    ensures c.group.parties.selfHandle != 0 ==> BuildContacts(c).group.parties == c.group.parties
  {
  }

  lemma ProcessKeepsSelfContact(c: Channel)
    ensures c.group.parties.selfHandle != 0 ==>
              ProcessMembersChanged(c).group.parties.selfContact == c.group.parties.selfContact
  {
    hide BuildContacts, StartDelta, ContinueIntrospection;
    if c.group.queue != [] {
      StartedParties(c);
      BuildKeepsSelfContact(c.(group := StartDelta(c.group)));
    } else if c.group.parties.retrieveSelf {
      BuildKeepsSelfContact(c.(group := c.group.(parties := c.group.parties.(retrieveSelf := false))));
    } else {
      ContinuedParties(c);
    }
  }

  /** The reply to a build gives the self handle its contact, takes it away if the service calls the
      handle invalid, and says nothing about it otherwise. */
  lemma SelfContactAfterReply(c: Channel, contacts: seq<Contact>, invalid: seq<Handle>)
    requires c.lookups != [] && c.group.parties.selfHandle != 0
    ensures var self, n := c.group.parties.selfHandle, GotContacts(c, LookupFound(contacts, invalid)).group.parties;
            n.selfContact == if self in HandlesOf(contacts) then Some(Contact(self))
                             else if self in invalid then None else c.group.parties.selfContact
  {
    var reply := LookupFound(contacts, invalid);
    var x := Applied(c, reply);
    assert x.group.parties == PartiesAfter(PartiesAfterLookup(c.group.parties, reply), Built(reply)) by {
      hide AfterWork, EmissionFor, PartiesAfter, PartiesAfterLookup;
    }
    assert GotContacts(c, reply) == ProcessMembersChanged(x);
    hide ProcessMembersChanged, Applied, GotContacts;
    ProcessKeepsSelfContact(x);
  }

  lemma LoneInitiator(c: Channel, props: MainProps, connectionSelf: Handle)
    requires props.Usable() && Blank(c) && c.group.work == NO_WORK
    requires !props.interfaces.value.group && !props.targetIsContact.value
    ensures var p := PartiesIn(c.group.parties, props);
            var n := ContinueIntrospection(ExtractMainProps(c, props, connectionSelf));
            n.lookups == if p.initiatorHandle == 0 then [] else [{p.initiatorHandle} + IfNonZero(p.selfHandle)]
  {
    var c1 := WithMain(c, props);
    var p := c1.group.parties;
    NoFaking(c1, connectionSelf);
    hide ContinueIntrospection;
    if p.initiatorHandle != 0 {
      assert ToBuild(NO_WORK, p) == {p.initiatorHandle} + IfNonZero(p.selfHandle);
    }
    ContinuedParties(ExtractMainProps(c, props, connectionSelf));
  }

  /** The main properties of a channel with neither group nor a contact as its target make it look up
      the initiator, and its own side with it. */
  lemma LooksUpLoneInitiator(c: Channel, e: Event, m: Meaning)
    requires Inv(c) && Enabled(c, e) && Knows(c, m) && Blank(c) && InterfacesIn(e).Some? && !e.InterfacesReply?
    requires !After(m, e).interfaces.group && !After(m, e).targetIsContact
    ensures After(m, e).initiator != 0 ==>
              Step(c, e).lookups == [{After(m, e).initiator} + IfNonZero(After(m, e).self)]
    ensures After(m, e).initiator == 0 ==> Step(c, e).lookups == []
  {
    AnsweredCall(c, CallOf(e).value);
    assert Pipeline(c)[0] == CallOf(e).value;
    assert Untouched(c.group);
    hide Inv, KnowsMembers, Sides, ContinueIntrospection, ExtractMainProps;
    NoSides(m, e);
    match e
    case Connected(self, Complete(props)) =>
      var parties := c.group.parties.(selfHandle := self, initiatorHandle := InitiatorIn(Complete(props)));
      LoneInitiator(Answered(c, ConnectionReady).(group := c.group.(parties := parties)), props, self);
    case MainReply(props, self) => LoneInitiator(Answered(c, MainProperties), props, self);
    case _ =>
  }

  lemma NoSides(m: Meaning, e: Event)
    requires InterfacesIn(e).Some? && !e.InterfacesReply?
    requires !After(m, e).interfaces.group && !After(m, e).targetIsContact
    ensures var props := if e.Connected? then e.immutable.props else e.props;
            && After(m, e).initiator == (if props.initiatorHandle.Some? then props.initiatorHandle.value
                                         else if e.Connected? then 0 else m.initiator)
            && After(m, e).self == (if e.Connected? then e.self else m.self)
            && !props.targetIsContact.value && !props.interfaces.value.group
  {
  }
}
