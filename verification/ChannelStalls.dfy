/**
 Channels without a self handle: exactly which events leave a delta unapplied, or the channel waiting
 for nothing yet not ready.
 */
module ChannelStalls {
  import opened Handles
  import opened GroupDelta
  import opened GroupReplica
  import opened ChannelMachine
  import opened ChannelInvariants
  import opened ChannelReadiness

  /** A delta is waiting or half taken up, and no reply will move it on. */
  predicate IsStalled(c: Channel) {
    !c.group.building && (c.group.queue != [] || c.group.work.current.Some?)
  }

  /** Neither ready nor invalid, and no reply is awaited. */
  predicate IsStuck(c: Channel) {
    c.valid && !c.ready && c.calls == [] && c.lookups == []
  }

  /** A delta, on top of what is being worked on, gives a build nothing to look up. */
  predicate NeedsNobody(g: Group, d: Delta) {
    && AddedFrom(d.added, g.maps.members.Keys) == {} && g.work.addingMembers == {}
    && AddedFrom(d.localPending, g.maps.localPending.Keys) == {} && g.work.addingLocal == {}
    && AddedFrom(d.remotePending, g.maps.remotePending.Keys) == {} && g.work.addingRemote == {}
    && d.details.Actor() == 0 && NoPartyMissing(g.parties)
  }

  /** There is no self handle, and no initiator or target to look up. */
  predicate NoPartyMissing(p: Parties) {
    p.selfHandle == 0 && MissingInitiator(p) == 0 && MissingTarget(p) == 0
  }

  lemma NeedsNobodyIff(g: Group, d: Delta)
    ensures NeedsNobody(g, d) <==> NothingToBuild(WorkFor(g.work, g.maps, d), g.parties)
  {
    assert forall a: set<Handle>, b: set<Handle> :: a + b == {} <==> a == {} && b == {};
  }

  /** Taking up a delta starts a build exactly if the delta needs somebody. */
  lemma ServingBuildsIff(c: Channel)
    requires c.group.queue != [] && !c.group.building && c.lookups == []
    ensures var n := ProcessMembersChanged(c);
            && n.group.queue == c.group.queue[1..] && n.group.work.current.Some? && !n.group.parties.retrieveSelf
            && (n.group.building <==> !NeedsNobody(c.group, c.group.queue[0]))
            && (n.group.building <==> n.lookups != [])
            && n == c.(lookups := n.lookups, group := n.group)
  {
    hide WorkFor, NeedsNobody;
    NeedsNobodyIff(c.group, c.group.queue[0]);
    WorkForHasDelta(c.group.work, c.group.maps, c.group.queue[0]);
  }

  /** Serving the queue stalls exactly if there is a delta at its head and it needs nobody. */
  lemma ProcessStallsIff(c: Channel)
    requires !c.group.building && c.lookups == [] && (c.group.queue != [] || c.group.work.current.None?)
    ensures IsStalled(ProcessMembersChanged(c)) <==> c.group.queue != [] && NeedsNobody(c.group, c.group.queue[0])
  {
    if c.group.queue != [] {
      hide ProcessMembersChanged, NeedsNobody;
      ServingBuildsIff(c);
    } else {
      hide WorkFor, StartDelta, NeedsNobody, ToBuild, NothingToBuild;
    }
  }

  /** Exactly when an incoming delta leaves some delta stalled: no build is in flight, and the one
      that has waited longest needs nobody. */
  lemma DeltaStallsIff(c: Channel, d: Delta, actorKnown: bool)
    requires Inv(c) && Accepts(c.group, d)
    ensures IsStalled(DoMembersChanged(c, d, actorKnown))
            <==> !c.group.building && NeedsNobody(c.group, (c.group.queue + [d])[0])
  {
    hide ProcessMembersChanged;
    var r := c.(group := Receive(c.group, d, actorKnown));
    assert r.group.queue == c.group.queue + [d];
    if !c.group.building {
      ProcessStallsIff(r);
    }
  }

  /** Exactly when the reply to a contact build leaves a delta stalled: one is waiting, and the first
      of them needs nobody in the group as it is now. */
  lemma ContactsStallIff(c: Channel, reply: LookupReply)
    requires Inv(c) && c.lookups != []
    ensures var g := Applied(c, reply).group;
            IsStalled(GotContacts(c, reply)) <==> g.queue != [] && NeedsNobody(g, g.queue[0])
  {
    hide ProcessMembersChanged, AfterWork, EmissionFor, PartiesAfter;
    ProcessStallsIff(Applied(c, reply));
  }

  /** The group when its initial members have arrived. */
  predicate AboutToHaveMembers(c: Channel) {
    && Steady(c) && GroupInv(c.group)
    && c.calls == [] && IsLate(c.introspectQueue) && !c.group.haveMembers && !c.group.building
  }

  /** Exactly when a group's initial members leave a delta waiting that nothing moves on: the first
      one needs nobody, and there are local pending members behind it.  The channel is then stuck at
      once, unless the conference properties are still to be asked for. */
  lemma InitialMembersStallIff(c: Channel)
    requires AboutToHaveMembers(c)
    ensures var n := ContinueIntrospection(NowHaveInitialMembers(c));
            && (n.group.queue != [] && !n.group.building <==> InitialMembersStall(c.group))
            && (IsStuck(n) <==>
                c.valid && c.introspectQueue == [] && c.completions == 0 && InitialMembersStall(c.group))
  {
    var h := c.(group := HaveInitialMembers(c.group));
    FirstNeedsNobodyIff(c.group);
    assert h.group.queue == InitialDeltas(c.group.initial) && c.lookups == [];
    assert h.group.queue[1..] == LocalDeltas(c.group.initial.localPending);
    assert Pipeline(c) == c.introspectQueue;
    hide ProcessMembersChanged, NeedsNobody, NoPartyMissing, InitialDeltas, LocalDelta, GroupInv;
    ServingBuildsIff(h);
  }

  lemma FirstNeedsNobodyIff(g: Group)
    requires GroupInv(g) && !g.haveMembers && !g.building
    ensures g.queue == []
    ensures NeedsNobody(HaveInitialMembers(g), InitialDeltas(g.initial)[0])
            <==> g.initial.members == [] && g.initial.remotePending == [] && NoPartyMissing(g.parties)
  {
    var i := g.initial;
    var d := InitialDeltas(i)[0];
    assert i.members != [] ==> i.members[0] in AddedFrom(d.added, {});
    assert i.remotePending != [] ==> i.remotePending[0] in AddedFrom(d.remotePending, {});
    assert AddedFrom(d.localPending, {}) == {};
  }

  predicate InitialMembersStall(g: Group) {
    && g.initial.localPending != [] && g.initial.members == [] && g.initial.remotePending == []
    && NoPartyMissing(g.parties)
  }

  /** The reply to a contact build leaves the channel stuck: the next delta needs nobody, or the self
      contact is to be retrieved without a self handle. */
  predicate ContactsGetStuck(c: Channel, reply: LookupReply)
    requires c.lookups != []
  {
    var g := Applied(c, reply).group;
    && c.calls == [] && !c.ready
    && (if g.queue != [] then NeedsNobody(g, g.queue[0]) else g.parties.retrieveSelf && NoPartyMissing(g.parties))
  }

  /** Initial members stall, and there is no conference to ask about. */
  predicate GroupReplyGetsStuck(c: Channel, props: GroupProps) {
    props.Usable() && c.introspectQueue == [] && InitialMembersStall(GroupWith(c.group, props))
  }

  predicate SelfHandleGetsStuck(c: Channel, reply: Option<Handle>) {
    InitialMembersStall(if reply.Some? then c.group.(parties := WithSelf(c.group.parties, reply.value)) else c.group)
  }

  /** The events that leave a channel stuck; the conference's reply does it behind members that
      stalled before. */
  predicate GetsStuck(c: Channel, e: Event)
    requires Enabled(c, e)
  {
    match e
    case ContactsReply(reply) => ContactsGetStuck(c, reply)
    case GroupReply(props) => GroupReplyGetsStuck(c, props)
    case SelfHandleReply(handle) => SelfHandleGetsStuck(c, handle)
    case ConferenceReply => c.introspectQueue == [] && !c.group.building && c.group.queue != []
    case _ => false
  }

  /** From any reachable state, exactly these events leave a valid channel stuck. */
  lemma GetsStuckIff(c: Channel, e: Event)
    requires Inv(c) && Enabled(c, e) && c.valid && !IsStuck(c)
    ensures IsStuck(Step(c, e)) <==> GetsStuck(c, e)
  {
    if CallOf(e).Some? {
      AnsweredCall(c, CallOf(e).value);
    }
    hide Inv, GotConnection, GotMainProperties, GotInterfaces, GotGroupProperties, GotSelfHandle, GotContacts,
         DoMembersChanged, GotConferenceProperties, ContactsGetStuck, GroupReplyGetsStuck, SelfHandleGetsStuck, IsStuck;
    match e
    case ContactsReply(reply) => ContactsGetStuckIff(c, reply);
    case GroupReply(props) => GroupReplyGetsStuckIff(c, props);
    case SelfHandleReply(handle) => SelfHandleGetsStuckIff(c, handle);
    case ConferenceReply => ConferenceGetsStuckIff(c);
    case Connected(self, immutable) => ConnectedGoesOn(c, self, immutable);
    case MainReply(props, connectionSelf) => MainReplyGoesOn(c, props, connectionSelf);
    case InterfacesReply(found, connectionSelf) => InterfacesReplyGoesOn(c, found, connectionSelf);
    case MembersChanged(d, known) => DeltaGoesOn(c, d, known);
    case MembersChangedDetailed(d, known) => DeltaGoesOn(c, d, known);
    case _ => SmallStepsGoOn(c, e);
  }

  lemma ContactsGetStuckIff(c: Channel, reply: LookupReply)
    requires Inv(c) && c.lookups != [] && c.valid
    ensures IsStuck(GotContacts(c, reply)) <==> ContactsGetStuck(c, reply)
  {
    BuildFacts(c);
    hide Inv, AfterWork, EmissionFor, PartiesAfter, NeedsNobody, ProcessMembersChanged, PartiesAfterLookup;
    var x := Applied(c, reply);
    assert x.lookups == [] && x.group.work == NO_WORK && !x.group.building;
    hide FinishDelta, GroupAfterLookup;
    ServingGetsStuckIff(x);
  }

  lemma BuildFacts(c: Channel)
    requires Inv(c) && c.lookups != [] && c.valid
    ensures |c.lookups| == 1
    ensures c.calls == [] ==> c.introspectQueue == [] && !c.introspectingConference
  {
    hide GroupInv, FlagsAgree, Readiness;
  }

  lemma ServingGetsStuckIff(c: Channel)
    requires c.lookups == [] && c.group.work == NO_WORK && !c.group.building && c.valid
    requires c.calls == [] ==> c.introspectQueue == [] && !c.introspectingConference
    ensures IsStuck(ProcessMembersChanged(c))
            <==>
            && c.calls == [] && !c.ready
            && (if c.group.queue != [] then NeedsNobody(c.group, c.group.queue[0])
                else c.group.parties.retrieveSelf && NoPartyMissing(c.group.parties))
  {
    hide NeedsNobody;
    if c.group.queue != [] {
      hide ProcessMembersChanged;
      ServingBuildsIff(c);
    } else {
      hide WorkFor, StartDelta, ToBuild;
    }
  }

  lemma GroupReplyGetsStuckIff(c: Channel, props: GroupProps)
    requires Inv(c) && GroupProperties in c.calls && c.valid
    ensures IsStuck(GotGroupProperties(c, props)) <==> GroupReplyGetsStuck(c, props)
  {
    AnsweredCall(c, GroupProperties);
    hide Inv, NowHaveInitialMembers, InitialMembersStall, AboutToHaveMembers;
    if props.Usable() {
      hide ContinueIntrospection, GotGroupProperties;
      var c2 := WithAnswer(c, props);
      AnswerIsExpected(c, props);
      AnswerTaken(c, props);
      StallIgnoresFlags(c2.group, GroupWith(c.group, props));
      InitialMembersStallIff(c2);
    }
  }

  function WithAnswer(c: Channel, props: GroupProps): Channel
    requires props.Usable() && c.calls != []
  {
    var flags := props.flags.value;
    Answered(c, GroupProperties).(group := GroupWith(c.group, props).(
      flags := flags, usingDetailed := FLAG_MEMBERS_CHANGED_DETAILED in flags))
  }

  lemma AnswerTaken(c: Channel, props: GroupProps)
    requires c.calls != [] && props.Usable() && c.interfaces.group
    requires c.group.usingDetailed <==> FLAG_MEMBERS_CHANGED_DETAILED in c.group.flags
    ensures GotGroupProperties(c, props) == ContinueIntrospection(NowHaveInitialMembers(WithAnswer(c, props)))
  {
    hide NowHaveInitialMembers, ContinueIntrospection;
    SetFlagsAgrees(c.group, props.flags.value);
  }

  lemma AnswerIsExpected(c: Channel, props: GroupProps)
    requires Inv(c) && GroupProperties in c.calls && props.Usable()
    ensures c.interfaces.group && (c.group.usingDetailed <==> FLAG_MEMBERS_CHANGED_DETAILED in c.group.flags)
    ensures var n := WithAnswer(c, props);
            && AboutToHaveMembers(n) && n.completions == 0
            && n.introspectQueue == c.introspectQueue && n.valid == c.valid
  {
    AwaitsAnswer(c);
    hide Inv, WithSelf, Busy;
    var n := WithAnswer(c, props);
    assert Pipeline(n) == c.introspectQueue;
    assert n.group.history.accepted == n.group.history.applied + Unapplied(n.group);
  }

  /** What is known of a channel that awaits its group properties. */
  lemma AwaitsAnswer(c: Channel)
    requires Inv(c) && GroupProperties in c.calls
    ensures Answered(c, GroupProperties).calls == [] && IsLate(c.introspectQueue) && c.interfaces.group
    ensures c.group.usingDetailed <==> FLAG_MEMBERS_CHANGED_DETAILED in c.group.flags
    ensures !c.group.haveMembers && !c.group.building && c.lookups == [] && Untouched(c.group)
    ensures !c.ready && c.completions == 0 && (c.valid ==> c.reports == 0)
  {
    AnsweredCall(c, GroupProperties);
  }

  function GroupWith(g: Group, props: GroupProps): Group
    requires props.Usable()
  {
    g.(initial := Initial(props.members.value, props.localPending.value, props.remotePending.value),
       parties := WithSelf(g.parties, props.selfHandle.value))
  }

  lemma StallIgnoresFlags(a: Group, b: Group)
    requires a.initial == b.initial && a.parties == b.parties
    ensures InitialMembersStall(a) == InitialMembersStall(b)
  {
  }

  lemma SelfHandleGetsStuckIff(c: Channel, reply: Option<Handle>)
    requires Inv(c) && FallbackSelfHandle in c.calls && c.valid
    ensures IsStuck(GotSelfHandle(c, reply)) <==> SelfHandleGetsStuck(c, reply)
  {
    AnsweredCall(c, FallbackSelfHandle);
    var c1 := Answered(c, FallbackSelfHandle);
    var c2 := if reply.Some? then c1.(group := c1.group.(parties := WithSelf(c1.group.parties, reply.value))) else c1;
    assert Pipeline(c2) == [];
    hide NowHaveInitialMembers, InitialMembersStall, ContinueIntrospection;
    InitialMembersStallIff(c2);
  }

  lemma ConferenceGetsStuckIff(c: Channel)
    requires Inv(c) && ConferenceProperties in c.calls && c.valid
    ensures IsStuck(GotConferenceProperties(c))
            <==> c.introspectQueue == [] && !c.group.building && c.group.queue != []
  {
    AnsweredCall(c, ConferenceProperties);
  }

  /** Going on makes a call or completes, unless something in the group holds completion up. */
  lemma GoingOnIsNotStuck(c: Channel)
    requires c.lookups != [] || c.introspectQueue != []
             || (c.group.queue == [] && !c.group.building && !c.introspectingConference)
    ensures !IsStuck(ContinueIntrospection(c))
  {
  }

  lemma FakingBuilds(c: Channel, connectionSelf: Handle)
    requires c.lookups == [] && !c.group.building && c.group.queue == []
    ensures FakeGroup(c, connectionSelf).lookups != [] || FakeGroup(c, connectionSelf) == c
  {
    var g := HaveInitialMembers(FakedGroup(c.group, connectionSelf));
    if FakesGroup(c) && connectionSelf != 0 && c.group.parties.targetHandle != 0 {
      hide ProcessMembersChanged;
      ServingBuildsIff(c.(group := g));
    }
  }

  lemma MainPropsGoOn(c: Channel, props: MainProps, connectionSelf: Handle)
    requires Blank(c)
    ensures !IsStuck(ContinueIntrospection(ExtractMainProps(c, props, connectionSelf)))
  {
    var x := ExtractMainProps(c, props, connectionSelf);
    if props.Usable() {
      var c1 := c.(interfaces := props.interfaces.value,
                   group := c.group.(parties := PartiesIn(c.group.parties, props)));
      FakingBuilds(c1, connectionSelf);
      hide FakeGroup, NothingToBuild, ToBuild;
    }
    GoingOnIsNotStuck(x);
  }

  lemma ConnectedGoesOn(c: Channel, self: Handle, immutable: Immutable)
    requires Inv(c) && ConnectionReady in c.calls
    ensures !IsStuck(GotConnection(c, self, immutable))
  {
    AnsweredCall(c, ConnectionReady);
    var parties := c.group.parties.(selfHandle := self, initiatorHandle := InitiatorIn(immutable));
    var c1 := Answered(c, ConnectionReady).(group := c.group.(parties := parties));
    assert Pipeline(c1) == [];
    hide ExtractMainProps, ContinueIntrospection;
    match immutable
    case Complete(props) => MainPropsGoOn(c1, props, self);
    case Partial(_) =>
  }

  lemma MainReplyGoesOn(c: Channel, props: MainProps, connectionSelf: Handle)
    requires Inv(c) && MainProperties in c.calls
    ensures !IsStuck(GotMainProperties(c, props, connectionSelf))
  {
    AnsweredCall(c, MainProperties);
    var c1 := Answered(c, MainProperties);
    assert Pipeline(c1) == [];
    hide ExtractMainProps, ContinueIntrospection;
    MainPropsGoOn(c1, props, connectionSelf);
  }

  lemma InterfacesReplyGoesOn(c: Channel, found: Option<Interfaces>, connectionSelf: Handle)
    requires Inv(c) && FallbackInterfaces in c.calls
    ensures !IsStuck(GotInterfaces(c, found, connectionSelf))
  {
    AnsweredCall(c, FallbackInterfaces);
    if found.Some? {
      var c2 := NowHaveInterfaces(Answered(c, FallbackInterfaces).(interfaces := found.value));
      FakingBuilds(c2, connectionSelf);
      hide FakeGroup;
      GoingOnIsNotStuck(FakeGroup(c2, connectionSelf));
    }
  }

  lemma DeltaGoesOn(c: Channel, d: Delta, actorKnown: bool)
    requires Inv(c) && !IsStuck(c)
    ensures !IsStuck(DoMembersChanged(c, d, actorKnown))
  {
    hide BuildContacts, StartDelta;
    BuildsAdd();
  }

  lemma BuildsAdd()
    ensures forall x: Channel :: var b := BuildContacts(x);
              b.calls == x.calls && b.valid == x.valid && b.ready == x.ready && x.lookups <= b.lookups
  {
  }

  /** A reply in the middle of the fallback leads to the next call. */
  lemma MoreToAsk(c: Channel, call: Introspection)
    requires Chain(c) && call in c.calls
    requires call.FallbackChannelType? || call.FallbackHandle? || call.FallbackFlags? || call.FallbackMembers?
             || call.FallbackLocalPending?
    ensures c.introspectQueue != []
  {
    AnsweredCall(c, call);
  }

  lemma StoredRepliesGoOn(c: Channel)
    requires c.calls != [] && c.introspectQueue != []
    ensures forall ok :: !IsStuck(GotChannelType(c, ok))
    ensures forall target :: !IsStuck(GotHandle(c, target))
    ensures forall flags :: !IsStuck(GotGroupFlags(c, flags))
    ensures forall all :: !IsStuck(GotAllMembers(c, all))
    ensures forall infos :: !IsStuck(GotLocalPending(c, infos))
  {
    hide SetFlags, Without, BareInfos;
  }

  lemma SmallStepsGoOn(c: Channel, e: Event)
    requires Inv(c) && Enabled(c, e) && !IsStuck(c)
    requires e.ConnectionFailed? || e.ChannelTypeReply? || e.HandleReply? || e.FlagsReply? || e.MembersReply?
             || e.LocalPendingReply? || e.FlagsChanged? || e.SelfChanged? || e.Closed?
    ensures !IsStuck(Step(c, e))
  {
    assert Chain(c);
    hide Inv, Chain, GotChannelType, GotHandle, GotGroupFlags, GotAllMembers, GotLocalPending, SetFlags, ChangedFlags,
         Without;
    if CallOf(e).Some? && !e.ConnectionFailed? {
      MoreToAsk(c, CallOf(e).value);
      StoredRepliesGoOn(c);
    }
  }
}
