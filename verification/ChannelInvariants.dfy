/** What every event keeps: queue discipline, readiness safety and progress of a channel. */
module ChannelInvariants {
  import opened Handles
  import opened GroupDelta
  import opened GroupReplica
  import opened ChannelMachine

  // ---------------------------------------------------------------- the group's invariant

  predicate NothingBeingAdded(w: Work) {
    w.addingMembers == {} && w.addingLocal == {} && w.addingRemote == {}
  }

  /** The work is what applying its delta asks for; without a delta there is none. */
  predicate Matches(w: Work, m: Maps) {
    w == if w.current.Some? then WorkFor(NO_WORK, m, w.current.value) else NO_WORK
  }

  predicate Untouched(g: Group) {
    && g.work == NO_WORK && g.queue == [] && g.maps == NO_MAPS
    && g.history.accepted == [] && g.history.applied == []
  }

  /** Every accepted delta is applied already, being applied, or waiting, in arrival order. */
  predicate InOrder(g: Group) {
    g.history.accepted == g.history.applied + Unapplied(g)
  }

  /** Neither a delta nor a build is in progress. */
  predicate Idle(g: Group) {
    && !g.building
    && NothingBeingAdded(g.work)
    && (!g.haveMembers ==> Untouched(g))
    && (!g.history.skipped ==> g.work == NO_WORK && InOrder(g))
  }

  /** A build is in progress, for the current delta or only for the self contact and the like. */
  predicate Busy(g: Group) {
    && g.building
    && (!g.haveMembers ==> Untouched(g))
    && (!g.history.skipped ==> Matches(g.work, g.maps) && InOrder(g))
  }

  /** Between events a waiting delta implies a build in flight, unless a build was skipped. */
  predicate GroupInv(g: Group) {
    Busy(g) || (Idle(g) && (!g.history.skipped ==> g.queue == []))
  }

  /** A group about to ask for contacts. */
  predicate Prepared(g: Group) {
    Busy(g.(building := true))
  }

  lemma StartKeeps(g: Group)
    requires Idle(g) && g.queue != []
    ensures Prepared(StartDelta(g))
  {
    var s := StartDelta(g);
    if !g.history.skipped {
      assert s.work == WorkFor(NO_WORK, g.maps, g.queue[0]);
      assert Unapplied(s) == Unapplied(g);
    }
  }

  lemma RequestKeeps(g: Group)
    requires Prepared(g) && (g.history.skipped || g.work.current.Some? || g.queue == [])
    ensures GroupInv(AfterBuildRequest(g))
    ensures AfterBuildRequest(g).building || (AfterBuildRequest(g).history.skipped)
  {
  }

  lemma FinishKeeps(g: Group, built: set<Handle>, isReady: bool)
    requires Busy(g)
    ensures Idle(FinishDelta(g.(building := false), built, isReady))
  {
    var f := FinishDelta(g.(building := false), built, isReady);
    if !g.haveMembers {
      assert UpdatedInfo(g.maps.info, g.work, built) == map[];
      assert f.maps == NO_MAPS;
    }
    if !g.history.skipped {
      assert g.history.applied + Unapplied(g) == f.history.applied + Unapplied(f);
    }
  }

  lemma ReceiveKeeps(g: Group, d: Delta, actorKnown: bool)
    requires GroupInv(g)
    ensures var r := Receive(g, d, actorKnown);
            && (Busy(g) ==> Busy(r))
            && (Idle(g) ==> Idle(r))
            && (!Accepts(g, d) ==> GroupInv(r))
            && (Accepts(g, d) ==> r.queue == g.queue + [d])
  {
    if Accepts(g, d) {
      assert g.history.applied + Unapplied(g) + [d] == g.history.applied + (Unapplied(g) + [d]);
    }
  }

  lemma InitialKeeps(g: Group)
    requires Idle(g) && !g.haveMembers
    ensures Idle(HaveInitialMembers(g)) && HaveInitialMembers(g).queue != []
  {
  }

  // ---------------------------------------------------------------- the channel's invariant

  /** Calls awaiting a reply followed by calls still to be made. */
  function Pipeline(c: Channel): seq<Introspection> {
    c.calls + c.introspectQueue
  }

  predicate IsSettingUp(p: seq<Introspection>) {
    || p == [ConnectionReady] || p == [MainProperties]
    || p == [FallbackChannelType, FallbackHandle, FallbackInterfaces]
    || p == [FallbackHandle, FallbackInterfaces] || p == [FallbackInterfaces]
  }

  predicate IsAskingGroup(p: seq<Introspection>) {
    || p == [GroupProperties] || p == [GroupProperties, ConferenceProperties]
    || p == [ConferenceProperties, FallbackFlags, FallbackMembers, FallbackLocalPending, FallbackSelfHandle]
    || p == [FallbackFlags, FallbackMembers, FallbackLocalPending, FallbackSelfHandle]
    || p == [FallbackMembers, FallbackLocalPending, FallbackSelfHandle]
    || p == [FallbackLocalPending, FallbackSelfHandle] || p == [FallbackSelfHandle]
  }

  predicate IsLate(p: seq<Introspection>) {
    p == [] || p == [ConferenceProperties]
  }

  /** Introspection makes one call at a time, in one of the orders the code can produce, and no
      contact is asked for before the group's members are known. */
  predicate Chain(c: Channel) {
    && |c.calls| <= 1
    && (IsSettingUp(Pipeline(c)) || IsAskingGroup(Pipeline(c)) || IsLate(Pipeline(c)))
    && (c.group.haveMembers || c.group.building ==> IsLate(Pipeline(c)))
    && (IsAskingGroup(Pipeline(c)) || c.listening ==> c.interfaces.group)
    && (IsSettingUp(Pipeline(c)) ==> !c.listening)
    && (c.introspectingConference <==> ConferenceProperties in c.calls)
    && (Pipeline(c) == [ConnectionReady] ==> c.group.parties.selfHandle == 0)
  }

  /** The detailed signal is listened to exactly when the group flags promise it; before the
      interfaces are known there are no flags, and no build was skipped. */
  predicate FlagsAgree(c: Channel) {
    && (c.group.usingDetailed <==> FLAG_MEMBERS_CHANGED_DETAILED in c.group.flags)
    && (c.group.flags != {} ==> c.interfaces.group)
    && (IsSettingUp(Pipeline(c)) ==> c.group.flags == {} && !c.group.history.skipped)
  }

  /** At most one contact build is in flight, and it covers every handle being added. */
  predicate Lookups(c: Channel) {
    && |c.lookups| <= 1
    && (c.group.building <==> c.lookups != [])
    && (c.group.building ==>
          c.group.work.addingMembers + c.group.work.addingLocal + c.group.work.addingRemote <= c.lookups[0])
  }

  /** FeatureCore completed at most once, at the end of introspection; a valid channel reported
      nothing beyond that. */
  predicate Readiness(c: Channel) {
    && c.completions <= 1
    && (c.ready ==> c.valid && c.completions == 1)
    && (c.completions == 1 ==> Pipeline(c) == [])
    && (c.valid && !c.ready ==> c.completions == 0)
    && (c.valid ==> c.reports == c.completions)
  }

  predicate Alive(c: Channel) {
    && (c.valid && c.calls == [] ==> c.introspectQueue == [])
    && (c.valid && !c.ready && !c.group.history.skipped ==> c.calls != [] || c.lookups != [])
  }

  predicate Steady(c: Channel) {
    Chain(c) && FlagsAgree(c) && Lookups(c) && Readiness(c)
  }

  predicate Inv(c: Channel) {
    Steady(c) && GroupInv(c.group) && Alive(c)
  }

  lemma ContinueKeeps(c: Channel)
    requires Steady(c) && GroupInv(c.group)
    requires c.calls == []
    ensures Inv(ContinueIntrospection(c))
  {
    var n := ContinueIntrospection(c);
    if c.introspectQueue != [] {
      assert Pipeline(n) == Pipeline(c) && Pipeline(c)[0] == c.introspectQueue[0];
    }
  }

  lemma BuildKeeps(c: Channel)
    requires Steady(c) && Prepared(c.group) && c.lookups == []
    requires c.group.history.skipped || c.group.work.current.Some? || c.group.queue == []
    requires IsLate(Pipeline(c))
    ensures var b := BuildContacts(c);
            && Steady(b) && GroupInv(b.group)
            && (b.lookups != [] || b.group.history.skipped)
            && b.calls == c.calls && b.introspectQueue == c.introspectQueue && b.valid == c.valid
  {
    RequestKeeps(c.group);
  }

  /** What serving the queue leaves: the invariant, and a build if nothing else is awaited. */
  predicate ServedFrom(c: Channel, n: Channel) {
    && Steady(n) && GroupInv(n.group)
    && n.calls == c.calls && n.introspectQueue == c.introspectQueue && n.valid == c.valid
    && (n.valid && !n.ready && !n.group.history.skipped && Pipeline(n) == [] ==> n.lookups != [])
  }

  lemma ProcessKeeps(c: Channel)
    requires Steady(c) && Idle(c.group) && IsLate(Pipeline(c))
    ensures ServedFrom(c, ProcessMembersChanged(c))
  {
    if c.group.queue != [] {
      StartsBuild(c);
    } else if c.group.parties.retrieveSelf {
      RetrievesSelf(c);
    } else {
      hide StartDelta, BuildContacts, WorkFor;
      SettleKeeps(c);
    }
  }

  lemma StartsBuild(c: Channel)
    requires Steady(c) && Idle(c.group) && IsLate(Pipeline(c)) && c.group.queue != []
    ensures ServedFrom(c, ProcessMembersChanged(c))
  {
    hide StartDelta, BuildContacts, ContinueIntrospection, WorkFor;
    StartKeeps(c.group);
    StartFrame(c.group);
    BuildKeeps(c.(group := StartDelta(c.group)));
  }

  lemma RetrievesSelf(c: Channel)
    requires Steady(c) && Idle(c.group) && IsLate(Pipeline(c)) && c.group.queue == [] && c.group.parties.retrieveSelf
    ensures ServedFrom(c, ProcessMembersChanged(c))
  {
    hide StartDelta, BuildContacts, ContinueIntrospection, WorkFor;
    BuildKeeps(c.(group := c.group.(parties := c.group.parties.(retrieveSelf := false))));
  }

  /** With nothing queued and nothing to retrieve, introspection goes on or is over. */
  lemma SettleKeeps(c: Channel)
    requires Steady(c) && Idle(c.group) && IsLate(Pipeline(c))
    requires c.group.queue == [] && !c.group.parties.retrieveSelf
    ensures var n := ProcessMembersChanged(c);
            && n == c.(ready := n.ready, reports := n.reports, completions := n.completions, group := n.group)
            && n.group == c.group.(history := n.group.history)
            && n.group.history == c.group.history.(emitted := n.group.history.emitted,
                                                   snapshot := n.group.history.snapshot)
            && Readiness(n)
            && (n.valid && !n.ready ==> Pipeline(n) != [])
  {
    var n := ProcessMembersChanged(c);
    assert Pipeline(n) == Pipeline(c);
    if c.introspectQueue == [] && c.calls != [] {
      assert Pipeline(c) == c.calls;
    }
  }

  lemma StartFrame(g: Group)
    requires g.queue != []
    ensures var s := StartDelta(g);
            && s.work.current.Some? && s.building == g.building && s.haveMembers == g.haveMembers
            && s.flags == g.flags && s.usingDetailed == g.usingDetailed && s.history == g.history
  {
    hide WorkFor;
    assert WorkFor(g.work, g.maps, g.queue[0]).current.Some? by {
      WorkForHasDelta(g.work, g.maps, g.queue[0]);
    }
  }

  lemma WorkForHasDelta(w: Work, m: Maps, d: Delta)
    ensures WorkFor(w, m, d).current == Some(d)
  {
  }

  lemma AnsweredCall(c: Channel, call: Introspection)
    requires Chain(c) && call in c.calls
    ensures c.calls == [call] && Answered(c, call).calls == []
    ensures Pipeline(Answered(c, call)) == c.introspectQueue
    ensures Pipeline(c) == [call] + c.introspectQueue
    ensures call.ConnectionReady? || call.MainProperties? ==> c.introspectQueue == []
    ensures call.FallbackChannelType? ==> c.introspectQueue == [FallbackHandle, FallbackInterfaces]
    ensures call.FallbackHandle? ==> c.introspectQueue == [FallbackInterfaces]
    ensures call.FallbackInterfaces? || call.FallbackSelfHandle? ==> c.introspectQueue == []
    ensures call.GroupProperties? ==> IsLate(c.introspectQueue)
    ensures call.FallbackFlags? ==> c.introspectQueue == [FallbackMembers, FallbackLocalPending, FallbackSelfHandle]
    ensures call.FallbackMembers? ==> c.introspectQueue == [FallbackLocalPending, FallbackSelfHandle]
    ensures call.FallbackLocalPending? ==> c.introspectQueue == [FallbackSelfHandle]
    ensures call.ConferenceProperties? ==>
              (c.introspectQueue == []
               || c.introspectQueue == [FallbackFlags, FallbackMembers, FallbackLocalPending, FallbackSelfHandle])
    ensures call.ConferenceProperties? && IsLate(Pipeline(c)) ==> c.introspectQueue == []
  {
    var p := Pipeline(c);
    assert c.calls == [call];
    assert p[0] == call && p[1..] == c.introspectQueue;
  }

  // ---------------------------------------------------------------- the events

  lemma FinishAfterLookup(g: Group, reply: LookupReply, isReady: bool)
    requires Busy(g)
    ensures var f := FinishDelta(GroupAfterLookup(g, reply), Built(reply), isReady);
            && Idle(f)
            && f.flags == g.flags && f.usingDetailed == g.usingDetailed
            && f.haveMembers == g.haveMembers && f.history.skipped == g.history.skipped
  {
    var h := g.(parties := PartiesAfterLookup(g.parties, reply));
    assert Busy(h) && h.(building := false) == GroupAfterLookup(g, reply);
    FinishKeeps(h, Built(reply), isReady);
  }

  lemma BuildDone(c: Channel, f: Group)
    requires Inv(c) && c.lookups != []
    requires Idle(f) && f.flags == c.group.flags && f.usingDetailed == c.group.usingDetailed
    requires f.haveMembers == c.group.haveMembers
    ensures var n := ProcessMembersChanged(c.(group := f, lookups := []));
            Steady(n) && GroupInv(n.group) && Alive(n)
  {
    var d := c.(group := f, lookups := []);
    assert Pipeline(d) == Pipeline(c);
    ProcessKeeps(d);
  }

  lemma ContactsKeep(c: Channel, reply: LookupReply)
    requires Inv(c) && c.lookups != []
    ensures Inv(GotContacts(c, reply))
  {
    FinishAfterLookup(c.group, reply, IsReady(c));
    hide FinishDelta, ProcessMembersChanged, Steady, GroupInv;
    BuildDone(c, FinishDelta(GroupAfterLookup(c.group, reply), Built(reply), IsReady(c)));
  }

  lemma MembersKeep(c: Channel, d: Delta, actorKnown: bool)
    requires Inv(c)
    ensures Inv(DoMembersChanged(c, d, actorKnown))
  {
    ReceiveKeeps(c.group, d, actorKnown);
    var r := c.(group := Receive(c.group, d, actorKnown));
    assert Pipeline(r) == Pipeline(c);
    if Accepts(c.group, d) && !c.group.building {
      ProcessKeeps(r);
    }
  }

  lemma FakeKeeps(c: Channel, connectionSelf: Handle)
    requires Steady(c) && GroupInv(c.group) && !c.group.haveMembers && !c.group.building
    requires IsLate(Pipeline(c)) && c.calls == []
    ensures var n := FakeGroup(c, connectionSelf);
            && Steady(n) && GroupInv(n.group) && n.calls == [] && n.introspectQueue == c.introspectQueue
            && n.valid == c.valid && n.ready == c.ready && n.interfaces == c.interfaces && n.listening == c.listening
            && n.group.flags == c.group.flags
            && (n.group.haveMembers || n.group.building ==> !n.interfaces.group)
            && n.group.parties.initiatorHandle == c.group.parties.initiatorHandle
            && n.completions == c.completions
            && (!FakesGroup(c) ==> n == c)
  {
    var g := FakedGroup(c.group, connectionSelf);
    InitialKeeps(g);
    var h := c.(group := HaveInitialMembers(g));
    assert Pipeline(h) == Pipeline(c);
    hide ProcessMembersChanged;
    ProcessKeeps(h);
    ProcessBeforeReady(h);
  }

  /** With a delta waiting, the queue is served without touching readiness or interfaces. */
  lemma ProcessBeforeReady(c: Channel)
    requires c.group.queue != []
    ensures var n := ProcessMembersChanged(c);
            && n.ready == c.ready && n.completions == c.completions
            && n.interfaces == c.interfaces && n.listening == c.listening
            && n.group.flags == c.group.flags && n.group.haveMembers == c.group.haveMembers
            && n.group.parties.initiatorHandle == c.group.parties.initiatorHandle
  {
    hide WorkFor, NothingToBuild, ToBuild;
  }

  /** A channel whose main properties are being extracted: nothing is under way yet. */
  predicate Blank(c: Channel) {
    && Steady(c) && GroupInv(c.group)
    && c.calls == [] && c.introspectQueue == [] && c.completions == 0 && !c.listening
    && !c.group.haveMembers && !c.group.building && c.group.flags == {} && !c.group.history.skipped
  }

  lemma InterfacesKeep(c: Channel)
    requires Steady(c) && GroupInv(c.group)
    requires c.calls == [] && c.introspectQueue == [] && c.completions == 0 && !c.listening
    requires c.group.flags == {}
    requires c.group.haveMembers || c.group.building ==> !c.interfaces.group
    ensures Steady(NowHaveInterfaces(c)) && GroupInv(NowHaveInterfaces(c).group)
  {
    var p := Pipeline(NowHaveInterfaces(c));
    if c.interfaces.group {
      assert p == if c.interfaces.conference then [GroupProperties, ConferenceProperties] else [GroupProperties];
    } else {
      assert p == if c.interfaces.conference then [ConferenceProperties] else [];
      assert c.interfaces.conference ==> p[0] == ConferenceProperties;
    }
  }

  lemma MainPropsKeep(c: Channel, props: MainProps, connectionSelf: Handle)
    requires Blank(c)
    ensures var n := ExtractMainProps(c, props, connectionSelf);
            Steady(n) && GroupInv(n.group) && n.calls == []
  {
    if !props.Usable() {
      assert Pipeline(ExtractMainProps(c, props, connectionSelf))
             == [FallbackChannelType, FallbackHandle, FallbackInterfaces];
    } else {
      var c1 := c.(interfaces := props.interfaces.value,
                   group := c.group.(parties := PartiesIn(c.group.parties, props)));
      assert Blank(c1);
      FakeKeeps(c1, connectionSelf);
      var c2 := FakeGroup(c1, connectionSelf);
      if !FakesGroup(c1) && !c2.interfaces.group && c2.group.parties.initiatorHandle != 0 {
        BuildKeeps(c2);
        InterfacesKeep(BuildContacts(c2));
      } else {
        InterfacesKeep(c2);
      }
    }
  }

  lemma ConnectedKeeps(c: Channel, self: Handle, immutable: Immutable)
    requires Inv(c) && ConnectionReady in c.calls
    ensures Inv(GotConnection(c, self, immutable))
  {
    AnsweredCall(c, ConnectionReady);
    var parties := c.group.parties.(selfHandle := self, initiatorHandle := InitiatorIn(immutable));
    var c1 := Answered(c, ConnectionReady).(group := c.group.(parties := parties));
    assert Pipeline(c1) == [];
    match immutable
    case Complete(props) =>
      MainPropsKeep(c1, props, self);
      ContinueKeeps(ExtractMainProps(c1, props, self));
    case Partial(_) =>
      var n := GotConnection(c, self, immutable);
      assert n.calls == [MainProperties] && Pipeline(n) == [MainProperties];
  }

  lemma MainReplyKeeps(c: Channel, props: MainProps, connectionSelf: Handle)
    requires Inv(c) && MainProperties in c.calls
    ensures Inv(GotMainProperties(c, props, connectionSelf))
  {
    AnsweredCall(c, MainProperties);
    var c1 := Answered(c, MainProperties);
    assert Pipeline(c1) == [];
    MainPropsKeep(c1, props, connectionSelf);
    ContinueKeeps(ExtractMainProps(c1, props, connectionSelf));
  }

  lemma ChannelTypeKeeps(c: Channel, ok: bool)
    requires Inv(c) && FallbackChannelType in c.calls
    ensures Inv(GotChannelType(c, ok))
  {
    AnsweredCall(c, FallbackChannelType);
    var c1 := Answered(c, FallbackChannelType);
    assert Pipeline(c1) == [FallbackHandle, FallbackInterfaces];
    if ok {
      ContinueKeeps(c1);
    } else {
      assert Pipeline(Invalidated(c1)) == Pipeline(c1);
    }
  }

  lemma HandleKeeps(c: Channel, target: Option<Target>)
    requires Inv(c) && FallbackHandle in c.calls
    ensures Inv(GotHandle(c, target))
  {
    AnsweredCall(c, FallbackHandle);
    var c1 := Answered(c, FallbackHandle);
    assert Pipeline(c1) == [FallbackInterfaces];
    match target
    case Some(t) =>
      var c2 := c1.(group := c1.group.(parties := c1.group.parties.(targetIsContact := t.isContact,
                                                                    targetHandle := t.handle)));
      assert Pipeline(c2) == Pipeline(c1);
      ContinueKeeps(c2);
    case None =>
      assert Pipeline(Invalidated(c1)) == Pipeline(c1);
  }

  lemma InterfacesReplyKeeps(c: Channel, found: Option<Interfaces>, connectionSelf: Handle)
    requires Inv(c) && FallbackInterfaces in c.calls
    ensures Inv(GotInterfaces(c, found, connectionSelf))
  {
    AnsweredCall(c, FallbackInterfaces);
    if found.Some? {
      var c1 := Answered(c, FallbackInterfaces).(interfaces := found.value);
      assert Pipeline(c1) == [];
      InterfacesKeep(c1);
      var c2 := NowHaveInterfaces(c1);
      if FakesGroup(c2) {
        assert Pipeline(c2) == if found.value.conference then [ConferenceProperties] else [];
        FakeKeeps(c2, connectionSelf);
      }
      ContinueKeeps(FakeGroup(c2, connectionSelf));
    }
  }

  lemma InitialMembersKeep(c: Channel)
    requires Steady(c) && GroupInv(c.group) && c.calls == [] && IsLate(Pipeline(c))
    requires !c.group.haveMembers && !c.group.building
    ensures Inv(ContinueIntrospection(NowHaveInitialMembers(c)))
  {
    InitialKeeps(c.group);
    var h := c.(group := HaveInitialMembers(c.group));
    assert Pipeline(h) == Pipeline(c);
    ProcessKeeps(h);
    ContinueKeeps(NowHaveInitialMembers(c));
  }

  /** On a group channel, setting the flags switches to exactly the signal they promise. */
  lemma SetFlagsAgrees(g: Group, flags: Flags)
    requires g.usingDetailed <==> FLAG_MEMBERS_CHANGED_DETAILED in g.flags
    ensures SetFlags(g, true, flags) == g.(flags := flags, usingDetailed := FLAG_MEMBERS_CHANGED_DETAILED in flags)
  {
  }

  lemma UsableGroupPropsKeep(c: Channel, props: GroupProps)
    requires Steady(c) && GroupInv(c.group) && c.calls == [] && IsLate(c.introspectQueue)
    requires !c.group.haveMembers && !c.group.building && c.interfaces.group
    requires props.Usable()
    ensures Inv(ContinueIntrospection(ExtractGroupProps(c, props)))
  {
    SetFlagsAgrees(c.group, props.flags.value);
    var flags := props.flags.value;
    var c2 := c.(group := c.group.(
      flags := flags, usingDetailed := FLAG_MEMBERS_CHANGED_DETAILED in flags,
      initial := Initial(props.members.value, props.localPending.value, props.remotePending.value),
      parties := WithSelf(c.group.parties, props.selfHandle.value)));
    assert Pipeline(c2) == c.introspectQueue;
    InitialMembersKeep(c2);
    assert ExtractGroupProps(c, props) == NowHaveInitialMembers(c2);
  }

  lemma UnusableGroupPropsKeep(c: Channel, props: GroupProps)
    requires Steady(c) && GroupInv(c.group) && c.calls == [] && IsLate(c.introspectQueue)
    requires !c.group.haveMembers && !c.group.building && c.interfaces.group && c.completions == 0
    requires !props.Usable()
    ensures Inv(ContinueIntrospection(ExtractGroupProps(c, props)))
  {
    var c2 := ExtractGroupProps(c, props);
    if c.introspectQueue == [] {
      assert Pipeline(c2) == [FallbackFlags, FallbackMembers, FallbackLocalPending, FallbackSelfHandle];
    } else {
      assert Pipeline(c2) == [ConferenceProperties, FallbackFlags, FallbackMembers, FallbackLocalPending,
                              FallbackSelfHandle];
    }
    ContinueKeeps(c2);
  }

  lemma GroupReplyKeeps(c: Channel, props: GroupProps)
    requires Inv(c) && GroupProperties in c.calls
    ensures Inv(GotGroupProperties(c, props))
  {
    AnsweredCall(c, GroupProperties);
    var c1 := Answered(c, GroupProperties);
    if props.Usable() {
      UsableGroupPropsKeep(c1, props);
    } else {
      UnusableGroupPropsKeep(c1, props);
    }
  }

  /** A reply of the fallback path only stores what it was told before introspection goes on. */
  lemma StoringKeeps(c: Channel, call: Introspection, g: Group)
    requires Inv(c) && call in c.calls
    requires call.FallbackFlags? || call.FallbackMembers? || call.FallbackLocalPending?
    requires g == c.group.(flags := g.flags, usingDetailed := g.usingDetailed, initial := g.initial)
    requires g.usingDetailed <==> FLAG_MEMBERS_CHANGED_DETAILED in g.flags
    ensures Inv(ContinueIntrospection(Answered(c, call).(group := g)))
  {
    AnsweredCall(c, call);
    var c1 := Answered(c, call).(group := g);
    assert Pipeline(c1) == c.introspectQueue;
    ContinueKeeps(c1);
  }

  lemma FlagsReplyKeeps(c: Channel, flags: Option<Flags>)
    requires Inv(c) && FallbackFlags in c.calls
    ensures Inv(GotGroupFlags(c, flags))
  {
    var g := c.group;
    AnsweredCall(c, FallbackFlags);
    assert IsAskingGroup(Pipeline(c));
    if flags.Some? {
      SetFlagsAgrees(g, flags.value);
      StoringKeeps(c, FallbackFlags, SetFlags(g, true, flags.value).(flags := flags.value - {FLAG_PROPERTIES}));
    } else {
      StoringKeeps(c, FallbackFlags, g);
    }
  }

  lemma MembersReplyKeeps(c: Channel, all: Option<AllMembers>)
    requires Inv(c) && FallbackMembers in c.calls
    ensures Inv(GotAllMembers(c, all))
  {
    var g := c.group;
    StoringKeeps(c, FallbackMembers,
      if all.Some? then g.(initial := Initial(all.value.members,
                                              g.initial.localPending + BareInfos(all.value.localPending),
                                              all.value.remotePending)) else g);
  }

  lemma LocalPendingReplyKeeps(c: Channel, infos: Option<seq<LocalPendingInfo>>)
    requires Inv(c) && FallbackLocalPending in c.calls
    ensures Inv(GotLocalPending(c, infos))
  {
    StoringKeeps(c, FallbackLocalPending,
                 if infos.Some? then c.group.(initial := c.group.initial.(localPending := infos.value)) else c.group);
  }

  lemma SelfHandleKeeps(c: Channel, reply: Option<Handle>)
    requires Inv(c) && FallbackSelfHandle in c.calls
    ensures Inv(GotSelfHandle(c, reply))
  {
    AnsweredCall(c, FallbackSelfHandle);
    var c1 := Answered(c, FallbackSelfHandle);
    var c2 := if reply.Some? then c1.(group := c1.group.(parties := WithSelf(c1.group.parties, reply.value))) else c1;
    assert Pipeline(c2) == [];
    InitialMembersKeep(c2);
  }

  lemma ConferenceKeeps(c: Channel)
    requires Inv(c) && ConferenceProperties in c.calls
    ensures Inv(GotConferenceProperties(c))
  {
    AnsweredCall(c, ConferenceProperties);
    var c1 := Answered(c, ConferenceProperties).(introspectingConference := false);
    assert Pipeline(c1) == c.introspectQueue;
    ContinueKeeps(c1);
  }

  lemma FlagsChangeKeeps(c: Channel, added: Flags, removed: Flags)
    requires Inv(c) && c.listening
    ensures Inv(OnGroupFlagsChanged(c, added, removed))
  {
    var flags := ChangedFlags(c.group.flags, added, removed);
    SetFlagsAgrees(c.group, flags);
    var n := c.(group := c.group.(flags := flags, usingDetailed := FLAG_MEMBERS_CHANGED_DETAILED in flags));
    assert OnGroupFlagsChanged(c, added, removed) == n;
    assert Pipeline(n) == Pipeline(c);
  }

  lemma SelfChangeKeeps(c: Channel, h: Handle)
    requires Inv(c) && c.listening
    ensures Inv(OnSelfHandleChanged(c, h))
  {
    assert Pipeline(OnSelfHandleChanged(c, h)) == Pipeline(c);
  }

  lemma InvalidationKeeps(c: Channel)
    requires Inv(c)
    ensures Inv(Invalidated(c))
  {
    assert Pipeline(Invalidated(c)) == Pipeline(c);
  }

  lemma FailureKeeps(c: Channel)
    requires Inv(c) && ConnectionReady in c.calls
    ensures Inv(Invalidated(Answered(c, ConnectionReady)))
  {
    AnsweredCall(c, ConnectionReady);
    assert Pipeline(Invalidated(Answered(c, ConnectionReady))) == [];
  }

  // ---------------------------------------------------------------- every event

  lemma StepKeeps(c: Channel, e: Event)
    requires Inv(c) && Enabled(c, e)
    ensures Inv(Step(c, e))
  {
    hide Inv, GotConnection, GotMainProperties, GotChannelType, GotHandle, GotInterfaces, GotGroupProperties,
         GotGroupFlags, GotAllMembers, GotLocalPending, GotSelfHandle, GotConferenceProperties, GotContacts,
         DoMembersChanged, OnGroupFlagsChanged, OnSelfHandleChanged, Invalidated;
    match e
    case ConnectionFailed => FailureKeeps(c);
    case Connected(self, immutable) => ConnectedKeeps(c, self, immutable);
    case MainReply(props, connectionSelf) => MainReplyKeeps(c, props, connectionSelf);
    case ChannelTypeReply(ok) => ChannelTypeKeeps(c, ok);
    case HandleReply(target) => HandleKeeps(c, target);
    case InterfacesReply(found, connectionSelf) => InterfacesReplyKeeps(c, found, connectionSelf);
    case GroupReply(props) => GroupReplyKeeps(c, props);
    case FlagsReply(flags) => FlagsReplyKeeps(c, flags);
    case MembersReply(all) => MembersReplyKeeps(c, all);
    case LocalPendingReply(infos) => LocalPendingReplyKeeps(c, infos);
    case SelfHandleReply(handle) => SelfHandleKeeps(c, handle);
    case ConferenceReply => ConferenceKeeps(c);
    case ContactsReply(reply) => ContactsKeep(c, reply);
    case MembersChanged(d, known) => MembersKeep(c, d, known);
    case MembersChangedDetailed(d, known) => MembersKeep(c, d, known);
    case FlagsChanged(added, removed) => FlagsChangeKeeps(c, added, removed);
    case SelfChanged(h) => SelfChangeKeeps(c, h);
    case Closed => InvalidationKeeps(c);
  }

  lemma {:induction false} RunKeeps(run: seq<Channel>, events: seq<Event>, i: nat)
    requires IsRun(run, events) && i <= |events|
    ensures Inv(run[i])
  {
    if i > 0 {
      RunKeeps(run, events, i - 1);
      StepKeeps(run[i - 1], events[i - 1]);
    } else {
      assert Pipeline(INITIAL_CHANNEL) == [ConnectionReady];
    }
  }
}
