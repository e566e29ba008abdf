/**
 Concrete runs of a channel: one in which the readiness helper has to ignore a late report, and some
 in which an assumption of the general results does not hold and the channel misses what it is meant
 to keep.
 */
module ChannelExamples {
  import opened Handles
  import opened GroupDelta
  import opened GroupReplica
  import opened ChannelMachine
  import opened ChannelInvariants
  import opened ChannelReadiness
  import opened ChannelStalls
  import Convergence = ChannelConvergence
  import Fallback = ChannelFallback

  /** The main properties of a group that is not a conference. */
  const GROUP_MAIN := MainProps(Some("text"), Some(Interfaces(true, false)), Some(0), Some(false), Some(0))

  function Announcing(members: seq<Handle>, localPending: seq<LocalPendingInfo>, self: Handle): GroupProps {
    GroupProps(Some({FLAG_PROPERTIES}), true, Some(members), Some(localPending), Some([]), Some(self))
  }

  function KnowingSelf(self: Handle): Group {
    INITIAL_GROUP.(parties := INITIAL_GROUP.parties.(selfHandle := self))
  }

  /** The channel when it has asked for the group properties. */
  function AskedGroup(self: Handle): Channel {
    Channel(true, false, 0, 0, Interfaces(true, false), true, [], false, [GroupProperties], [], KnowingSelf(self))
  }

  lemma AsksGroup(self: Handle)
    ensures Step(INITIAL_CHANNEL, Connected(self, Complete(GROUP_MAIN))) == AskedGroup(self)
  {
    hide ToBuild, NothingToBuild, ProcessMembersChanged, SetReady;
    var c1 := Answered(INITIAL_CHANNEL, ConnectionReady).(group := KnowingSelf(self));
    assert c1.calls == [];
    assert ExtractMainProps(c1, GROUP_MAIN, self)
        == c1.(interfaces := Interfaces(true, false), introspectQueue := [GroupProperties]);
  }

  /** A group channel between its members' arrival and the contacts' is waiting for those alone. */
  predicate BuildingMembers(c: Channel, self: Handle, members: seq<Handle>) {
    && c.valid && !c.ready && c.completions == 0 && c.reports == 0 && c.listening
    && c.calls == [] && c.introspectQueue == [] && !c.introspectingConference
    && c.lookups == [SetOf(members) + IfNonZero(self)]
    && c.group.building && c.group.haveMembers && !c.group.usingDetailed
    && c.group.queue == [] && c.group.maps == NO_MAPS
    && c.group.work == Work(Some(Delta(members, [], [], [], NO_DETAILS)), SetOf(members), {}, {}, [], {}, {})
    && c.group.parties == KnowingSelf(self).parties
  }

  lemma MembersArrive(c: Channel, self: Handle, members: seq<Handle>)
    requires members != [] && c.calls == [] && c.introspectQueue == [] && c.lookups == []
    requires c.valid && !c.ready && c.completions == 0 && c.reports == 0 && c.listening && !c.introspectingConference
    requires c.group.queue == [] && c.group.work == NO_WORK && c.group.maps == NO_MAPS && !c.group.usingDetailed
    requires c.group.initial == Initial(members, [], []) && c.group.parties == KnowingSelf(self).parties
    ensures BuildingMembers(ContinueIntrospection(NowHaveInitialMembers(c)), self, members)
  {
    var h := HaveInitialMembers(c.group);
    assert InitialDeltas(c.group.initial) == [Delta(members, [], [], [], NO_DETAILS)];
    assert h.queue == InitialDeltas(c.group.initial) && h.queue[1..] == [];
    FirstWork(members);
    assert members[0] in SetOf(members);
    assert ToBuild(StartDelta(h).work, StartDelta(h).parties) == SetOf(members) + IfNonZero(self);
  }

  lemma FirstWork(members: seq<Handle>)
    ensures WorkFor(NO_WORK, NO_MAPS, Delta(members, [], [], [], NO_DETAILS))
         == Work(Some(Delta(members, [], [], [], NO_DETAILS)), SetOf(members), {}, {}, [], {}, {})
  {
    var none: seq<Handle> := [];
    assert none + none == none;
    assert AddedFrom(members, {}) == SetOf(members);
  }

  lemma GroupReplyBuilds(self: Handle, members: seq<Handle>)
    requires members != []
    ensures BuildingMembers(Step(AskedGroup(self), GroupReply(Announcing(members, [], self))), self, members)
  {
    hide NowHaveInitialMembers, ContinueIntrospection, BuildingMembers;
    var c := Answered(AskedGroup(self), GroupProperties);
    var g := KnowingSelf(self).(flags := {FLAG_PROPERTIES}, initial := Initial(members, [], []));
    assert g.parties == WithSelf(KnowingSelf(self).parties, self);
    assert ExtractGroupProps(c, Announcing(members, [], self)) == NowHaveInitialMembers(c.(group := g));
    MembersArrive(c.(group := g), self, members);
  }

  /** A channel that is ready, with one member, itself. */
  predicate AloneAndReady(c: Channel) {
    && c.valid && c.ready && c.completions == 1 && c.reports == 1 && c.listening
    && c.calls == [] && c.introspectQueue == [] && c.lookups == []
    && !c.group.building && c.group.haveMembers && !c.group.usingDetailed
    && c.group.queue == [] && c.group.work == NO_WORK && KeySets(c.group.maps) == Sets({1}, {}, {})
    && c.group.parties.selfHandle == 1 && !c.group.parties.retrieveSelf
  }

  lemma BecomesReady(c: Channel)
    requires BuildingMembers(c, 1, [1])
    ensures AloneAndReady(Step(c, ContactsReply(LookupFound([Contact(1)], []))))
  {
    var reply := LookupFound([Contact(1)], []);
    assert Built(reply) == {1} by {
      assert Contact(1) in reply.contacts;
    }
    var m := AfterWork(NO_MAPS, c.group.work, {1});
    assert KeySets(m) == Sets({1}, {}, {}) by {
      assert AfterAdditions(NO_MAPS, c.group.work, {1}).members.Keys == {1};
    }
    hide AfterWork, EmissionFor, PartiesAfter, Noteworthy;
    var g := FinishDelta(GroupAfterLookup(c.group, reply), {1}, false);
    assert PartiesAfter(c.group.parties, {1}).selfHandle == 1 && !PartiesAfter(c.group.parties, {1}).retrieveSelf by {
      PartiesKept(c.group.parties, {1});
    }
  }

  lemma PartiesKept(p: Parties, built: set<Handle>)
    ensures PartiesAfter(p, built).selfHandle == p.selfHandle && PartiesAfter(p, built).retrieveSelf == p.retrieveSelf
  {
  }

  /** One event more. */
  lemma GoOn(run: seq<Channel>, events: seq<Event>, e: Event) returns (more: seq<Channel>)
    requires IsRun(run, events) && Enabled(run[|events|], e)
    ensures IsRun(more, events + [e])
    ensures |run| == |events| + 1 && more == run + [Step(run[|events|], e)]
  {
    hide Step, Enabled;
    more := run + [Step(run[|events|], e)];
  }

  lemma AskRun(self: Handle) returns (run: seq<Channel>, events: seq<Event>)
    ensures IsRun(run, events) && |events| == 1 && |run| == 2 && run[1] == AskedGroup(self)
  {
    AsksGroup(self);
    var e := Connected(self, Complete(GROUP_MAIN));
    assert Enabled(INITIAL_CHANNEL, e);
    hide Step, Enabled;
    run, events := [INITIAL_CHANNEL, AskedGroup(self)], [e];
  }

  lemma CanAnswer(self: Handle, props: GroupProps)
    ensures Enabled(AskedGroup(self), GroupReply(props))
  {
    assert GroupProperties in AskedGroup(self).calls;
  }

  /** A run to where the contacts of some members are being built. */
  lemma BuildRun(self: Handle, members: seq<Handle>) returns (run: seq<Channel>, events: seq<Event>)
    requires members != []
    ensures IsRun(run, events) && |events| == 2 && |run| == 3 && BuildingMembers(run[2], self, members)
  {
    hide IsRun, Step, Enabled, AskedGroup, BuildingMembers;
    run, events := AskRun(self);
    var e := GroupReply(Announcing(members, [], self));
    CanAnswer(self, e.groupProps);
    run := GoOn(run, events, e);
    events := events + [e];
    GroupReplyBuilds(self, members);
  }

  /** A run that ends with the channel ready. */
  lemma ReadyRun() returns (run: seq<Channel>, events: seq<Event>)
    ensures IsRun(run, events) && |events| == 3 && |run| == 4 && AloneAndReady(run[3])
  {
    hide IsRun, Step, Enabled, BuildingMembers, AloneAndReady;
    run, events := BuildRun(1, [1]);
    var e := ContactsReply(LookupFound([Contact(1)], []));
    StillAwaiting(run[2], 1, [1], e);
    BecomesReady(run[2]);
    run := GoOn(run, events, e);
    events := events + [e];
  }

  lemma StillAwaiting(c: Channel, self: Handle, members: seq<Handle>, e: Event)
    requires BuildingMembers(c, self, members) && e.ContactsReply?
    ensures Enabled(c, e)
  {
  }

  // ---------------------------------------------------------------- invalidation

  /** A channel closed while it builds the contacts of a change reports readiness a second time when
      they arrive.  The readiness helper ignores it: FeatureCore completed once. */
  lemma LateReportIsIgnored() returns (run: seq<Channel>, events: seq<Event>)
    ensures IsRun(run, events) && |events| == 6
    ensures events[3] == Event.MembersChanged(Delta([2], [], [], [], NO_DETAILS), false)
    ensures events[4] == Closed && events[5] == ContactsReply(LookupFailed)
    ensures run[5].reports == 1 && run[6].reports == 2
    ensures run[6].completions == 1 && !run[6].ready
  {
    hide IsRun, Step, Enabled, AloneAndReady, Inv;
    run, events := ReadyRun();
    var d := Delta([2], [], [], [], NO_DETAILS);
    var e4, e6 := Event.MembersChanged(d, false), ContactsReply(LookupFailed);
    DeltaStartsBuild(run[3], d);
    run := GoOn(run, events, e4);
    events := events + [e4];
    ClosingWhileBuilding(run[4], e6);
    run := GoOn(run, events, Closed);
    events := events + [Closed];
    RunKeeps(run, events, 5);
    ReportsAgainIff(run[5], e6);
    InvalidStaysInvalid(run[5], LookupFailed);
    run := GoOn(run, events, e6);
    events := events + [e6];
  }

  lemma ClosingWhileBuilding(c: Channel, e: Event)
    requires c.lookups != [] && e.ContactsReply?
    ensures Enabled(c, Closed) && Step(c, Closed) == c.(valid := false, ready := false)
    ensures Enabled(Step(c, Closed), e)
  {
  }

  lemma InvalidStaysInvalid(c: Channel, reply: LookupReply)
    requires c.lookups != [] && !c.valid && !c.ready
    ensures Enabled(c, ContactsReply(reply)) && !Step(c, ContactsReply(reply)).ready
  {
    hide BuildContacts, StartDelta, AfterWork, EmissionFor;
    BuildsAdd();
  }

  lemma DeltaStartsBuild(c: Channel, d: Delta)
    requires AloneAndReady(c) && d == Delta([2], [], [], [], NO_DETAILS)
    ensures Enabled(c, Event.MembersChanged(d, false))
    ensures var n := Step(c, Event.MembersChanged(d, false));
            && n.lookups != [] && n.completions == 1 && n.reports == 1
            && n.group.queue == [] && !n.group.parties.retrieveSelf
  {
    hide ProcessMembersChanged, WorkFor, NothingToBuild, ToBuild;
    var r := c.(group := Receive(c.group, d, false));
    assert r.group.queue == [d] && r.group.queue[1..] == [];
    assert 2 in AddedFrom(d.added, c.group.maps.members.Keys);
    ServingBuildsIff(r);
  }

  // ---------------------------------------------------------------- renaming

  /** A member that renames itself stays shown under its old handle, while the service has moved it
      to the new one: nothing is on its way, waiting or being built. */
  lemma RenameLeavesReplicaBehind() returns (run: seq<Channel>, events: seq<Event>, d: Delta)
    ensures IsRun(run, events) && |events| == 4
    ensures events[3] == Event.MembersChanged(d, false) && WellFormed(KeySets(run[3].group.maps), d)
    ensures run[4].group.queue == [] && !run[4].group.building
    ensures KeySets(run[3].group.maps) == KeySets(run[4].group.maps) == Sets({1}, {}, {})
    ensures Apply(KeySets(run[3].group.maps), d) == Sets({2}, {}, {})
    ensures run[4].group.parties.selfHandle == 2
  {
    hide IsRun, Step, Enabled, AloneAndReady, Apply;
    run, events := ReadyRun();
    d := Delta([2], [1], [], [], Details(None, Some(REASON_RENAMED), None));
    RenameIs(run[3], d);
    run := GoOn(run, events, Event.MembersChanged(d, false));
    events := events + [Event.MembersChanged(d, false)];
  }

  lemma RenameIs(c: Channel, d: Delta)
    requires AloneAndReady(c) && d == Delta([2], [1], [], [], Details(None, Some(REASON_RENAMED), None))
    ensures Enabled(c, Event.MembersChanged(d, false))
    ensures Step(c, Event.MembersChanged(d, false)).group
         == c.group.(parties := c.group.parties.(selfHandle := 2, retrieveSelf := true))
    ensures KeySets(c.group.maps) == Sets({1}, {}, {}) && c.group.queue == [] && !c.group.building
    ensures WellFormed(Sets({1}, {}, {}), d) && Apply(Sets({1}, {}, {}), d) == Sets({2}, {}, {})
  {
    assert SetOf([1]) == {1} && SetOf([2]) == {2} && SetOf<Handle>([]) == {};
  }

  // ---------------------------------------------------------------- no self handle

  /** A run that gets stuck: the self handle stays zero and the one member is local pending. */
  lemma StallWithoutSelfHandle() returns (run: seq<Channel>, events: seq<Event>)
    ensures IsRun(run, events) && |events| == 2
    ensures IsStuck(run[2]) && run[2].group.queue != []
  {
    hide IsRun, Step, Enabled, Inv, IsStuck, AskedGroup;
    run, events := AskRun(0);
    RunKeeps(run, events, 1);
    var props := Announcing([], [LocalPendingInfo(7, 0, 0, "")], 0);
    CanAnswer(0, props);
    AskedIsNotStuck(0);
    LocalPendingStalls(run[1], props);
    GetsStuckIff(run[1], GroupReply(props));
    StuckQueueWaits(run[1], props);
    run := GoOn(run, events, GroupReply(props));
    events := events + [GroupReply(props)];
  }

  lemma AskedIsNotStuck(self: Handle)
    ensures var c := AskedGroup(self); c.valid && !IsStuck(c) && GroupProperties in c.calls
  {
    assert AskedGroup(self).calls[0] == GroupProperties;
  }

  lemma LocalPendingStalls(c: Channel, props: GroupProps)
    requires c == AskedGroup(0) && props == Announcing([], [LocalPendingInfo(7, 0, 0, "")], 0)
    ensures props.Usable() && InitialMembersStall(GroupWith(c.group, props))
    ensures Enabled(c, GroupReply(props)) && GetsStuck(c, GroupReply(props))
  {
    assert GroupProperties in c.calls;
  }

  lemma StuckQueueWaits(c: Channel, props: GroupProps)
    requires Inv(c) && GroupProperties in c.calls && props.Usable() && InitialMembersStall(GroupWith(c.group, props))
    ensures Step(c, GroupReply(props)).group.queue != []
  {
    hide Inv, GotGroupProperties, WithAnswer, GroupWith, InitialMembersStall, AboutToHaveMembers, NowHaveInitialMembers,
         ContinueIntrospection;
    AnswerIsExpected(c, props);
    AnswerTaken(c, props);
    SameStall(c, props);
    InitialMembersStallIff(WithAnswer(c, props));
  }

  lemma SameStall(c: Channel, props: GroupProps)
    requires props.Usable() && c.calls != []
    ensures InitialMembersStall(WithAnswer(c, props).group) == InitialMembersStall(GroupWith(c.group, props))
  {
    StallIgnoresFlags(WithAnswer(c, props).group, GroupWith(c.group, props));
  }

  /** Another run that gets stuck: the only member is removed while its contact is being built. */
  lemma RemovalStallsWithoutSelfHandle() returns (run: seq<Channel>, events: seq<Event>)
    ensures IsRun(run, events) && |events| == 4
    ensures events[2] == Event.MembersChanged(Delta([], [1], [], [], NO_DETAILS), false)
    ensures IsStuck(run[4])
  {
    hide IsRun, Step, Enabled, Inv, IsStuck, BuildingMembers, GetsStuck;
    run, events := BuildRun(0, [1]);
    var d := Delta([], [1], [], [], NO_DETAILS);
    var reply := LookupFound([Contact(1)], []);
    RemovalWaits(run[2], d, reply);
    run := GoOn(run, events, Event.MembersChanged(d, false));
    events := events + [Event.MembersChanged(d, false)];
    RunKeeps(run, events, 3);
    GetsStuckIff(run[3], ContactsReply(reply));
    run := GoOn(run, events, ContactsReply(reply));
    events := events + [ContactsReply(reply)];
  }

  lemma RemovalWaits(c: Channel, d: Delta, reply: LookupReply)
    requires BuildingMembers(c, 0, [1]) && d == Delta([], [1], [], [], NO_DETAILS)
    ensures Enabled(c, Event.MembersChanged(d, false))
    ensures var n := Step(c, Event.MembersChanged(d, false));
            && n.valid && !IsStuck(n) && Enabled(n, ContactsReply(reply)) && GetsStuck(n, ContactsReply(reply))
  {
    var n := OnMembersChanged(c, d, false);
    assert n.group.queue == [d] && n.lookups == c.lookups;
    PartiesKept(c.group.parties, Built(reply));
    hide AfterWork, EmissionFor, Noteworthy, ToBuild;
    assert forall present: set<Handle> :: AddedFrom([], present) == {};
  }

  // ---------------------------------------------------------------- a delta nobody hears

  /** The member that joins while the channel is still asking. */
  const JOINING := Delta([2], [], [], [], NO_DETAILS)

  const FALLBACK_CALLS := [FallbackFlags, FallbackMembers, FallbackLocalPending, FallbackSelfHandle]

  /** The channel at one of the calls of the fallback, and the members it was told. */
  function Asking(k: nat, members: seq<Handle>): Channel
    requires k < 4
  {
    AskedGroup(1).(calls := [FALLBACK_CALLS[k]], introspectQueue := FALLBACK_CALLS[k + 1..],
                   group := KnowingSelf(1).(initial := Initial(members, [], [])))
  }

  lemma FallsBack()
    ensures Step(AskedGroup(1), GroupReply(NO_GROUP_PROPS)) == Asking(0, [])
  {
  }

  lemma AskingOn(k: nat, members: seq<Handle>)
    requires k < 3
    ensures ContinueIntrospection(Asking(k, members).(calls := [])) == Asking(k + 1, members)
  {
    assert FALLBACK_CALLS[k + 1..][0] == FALLBACK_CALLS[k + 1];
    assert FALLBACK_CALLS[k + 1..][1..] == FALLBACK_CALLS[k + 2..];
  }

  lemma FlagsTold()
    ensures Enabled(Asking(0, []), FlagsReply(Some({}))) && Step(Asking(0, []), FlagsReply(Some({}))) == Asking(1, [])
  {
    assert FallbackFlags in Asking(0, []).calls;
    assert INITIAL_GROUP.flags - {FLAG_PROPERTIES} == INITIAL_GROUP.flags;
    hide ContinueIntrospection;
    AskingOn(0, []);
  }

  lemma MembersTold()
    ensures var e := MembersReply(Some(AllMembers([1], [], [])));
            Enabled(Asking(1, []), e) && Step(Asking(1, []), e) == Asking(2, [1])
  {
    assert FallbackMembers in Asking(1, []).calls;
    var none: seq<LocalPendingInfo> := [];
    assert none + BareInfos([]) == none;
    hide ContinueIntrospection;
    AskingOn(1, [1]);
  }

  lemma LocalPendingTold()
    ensures Enabled(Asking(2, [1]), LocalPendingReply(None))
            && Step(Asking(2, [1]), LocalPendingReply(None)) == Asking(3, [1])
  {
    assert FallbackLocalPending in Asking(2, [1]).calls;
    hide ContinueIntrospection;
    AskingOn(2, [1]);
  }

  lemma LastReplyBuilds()
    ensures Enabled(Asking(3, [1]), SelfHandleReply(Some(1)))
    ensures BuildingMembers(Step(Asking(3, [1]), SelfHandleReply(Some(1))), 1, [1])
  {
    assert FallbackSelfHandle in Asking(3, [1]).calls;
    var c := Answered(Asking(3, [1]), FallbackSelfHandle);
    assert c.introspectQueue == [];
    hide NowHaveInitialMembers, ContinueIntrospection, BuildingMembers;
    MembersArrive(c, 1, [1]);
    assert c.group.(parties := WithSelf(c.group.parties, 1)) == c.group;
  }

  /** One move more. */
  lemma MoveOn(run: seq<Fallback.Fallback>, moves: seq<Fallback.Move>, m: Fallback.Move)
    returns (more: seq<Fallback.Fallback>)
    requires Fallback.IsFallback(run, moves) && Fallback.CanMove(run[|moves|], m)
    ensures Fallback.IsFallback(more, moves + [m])
    ensures |run| == |moves| + 1 && more == run + [Fallback.Next(run[|moves|], m)]
  {
    hide Fallback.Next, Fallback.CanMove, Fallback.Begins;
    more := run + [Fallback.Next(run[|moves|], m)];
  }

  /** With no signals on the way, the service answers and the channel takes the answer. */
  lemma Exchange(run: seq<Fallback.Fallback>, moves: seq<Fallback.Move>, e: Event)
    returns (more: seq<Fallback.Fallback>, moves': seq<Fallback.Move>)
    requires Fallback.IsFallback(run, moves)
    requires var s := run[|moves|]; s.wire == [] && Fallback.CanMove(s, Fallback.Send(e))
    ensures Fallback.IsFallback(more, moves') && |more| == |moves'| + 1 && |run| == |moves| + 1
    ensures var s := run[|moves|];
            && Enabled(s.channel, e)
            && more[|moves'|] == s.(channel := Step(s.channel, e), ledger := Fallback.Reported(s.ledger, e, s.sets))
  {
    var s := run[|moves|];
    AnswerTravels(s, e);
    hide *;
    more := MoveOn(run, moves, Fallback.Send(e));
    moves' := moves + [Fallback.Send(e)];
    more := MoveOn(more, moves', Fallback.TakeReply);
    moves' := moves' + [Fallback.TakeReply];
  }

  lemma AnswerTravels(s: Fallback.Fallback, e: Event)
    requires s.wire == [] && Fallback.CanMove(s, Fallback.Send(e))
    ensures var n := Fallback.Next(s, Fallback.Send(e));
            && Enabled(s.channel, e) && Fallback.CanMove(n, Fallback.TakeReply)
            && Fallback.Next(n, Fallback.TakeReply)
               == s.(channel := Step(s.channel, e), ledger := Fallback.Reported(s.ledger, e, s.sets))
  {
    hide Step;
  }

  const ALONE := Sets({1}, {}, {})

  function AskingAt(k: nat, members: seq<Handle>, sets: Sets, ledger: Fallback.Ledger): Fallback.Fallback
    requires k < 4
  {
    Fallback.Fallback(Asking(k, members), sets, {}, [], None, ledger)
  }

  /** The start of the example: the channel falls back while the service has one member. */
  lemma FallbackStarts()
    ensures Fallback.Begins(AskingAt(0, [], ALONE, Fallback.NO_LEDGER))
  {
    var run, events := AskRun(1);
    CanAnswer(1, NO_GROUP_PROPS);
    FallsBack();
    run := GoOn(run, events, GroupReply(NO_GROUP_PROPS));
    RunKeeps(run, events + [GroupReply(NO_GROUP_PROPS)], 2);
    hide Inv, IsRun, Step;
  }

  /** The service has reported its one member; then another joins. */
  lemma JoinIsIgnored(s: Fallback.Fallback)
    requires s == AskingAt(2, [1], ALONE, Fallback.Ledger(Fallback.MembersTold, ALONE, [], 0, []))
    ensures var change := Fallback.Common(Convergence.Change(JOINING, false));
            var deliver := Fallback.Common(Convergence.Deliver(false));
            && Fallback.CanMove(s, change) && Fallback.CanMove(Fallback.Next(s, change), deliver)
            && Fallback.Next(Fallback.Next(s, change), deliver)
               == AskingAt(2, [1], Sets({1, 2}, {}, {}), Fallback.Ledger(Fallback.MembersTold, ALONE, [JOINING], 0, []))
  {
    assert SetOf([2]) == {2} && SetOf<Handle>([]) == {};
    hide ProcessMembersChanged, ContinueIntrospection;
    var change := Fallback.Common(Convergence.Change(JOINING, false));
    var n := Fallback.Next(s, change);
    assert n == s.(sets := Sets({1, 2}, {}, {}), wire := [Convergence.Plain(JOINING)],
                   ledger := Fallback.Ledger(Fallback.MembersTold, ALONE, [JOINING], 0, []));
    assert Convergence.Received(s.channel, n.wire[0], false) == s.channel;
    assert n.wire[1..] == [];
  }

  /** The replies up to the one to GetAllMembers. */
  lemma FallbackIsTold() returns (run: seq<Fallback.Fallback>, moves: seq<Fallback.Move>)
    ensures Fallback.IsFallback(run, moves) && |run| == |moves| + 1
    ensures run[|moves|] == AskingAt(2, [1], ALONE, Fallback.Ledger(Fallback.MembersTold, ALONE, [], 0, []))
  {
    var flags, members := FlagsReply(Some({})), MembersReply(Some(AllMembers([1], [], [])));
    FallbackStarts();
    FlagsTold();
    MembersTold();
    ReportsFit();
    hide Step, Enabled, Fallback.Begins, Asking, Fallback.CanMove, Fallback.Next;
    run, moves := [AskingAt(0, [], ALONE, Fallback.NO_LEDGER)], [];
    assert Fallback.IsFallback(run, moves);
    hide Fallback.IsFallback;
    run, moves := Exchange(run, moves, flags);
    run, moves := Exchange(run, moves, members);
  }

  lemma ReportsFit()
    ensures Fallback.CanMove(AskingAt(0, [], ALONE, Fallback.NO_LEDGER), Fallback.Send(FlagsReply(Some({}))))
    ensures Fallback.CanMove(AskingAt(1, [], ALONE, Fallback.NO_LEDGER),
                             Fallback.Send(MembersReply(Some(AllMembers([1], [], [])))))
  {
    assert FallbackFlags in Asking(0, []).calls && FallbackMembers in Asking(1, []).calls;
    assert SetOf([1]) == {1} && SetOf<Handle>([]) == {};
  }

  /** The channel is told of its one member only, the other having joined before the last reply. */
  lemma FallbackMisses() returns (run: seq<Fallback.Fallback>, moves: seq<Fallback.Move>)
    ensures Fallback.IsFallback(run, moves) && |run| == |moves| + 1
    ensures run[|moves|] == AskingAt(3, [1], Sets({1, 2}, {}, {}),
                                     Fallback.Ledger(Fallback.MembersTold, ALONE, [JOINING], 0, []))
  {
    run, moves := FallbackIsTold();
    JoinIsIgnored(run[|moves|]);
    LocalPendingTold();
    hide Step, Enabled, Fallback.IsFallback, Asking, Fallback.Next, Fallback.CanMove;
    var change := Fallback.Common(Convergence.Change(JOINING, false));
    run := MoveOn(run, moves, change);
    moves := moves + [change];
    var deliver := Fallback.Common(Convergence.Deliver(false));
    run := MoveOn(run, moves, deliver);
    moves := moves + [deliver];
    CanSend(run[|moves|], LocalPendingReply(None));
    run, moves := Exchange(run, moves, LocalPendingReply(None));
  }

  lemma CanSend(s: Fallback.Fallback, e: Event)
    requires s.reply.None? && Enabled(s.channel, e)
    requires e == LocalPendingReply(None) || e.SelfHandleReply?
    ensures Fallback.CanMove(s, Fallback.Send(e))
  {
  }

  /** A whole history of the fallback that ends with nothing on the way, waiting or being built, and
      with a member missing: it joined between the replies to GetAllMembers and GetSelfHandle. */
  lemma FallbackMissesDelta() returns (run: seq<Fallback.Fallback>, moves: seq<Fallback.Move>)
    ensures Fallback.IsFallback(run, moves) && |run| == |moves| + 1
    ensures var s := run[|moves|];
            && Convergence.Quiescent(Fallback.Shadow(s)) && s.channel.ready
            && s.sets == Sets({1, 2}, {}, {}) && KeySets(s.channel.group.maps) == Sets({1}, {}, {})
            && s.ledger.unheard == [JOINING] && s.ledger.heard == []
  {
    run, moves := FallbackMisses();
    LastReplyBuilds();
    hide Step, Enabled, Fallback.IsFallback, Asking, Fallback.Next, Fallback.CanMove, BuildingMembers, AloneAndReady;
    CanSend(run[|moves|], SelfHandleReply(Some(1)));
    run, moves := Exchange(run, moves, SelfHandleReply(Some(1)));
    var reply := ContactsReply(LookupFound([Contact(1)], []));
    var arrive := Fallback.Common(Convergence.Other(reply));
    ContactsArrive(run[|moves|], reply);
    run := MoveOn(run, moves, arrive);
    moves := moves + [arrive];
  }

  lemma ContactsArrive(s: Fallback.Fallback, e: Event)
    requires BuildingMembers(s.channel, 1, [1]) && s.reply.None? && s.wire == []
    requires e == ContactsReply(LookupFound([Contact(1)], []))
    ensures var m := Fallback.Common(Convergence.Other(e));
            && Fallback.CanMove(s, m)
            && var n := Fallback.Next(s, m);
               && n.sets == s.sets && n.ledger == s.ledger && n.channel.ready
               && Convergence.Quiescent(Fallback.Shadow(n))
               && KeySets(n.channel.group.maps) == Sets({1}, {}, {})
  {
    assert Contact(1) in e.reply.contacts;
    BecomesReady(s.channel);
    hide Step;
  }
}
