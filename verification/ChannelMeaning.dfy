/**
 What a channel is meant to know, read off the replies and signals alone: each of them counts at once,
 with no queue, no contact build and no order of introspection.  The channel comes to the same.
 */
module ChannelMeaning {
  import opened Handles
  import opened GroupDelta
  import opened GroupReplica
  import opened ChannelMachine
  import opened ChannelInvariants
  import opened ChannelReadiness
  import opened ChannelHistory
  import opened ChannelConvergence

  /** The sides of a channel, its group's flags, the members the fallback's replies told of so far, and
      the group once it is known. */
  datatype Meaning = Meaning(
    self: Handle,
    initiator: Handle,
    targetIsContact: bool,
    target: Handle,
    interfaces: Interfaces,
    flags: Flags,
    told: Sets,
    haveMembers: bool,
    sets: Sets)

  const NOTHING := Meaning(0, 0, false, 0, Interfaces(false, false), {}, NOBODY, false, NOBODY)

  function OrBefore(h: Handle, before: Handle): Handle {
    if h != 0 then h else before
  }

  /** A one-to-one channel without a group interface has the two sides as its members. */
  function Sides(m: Meaning, connectionSelf: Handle): Meaning {
    if !m.interfaces.group && m.targetIsContact && connectionSelf != 0 && m.target != 0 then
      m.(self := connectionSelf, haveMembers := true, sets := Sets({connectionSelf, m.target}, {}, {}))
    else m
  }

  function MainTold(m: Meaning, props: MainProps, connectionSelf: Handle): Meaning {
    if !props.Usable() then m else
      Sides(m.(interfaces := props.interfaces.value, target := props.targetHandle.value,
               targetIsContact := props.targetIsContact.value,
               initiator := if props.initiatorHandle.Some? then props.initiatorHandle.value else m.initiator),
            connectionSelf)
  }

  function PendingHandles(infos: seq<LocalPendingInfo>): set<Handle> {
    set info | info in infos :: info.toBeAdded
  }

  /** A change: of the self handle, if that is renamed to the one handle the change names besides it;
      otherwise of the group. */
  function Changed(m: Meaning, d: Delta): Meaning {
    var others := d.added + d.localPending + d.remotePending;
    if !m.haveMembers || (others == [] && d.removed == []) then m
    else if m.self in d.removed && d.details.reason == Some(REASON_RENAMED) then
      if |d.removed| == 1 && |others| == 1 then m.(self := others[0]) else m
    else m.(sets := Apply(m.sets, d))
  }

  function After(m: Meaning, e: Event): Meaning {
    match e
    case Connected(self, Complete(props)) =>
      var initiator := if props.initiatorHandle.Some? then props.initiatorHandle.value else 0;
      MainTold(m.(self := self, initiator := initiator), props, self)
    case Connected(self, Partial(initiator)) => m.(self := self, initiator := initiator)
    case MainReply(props, connectionSelf) => MainTold(m, props, connectionSelf)
    case HandleReply(Some(t)) => m.(targetIsContact := t.isContact, target := t.handle)
    case InterfacesReply(Some(i), connectionSelf) => Sides(m.(interfaces := i), connectionSelf)
    case GroupReply(props) =>
      if !props.Usable() then m else
        m.(flags := props.flags.value, self := OrBefore(props.selfHandle.value, m.self), haveMembers := true,
           sets := Sets(SetOf(props.members.value), PendingHandles(props.localPending.value),
                        SetOf(props.remotePending.value)))
    case FlagsReply(Some(flags)) => m.(flags := flags - {FLAG_PROPERTIES})
    case MembersReply(Some(all)) =>
      m.(told := Sets(SetOf(all.members), m.told.localPending + SetOf(all.localPending), SetOf(all.remotePending)))
    case LocalPendingReply(Some(infos)) => m.(told := m.told.(localPending := PendingHandles(infos)))
    case SelfHandleReply(handle) =>
      m.(self := if handle.Some? then OrBefore(handle.value, m.self) else m.self, haveMembers := true, sets := m.told)
    case MembersChanged(d, _) => if FLAG_MEMBERS_CHANGED_DETAILED in m.flags then m else Changed(m, d)
    case MembersChangedDetailed(d, _) => if FLAG_MEMBERS_CHANGED_DETAILED in m.flags then Changed(m, d) else m
    case FlagsChanged(added, removed) => m.(flags := (m.flags - removed) + (added - m.flags))
    case SelfChanged(h) => m.(self := h)
    case _ => m
  }

  function MeaningOf(events: seq<Event>): Meaning
    decreases |events|
  {
    if events == [] then NOTHING else After(MeaningOf(events[..|events| - 1]), events[|events| - 1])
  }

  // ---------------------------------------------------------------- what the channel knows

  predicate IsSetUpCall(call: Introspection) {
    || call.ConnectionReady? || call.MainProperties? || call.FallbackChannelType? || call.FallbackHandle?
    || call.FallbackInterfaces?
  }

  /** The channel still asks what it is. */
  predicate StillAsks(c: Channel) {
    c.calls != [] && IsSetUpCall(c.calls[0])
  }

  /** Everything but the group's members. */
  predicate KnowsSides(c: Channel, m: Meaning) {
    && c.group.parties.selfHandle == m.self && c.group.parties.initiatorHandle == m.initiator
    && c.group.parties.targetIsContact == m.targetIsContact && c.group.parties.targetHandle == m.target
    && c.interfaces == m.interfaces && c.group.flags == m.flags && c.group.haveMembers == m.haveMembers
  }

  /** Before the members are known, what was told of them; afterwards the deltas taken mean the group,
      if they are well formed. */
  predicate KnowsMembers(c: Channel, m: Meaning) {
    && (!m.haveMembers ==> c.group.history.accepted == [] && m.sets == NOBODY && Means(c.group.initial, m.told))
    && (StillAsks(c) ==> c.group.initial == Initial([], [], []))
    && (AllWellFormed(NOBODY, c.group.history.accepted) ==> ApplyAll(NOBODY, c.group.history.accepted) == m.sets)
  }

  predicate Knows(c: Channel, m: Meaning) {
    KnowsSides(c, m) && KnowsMembers(c, m)
  }

  /** The facts above are the same. */
  predicate Same(c: Channel, n: Channel) {
    && n.group.parties.selfHandle == c.group.parties.selfHandle
    && n.group.parties.initiatorHandle == c.group.parties.initiatorHandle
    && n.group.parties.targetIsContact == c.group.parties.targetIsContact
    && n.group.parties.targetHandle == c.group.parties.targetHandle
    && n.interfaces == c.interfaces && n.group.flags == c.group.flags
    && n.group.haveMembers == c.group.haveMembers && n.group.initial == c.group.initial
    && n.group.history.accepted == c.group.history.accepted
    && (c.listening ==> n.listening)
  }

  lemma BuildIsSame(c: Channel)
    ensures Same(c, BuildContacts(c)) && BuildContacts(c).calls == c.calls && BuildContacts(c).valid == c.valid
  {
    hide NothingToBuild, ToBuild;
  }

  lemma StartIsSame(c: Channel)
    requires c.group.queue != []
    ensures Same(c, c.(group := StartDelta(c.group)))
  {
    hide WorkFor;
  }

  lemma ContinueIsSame(c: Channel)
    ensures Same(c, ContinueIntrospection(c)) && ContinueIntrospection(c).valid == c.valid
    ensures StillAsks(ContinueIntrospection(c)) ==>
              StillAsks(c) || (c.calls == [] && c.introspectQueue != [] && IsSetUpCall(c.introspectQueue[0]))
  {
    hide ContactSets;
  }

  lemma ProcessIsSame(c: Channel)
    ensures Same(c, ProcessMembersChanged(c)) && ProcessMembersChanged(c).valid == c.valid
    ensures ProcessMembersChanged(c).calls == c.calls && ProcessMembersChanged(c).introspectQueue == c.introspectQueue
  {
    if c.group.queue != [] {
      hide BuildContacts, StartDelta;
      StartIsSame(c);
      BuildIsSame(c.(group := StartDelta(c.group)));
    } else if c.group.parties.retrieveSelf {
      hide BuildContacts;
      BuildIsSame(c.(group := c.group.(parties := c.group.parties.(retrieveSelf := false))));
    } else {
      ContinueIsSame(c);
    }
  }

  // ---------------------------------------------------------------- members as told

  lemma PendingHandlesAre(infos: seq<LocalPendingInfo>)
    ensures PendingHandles(infos) == SetOf(InfoHandles(infos))
  {
    forall h ensures h in PendingHandles(infos) <==> h in SetOf(InfoHandles(infos)) {
      if h in PendingHandles(infos) {
        var info :| info in infos && info.toBeAdded == h;
        var k :| 0 <= k < |infos| && infos[k] == info;
        assert InfoHandles(infos)[k] == h;
      }
      if h in InfoHandles(infos) {
        var k :| 0 <= k < |infos| && InfoHandles(infos)[k] == h;
        assert infos[k].toBeAdded == h;
      }
    }
  }

  lemma {:induction false} LocalDeltasComeFromOutside(s: Sets, infos: seq<LocalPendingInfo>)
    requires AllWellFormed(s, LocalDeltas(infos))
    ensures SetOf(InfoHandles(infos)) !! s.members + s.remotePending
    decreases |infos|
  {
    if infos == [] {
    } else {
      var h, rest := infos[0].toBeAdded, infos[1..];
      assert LocalDeltas(infos)[1..] == LocalDeltas(rest) && InfoHandles(infos) == [h] + InfoHandles(rest);
      var d := LocalDelta(infos[0]);
      assert LocalDeltas(infos)[0] == d && SetOf(d.localPending) == {h} by {
        assert SetOf([h]) == {h};
      }
      assert SetOf<Handle>([]) == {};
      assert h !in s.members + s.remotePending;
      var s' := Apply(s, d);
      assert s'.members == s.members && s'.remotePending == s.remotePending;
      LocalDeltasComeFromOutside(s', rest);
      SetOfConcat([h], InfoHandles(rest));
    }
  }

  /** The deltas made up from what was told mean it, if they are well formed. */
  lemma ToldMembers(i: Initial, sets: Sets)
    requires Means(i, sets) && AllWellFormed(NOBODY, InitialDeltas(i))
    ensures ApplyAll(NOBODY, InitialDeltas(i)) == sets
  {
    var ds := InitialDeltas(i);
    assert ds[1..] == LocalDeltas(i.localPending) && SetOf<Handle>([]) == {};
    var s := Apply(NOBODY, ds[0]);
    assert ListsDisjoint(ds[0]);
    assert s == Sets(sets.members, {}, sets.remotePending);
    LocalDeltasComeFromOutside(s, i.localPending);
    InitialDeltasDescribe(i, sets);
  }

  /** Members taken over count as what they were told to be. */
  lemma MembersKnown(c: Channel, n: Channel, m: Meaning)
    requires c.group.history.accepted == [] && Means(c.group.initial, m.sets) && m.haveMembers
    requires KnowsSides(c.(group := HaveInitialMembers(c.group)), m)
    requires Same(c.(group := HaveInitialMembers(c.group)), n)
    requires StillAsks(n) ==> n.group.initial == Initial([], [], [])
    ensures Knows(n, m)
  {
    var ds := InitialDeltas(c.group.initial);
    assert [] + ds == ds;
    hide InitialDeltas;
    if AllWellFormed(NOBODY, ds) {
      ToldMembers(c.group.initial, m.sets);
    }
  }

  /** The same when the channel goes on with its work at once, and with introspection after it. */
  lemma TakenKnown(w: Channel, m: Meaning)
    requires w.calls == [] && IsLate(w.introspectQueue) && w.group.history.accepted == []
    requires m.haveMembers && Means(w.group.initial, m.sets)
    requires KnowsSides(w.(group := HaveInitialMembers(w.group)), m)
    ensures Knows(ContinueIntrospection(ProcessMembersChanged(w.(group := HaveInitialMembers(w.group)))), m)
  {
    var h := w.(group := HaveInitialMembers(w.group));
    var n := ContinueIntrospection(ProcessMembersChanged(h));
    hide ProcessMembersChanged, ContinueIntrospection, InitialDeltas, Means, KnowsMembers, KnowsSides;
    ProcessIsSame(h);
    ContinueIsSame(ProcessMembersChanged(h));
    assert !StillAsks(n);
    MembersKnown(w, n, m);
  }

  // ---------------------------------------------------------------- replies

  lemma GroupReplyKnows(c: Channel, props: GroupProps, m: Meaning)
    requires Inv(c) && GroupProperties in c.calls && Knows(c, m)
    ensures Knows(GotGroupProperties(c, props), After(m, GroupReply(props)))
  {
    BeforeAnswer(c);
    AnsweredCall(c, GroupProperties);
    NothingTaken(c, m);
    hide Inv, Chain, Knows;
    if props.Usable() {
      UsablePropsKnown(c, props, m);
    } else {
      UnusablePropsKnown(c, props, m);
    }
  }

  /** While calls are made, no delta was taken. */
  lemma NothingTaken(c: Channel, m: Meaning)
    requires Inv(c) && Knows(c, m) && c.calls != [] && !c.calls[0].ConferenceProperties?
    ensures !m.haveMembers && c.group.history.accepted == [] && m.sets == NOBODY && Means(c.group.initial, m.told)
    ensures KnowsSides(c, m) && Chain(c)
  {
    assert Pipeline(c)[0] == c.calls[0];
  }

  /** The channel with usable properties in place, and their deltas to be looked at. */
  function WithProps(c: Channel, props: GroupProps): Channel
    requires props.Usable() && c.calls != []
  {
    var c1 := Answered(c, GroupProperties);
    c1.(group := AnsweredGroup(c1.group, props))
  }

  lemma UsablePropsLead(c: Channel, props: GroupProps)
    requires props.Usable() && c.calls == [GroupProperties] && c.interfaces.group
    requires c.group.usingDetailed <==> Promises(c.group.flags)
    ensures var w := WithProps(c, props);
            GotGroupProperties(c, props)
            == ContinueIntrospection(ProcessMembersChanged(w.(group := HaveInitialMembers(w.group))))
  {
    hide ProcessMembersChanged, ContinueIntrospection, HaveInitialMembers;
    AnswerTakesMembers(Answered(c, GroupProperties), props);
  }

  lemma UsablePropsKnown(c: Channel, props: GroupProps, m: Meaning)
    requires props.Usable() && c.calls == [GroupProperties] && c.interfaces.group && IsLate(c.introspectQueue)
    requires c.group.usingDetailed <==> Promises(c.group.flags)
    requires KnowsSides(c, m) && c.group.history.accepted == []
    ensures Knows(GotGroupProperties(c, props), After(m, GroupReply(props)))
  {
    var w := WithProps(c, props);
    UsablePropsLead(c, props);
    PendingHandlesAre(props.localPending.value);
    assert w.calls == [] && w.introspectQueue == c.introspectQueue;
    hide ProcessMembersChanged, ContinueIntrospection, InitialDeltas, GotGroupProperties, Knows;
    TakenKnown(w, After(m, GroupReply(props)));
  }

  lemma UnusablePropsKnown(c: Channel, props: GroupProps, m: Meaning)
    requires !props.Usable() && c.calls == [GroupProperties] && IsLate(c.introspectQueue) && Knows(c, m)
    ensures Knows(GotGroupProperties(c, props), m)
  {
    var x := ExtractGroupProps(Answered(c, GroupProperties), props);
    ContinueIsSame(x);
    assert x.introspectQueue != [] && !IsSetUpCall(x.introspectQueue[0]);
    hide ContinueIntrospection, AllWellFormed, ApplyAll, Means;
  }

  /** A reply that only stores what it was told before introspection goes on. */
  lemma StoringKnows(c: Channel, call: Introspection, g: Group, m: Meaning)
    requires Chain(c) && call in c.calls
    requires call.FallbackChannelType? || call.FallbackHandle? || call.FallbackFlags? || call.FallbackMembers?
             || call.FallbackLocalPending?
    requires Knows(Answered(c, call).(group := g), m)
    requires call.FallbackChannelType? || call.FallbackHandle? ==> g.initial == Initial([], [], [])
    ensures Knows(ContinueIntrospection(Answered(c, call).(group := g)), m)
  {
    AnsweredCall(c, call);
    var x := Answered(c, call).(group := g);
    ContinueIsSame(x);
    hide ContinueIntrospection, AllWellFormed, ApplyAll, Means, Chain;
  }

  lemma FlagsStored(c: Channel, g: Group, m: Meaning, n: Meaning)
    requires Chain(c) && c.calls == [FallbackFlags] && Knows(c, m)
    requires g == c.group.(flags := n.flags, usingDetailed := g.usingDetailed) && n == m.(flags := n.flags)
    ensures Knows(ContinueIntrospection(Answered(c, FallbackFlags).(group := g)), n)
  {
    hide ContinueIntrospection, Means, Chain, AllWellFormed, ApplyAll, Without;
    StoringKnows(c, FallbackFlags, g, n);
  }

  function WithFlags(g: Group, flags: Option<Flags>): Group {
    if flags.None? then g
    else g.(flags := flags.value - {FLAG_PROPERTIES}, usingDetailed := Promises(flags.value))
  }

  lemma StoresFlags(c: Channel, flags: Option<Flags>, m: Meaning)
    requires c.calls != [] && c.interfaces.group && (c.group.usingDetailed <==> Promises(c.group.flags))
    requires c.group.flags == m.flags
    ensures GotGroupFlags(c, flags)
         == ContinueIntrospection(Answered(c, FallbackFlags).(group := WithFlags(c.group, flags)))
    ensures After(m, FlagsReply(flags)) == m.(flags := WithFlags(c.group, flags).flags)
  {
    if flags.Some? {
      SetFlagsAgrees(c.group, flags.value);
    }
    hide ContinueIntrospection, SetFlags, Without, Promises;
  }

  lemma FlagsReplyKnows(c: Channel, flags: Option<Flags>, m: Meaning)
    requires Inv(c) && FallbackFlags in c.calls && Knows(c, m)
    ensures Knows(GotGroupFlags(c, flags), After(m, FlagsReply(flags)))
  {
    AnsweredCall(c, FallbackFlags);
    FlagsKnown(c, m);
    assert Pipeline(c)[0] == FallbackFlags && IsAskingGroup(Pipeline(c));
    assert Chain(c) && FlagsAgree(c) && c.interfaces.group;
    hide Inv, Chain, Knows, ContinueIntrospection, Without, GotGroupFlags, After;
    StoresFlags(c, flags, m);
    FlagsStored(c, WithFlags(c.group, flags), m, m.(flags := WithFlags(c.group, flags).flags));
  }

  lemma FlagsKnown(c: Channel, m: Meaning)
    requires Knows(c, m)
    ensures c.group.flags == m.flags
  {
    hide KnowsMembers;
  }

  lemma BareInfosPending(i: Initial, all: AllMembers, told: Sets)
    requires Means(i, told)
    ensures Means(Initial(all.members, i.localPending + BareInfos(all.localPending), all.remotePending),
                  Sets(SetOf(all.members), told.localPending + SetOf(all.localPending), SetOf(all.remotePending)))
  {
    var more := BareInfos(all.localPending);
    assert InfoHandles(i.localPending + more) == InfoHandles(i.localPending) + InfoHandles(more);
    assert InfoHandles(more) == all.localPending;
    SetOfConcat(InfoHandles(i.localPending), all.localPending);
  }

  function WithInfos(i: Initial, infos: Option<seq<LocalPendingInfo>>): Initial {
    if infos.Some? then i.(localPending := infos.value) else i
  }

  function ToldInfos(told: Sets, infos: Option<seq<LocalPendingInfo>>): Sets {
    if infos.Some? then told.(localPending := PendingHandles(infos.value)) else told
  }

  lemma InfosPending(i: Initial, infos: Option<seq<LocalPendingInfo>>, told: Sets)
    requires Means(i, told)
    ensures Means(WithInfos(i, infos), ToldInfos(told, infos))
  {
    if infos.Some? {
      PendingHandlesAre(infos.value);
    }
  }

  lemma StoresInfos(c: Channel, infos: Option<seq<LocalPendingInfo>>, m: Meaning)
    requires c.calls != []
    ensures GotLocalPending(c, infos)
         == ContinueIntrospection(Answered(c, FallbackLocalPending).(
              group := c.group.(initial := WithInfos(c.group.initial, infos))))
    ensures After(m, LocalPendingReply(infos)) == m.(told := ToldInfos(m.told, infos))
  {
    hide ContinueIntrospection, PendingHandles, Without;
  }

  lemma ToldStored(c: Channel, call: Introspection, i: Initial, m: Meaning, n: Meaning)
    requires call == FallbackMembers || call == FallbackLocalPending
    requires Chain(c) && c.calls == [call] && KnowsSides(c, m) && !m.haveMembers
    requires c.group.history.accepted == [] && m.sets == NOBODY && Means(i, n.told) && n == m.(told := n.told)
    ensures Knows(ContinueIntrospection(Answered(c, call).(group := c.group.(initial := i))), n)
  {
    AnsweredCall(c, call);
    hide ContinueIntrospection, Means, Chain;
    StoringKnows(c, call, c.group.(initial := i), n);
  }

  function WithMembers(i: Initial, all: Option<AllMembers>): Initial {
    if all.None? then i
    else Initial(all.value.members, i.localPending + BareInfos(all.value.localPending), all.value.remotePending)
  }

  function ToldMembersOf(told: Sets, all: Option<AllMembers>): Sets {
    if all.None? then told
    else Sets(SetOf(all.value.members), told.localPending + SetOf(all.value.localPending),
              SetOf(all.value.remotePending))
  }

  lemma StoresMembers(c: Channel, all: Option<AllMembers>, m: Meaning)
    requires c.calls != []
    ensures GotAllMembers(c, all)
         == ContinueIntrospection(Answered(c, FallbackMembers).(
              group := c.group.(initial := WithMembers(c.group.initial, all))))
    ensures After(m, MembersReply(all)) == m.(told := ToldMembersOf(m.told, all))
  {
    hide ContinueIntrospection, BareInfos, SetOf, Without;
  }

  lemma MembersReplyKnows(c: Channel, all: Option<AllMembers>, m: Meaning)
    requires Inv(c) && FallbackMembers in c.calls && Knows(c, m)
    ensures Knows(GotAllMembers(c, all), After(m, MembersReply(all)))
  {
    AnsweredCall(c, FallbackMembers);
    NothingTaken(c, m);
    StoresMembers(c, all, m);
    hide Inv, Chain, Knows, KnowsSides, After, GotAllMembers, ContinueIntrospection, Without;
    if all.Some? {
      BareInfosPending(c.group.initial, all.value, m.told);
    }
    hide Means, BareInfos, SetOf;
    ToldStored(c, FallbackMembers, WithMembers(c.group.initial, all), m, m.(told := ToldMembersOf(m.told, all)));
  }

  lemma LocalPendingReplyKnows(c: Channel, infos: Option<seq<LocalPendingInfo>>, m: Meaning)
    requires Inv(c) && FallbackLocalPending in c.calls && Knows(c, m)
    ensures Knows(GotLocalPending(c, infos), After(m, LocalPendingReply(infos)))
  {
    AnsweredCall(c, FallbackLocalPending);
    NothingTaken(c, m);
    StoresInfos(c, infos, m);
    InfosPending(c.group.initial, infos, m.told);
    hide Inv, Chain, Knows, KnowsSides, Means, After, GotLocalPending, ContinueIntrospection, Without;
    ToldStored(c, FallbackLocalPending, WithInfos(c.group.initial, infos), m, m.(told := ToldInfos(m.told, infos)));
  }

  lemma SelfHandleReplyKnows(c: Channel, handle: Option<Handle>, m: Meaning)
    requires Inv(c) && FallbackSelfHandle in c.calls && Knows(c, m)
    ensures Knows(GotSelfHandle(c, handle), After(m, SelfHandleReply(handle)))
  {
    AnsweredCall(c, FallbackSelfHandle);
    NothingTaken(c, m);
    SelfToldKnown(c, handle, m);
  }

  function WithSelfTold(c: Channel, handle: Option<Handle>): Channel
    requires c.calls != []
  {
    var c1 := Answered(c, FallbackSelfHandle);
    if handle.Some? then c1.(group := c1.group.(parties := WithSelf(c1.group.parties, handle.value))) else c1
  }

  lemma SelfToldLeads(c: Channel, handle: Option<Handle>)
    requires c.calls == [FallbackSelfHandle]
    ensures var w := WithSelfTold(c, handle);
            && GotSelfHandle(c, handle)
               == ContinueIntrospection(ProcessMembersChanged(w.(group := HaveInitialMembers(w.group))))
            && w.calls == [] && w.introspectQueue == c.introspectQueue
            && w.group.history == c.group.history && w.group.initial == c.group.initial
  {
    hide ProcessMembersChanged, ContinueIntrospection, HaveInitialMembers;
  }

  lemma SelfToldSides(c: Channel, handle: Option<Handle>, m: Meaning)
    requires c.calls != [] && KnowsSides(c, m)
    ensures var w, n := WithSelfTold(c, handle), After(m, SelfHandleReply(handle));
            KnowsSides(w.(group := HaveInitialMembers(w.group)), n) && n.haveMembers && n.sets == m.told
  {
    hide InitialDeltas, Without;
  }

  lemma SelfToldKnown(c: Channel, handle: Option<Handle>, m: Meaning)
    requires c.calls == [FallbackSelfHandle] && c.introspectQueue == [] && KnowsSides(c, m)
    requires c.group.history.accepted == [] && Means(c.group.initial, m.told)
    ensures Knows(GotSelfHandle(c, handle), After(m, SelfHandleReply(handle)))
  {
    hide ProcessMembersChanged, ContinueIntrospection, HaveInitialMembers, GotSelfHandle, Means, WithSelfTold, After,
         Knows, KnowsSides;
    SelfToldLeads(c, handle);
    SelfToldSides(c, handle, m);
    assert IsLate(c.introspectQueue);
    TakenKnown(WithSelfTold(c, handle), After(m, SelfHandleReply(handle)));
  }

  // ---------------------------------------------------------------- what the channel is

  /** A channel that has just been told something of what it is, with nothing under way. */
  predicate JustTold(c: Channel, m: Meaning) {
    && Knows(c, m) && !m.haveMembers && c.calls == [] && c.group.initial == Initial([], [], [])
  }

  lemma FakingKnows(c: Channel, connectionSelf: Handle, m: Meaning)
    requires JustTold(c, m)
    ensures Knows(FakeGroup(c, connectionSelf), Sides(m, connectionSelf))
    ensures FakeGroup(c, connectionSelf).calls == []
    ensures FakeGroup(c, connectionSelf).introspectQueue == c.introspectQueue
  {
    if FakesGroup(c) && connectionSelf != 0 && c.group.parties.targetHandle != 0 {
      var w := c.(group := FakedGroup(c.group, connectionSelf));
      var two, none: seq<LocalPendingInfo> := [connectionSelf, m.target], [];
      assert SetOf(two) == {connectionSelf, m.target};
      assert InfoHandles(none) == [] && SetOf<Handle>([]) == {};
      var h := w.(group := HaveInitialMembers(w.group));
      hide ProcessMembersChanged, InitialDeltas, AllWellFormed, ApplyAll;
      ProcessIsSame(h);
      MembersKnown(w, FakeGroup(c, connectionSelf), Sides(m, connectionSelf));
    }
  }

  lemma InterfacesAreSame(c: Channel)
    ensures Same(c, NowHaveInterfaces(c)) && NowHaveInterfaces(c).calls == c.calls
    ensures c.introspectQueue == [] && NowHaveInterfaces(c).introspectQueue != [] ==>
              !IsSetUpCall(NowHaveInterfaces(c).introspectQueue[0])
  {
  }

  lemma SameKnows(c: Channel, n: Channel, m: Meaning)
    requires Knows(c, m) && Same(c, n) && (StillAsks(n) ==> StillAsks(c))
    ensures Knows(n, m)
  {
    hide AllWellFormed, ApplyAll, Means;
  }

  /** Going on to the next call when nothing is in flight. */
  lemma GoingOnKnows(c: Channel, m: Meaning)
    requires Knows(c, m) && c.calls == []
    requires c.introspectQueue != [] && IsSetUpCall(c.introspectQueue[0]) ==> c.group.initial == Initial([], [], [])
    ensures Knows(ContinueIntrospection(c), m)
  {
    ContinueIsSame(c);
    hide ContinueIntrospection, AllWellFormed, ApplyAll, Means;
  }

  lemma UsableMainKnows(c: Channel, props: MainProps, connectionSelf: Handle, m: Meaning)
    requires JustTold(c, m) && c.introspectQueue == [] && props.Usable()
    ensures Knows(ContinueIntrospection(ExtractMainProps(c, props, connectionSelf)), MainTold(m, props, connectionSelf))
  {
    var c1 := c.(interfaces := props.interfaces.value, group := c.group.(parties := PartiesIn(c.group.parties, props)));
    var m1 := m.(interfaces := props.interfaces.value, target := props.targetHandle.value,
                 targetIsContact := props.targetIsContact.value,
                 initiator := if props.initiatorHandle.Some? then props.initiatorHandle.value else m.initiator);
    assert JustTold(c1, m1) by {
      hide AllWellFormed, ApplyAll, Means;
    }
    hide Knows, AllWellFormed, ApplyAll, Means, FakeGroup, Sides, BuildContacts, NowHaveInterfaces,
         ContinueIntrospection;
    FakingKnows(c1, connectionSelf, m1);
    var c2 := FakeGroup(c1, connectionSelf);
    BuildIsSame(c2);
    BuildKeepsQueue(c2);
    SameKnows(c2, BuildContacts(c2), Sides(m1, connectionSelf));
    var c3 := if !FakesGroup(c1) && !c2.interfaces.group && c2.group.parties.initiatorHandle != 0
              then BuildContacts(c2) else c2;
    InterfacesAreSame(c3);
    SameKnows(c3, NowHaveInterfaces(c3), Sides(m1, connectionSelf));
    GoingOnKnows(NowHaveInterfaces(c3), Sides(m1, connectionSelf));
  }

  lemma BuildKeepsQueue(c: Channel)
    ensures BuildContacts(c).introspectQueue == c.introspectQueue
  {
  }

  lemma MainPropsKnow(c: Channel, props: MainProps, connectionSelf: Handle, m: Meaning)
    requires JustTold(c, m) && c.introspectQueue == []
    ensures Knows(ContinueIntrospection(ExtractMainProps(c, props, connectionSelf)), MainTold(m, props, connectionSelf))
  {
    if props.Usable() {
      UsableMainKnows(c, props, connectionSelf, m);
    } else {
      var x := ExtractMainProps(c, props, connectionSelf);
      assert Knows(x, m) by {
        hide AllWellFormed, ApplyAll, Means;
      }
      hide Knows, ContinueIntrospection;
      GoingOnKnows(x, m);
    }
  }

  lemma ConnectedKnows(c: Channel, self: Handle, immutable: Immutable, m: Meaning)
    requires Inv(c) && ConnectionReady in c.calls && Knows(c, m)
    ensures Knows(GotConnection(c, self, immutable), After(m, Connected(self, immutable)))
  {
    AnsweredCall(c, ConnectionReady);
    NothingTaken(c, m);
    var parties := c.group.parties.(selfHandle := self, initiatorHandle := InitiatorIn(immutable));
    var c1 := Answered(c, ConnectionReady).(group := c.group.(parties := parties));
    var m1 := m.(self := self, initiator := InitiatorIn(immutable));
    assert JustTold(c1, m1) by {
      hide AllWellFormed, ApplyAll, Means, Inv;
    }
    hide Inv, AllWellFormed, ApplyAll, Means, ExtractMainProps, ContinueIntrospection, MainTold;
    match immutable
    case Complete(props) => MainPropsKnow(c1, props, self, m1);
    case Partial(_) => assert Knows(GotConnection(c, self, immutable), m1);
  }

  lemma MainReplyKnows(c: Channel, props: MainProps, connectionSelf: Handle, m: Meaning)
    requires Inv(c) && MainProperties in c.calls && Knows(c, m)
    ensures Knows(GotMainProperties(c, props, connectionSelf), After(m, MainReply(props, connectionSelf)))
  {
    AnsweredCall(c, MainProperties);
    NothingTaken(c, m);
    var c1 := Answered(c, MainProperties);
    assert JustTold(c1, m) by {
      hide AllWellFormed, ApplyAll, Means, Inv;
    }
    hide Inv, Knows, ExtractMainProps, ContinueIntrospection, MainTold;
    MainPropsKnow(c1, props, connectionSelf, m);
  }

  lemma InterfacesReplyKnows(c: Channel, found: Option<Interfaces>, connectionSelf: Handle, m: Meaning)
    requires Inv(c) && FallbackInterfaces in c.calls && Knows(c, m)
    ensures Knows(GotInterfaces(c, found, connectionSelf), After(m, InterfacesReply(found, connectionSelf)))
  {
    AnsweredCall(c, FallbackInterfaces);
    NothingTaken(c, m);
    hide Inv;
    if found.Some? {
      InterfacesTold(c, found.value, connectionSelf, m);
    } else {
      hide AllWellFormed, ApplyAll, Means;
    }
  }

  lemma InterfacesTold(c: Channel, found: Interfaces, connectionSelf: Handle, m: Meaning)
    requires c.calls == [FallbackInterfaces] && c.introspectQueue == [] && Knows(c, m) && !m.haveMembers
    ensures Knows(GotInterfaces(c, Some(found), connectionSelf), Sides(m.(interfaces := found), connectionSelf))
  {
    var c1, m1 := Answered(c, FallbackInterfaces).(interfaces := found), m.(interfaces := found);
    var c2 := NowHaveInterfaces(c1);
    InterfacesAreSame(c1);
    assert JustTold(c2, m1) by {
      hide AllWellFormed, ApplyAll, Means;
    }
    hide Knows, AllWellFormed, ApplyAll, Means, FakeGroup, Sides, NowHaveInterfaces, ContinueIntrospection;
    FakingKnows(c2, connectionSelf, m1);
    GoingOnKnows(FakeGroup(c2, connectionSelf), Sides(m1, connectionSelf));
  }

  lemma HandleReplyKnows(c: Channel, target: Option<Target>, m: Meaning)
    requires Inv(c) && FallbackHandle in c.calls && Knows(c, m)
    ensures Knows(GotHandle(c, target), After(m, HandleReply(target)))
  {
    AnsweredCall(c, FallbackHandle);
    NothingTaken(c, m);
    hide Inv, AllWellFormed, ApplyAll, Means, ContinueIntrospection, Chain;
    if target.Some? {
      var t := target.value;
      var g := c.group.(parties := c.group.parties.(targetIsContact := t.isContact, targetHandle := t.handle));
      StoringKnows(c, FallbackHandle, g, After(m, HandleReply(target)));
    }
  }

  lemma ChannelTypeReplyKnows(c: Channel, ok: bool, m: Meaning)
    requires Inv(c) && FallbackChannelType in c.calls && Knows(c, m)
    ensures Knows(GotChannelType(c, ok), m)
  {
    AnsweredCall(c, FallbackChannelType);
    NothingTaken(c, m);
    hide Inv, AllWellFormed, ApplyAll, Means, ContinueIntrospection, Chain;
    if ok {
      StoringKnows(c, FallbackChannelType, c.group, m);
    }
  }

  // ---------------------------------------------------------------- signals and contacts

  lemma AcceptedKnows(c: Channel, d: Delta, actorKnown: bool, m: Meaning)
    requires Knows(c, m) && Accepts(c.group, d)
    ensures Knows(c.(group := Receive(c.group, d, actorKnown)), m.(sets := Apply(m.sets, d)))
  {
    var accepted := c.group.history.accepted;
    ApplyAllConcat(NOBODY, accepted, [d]);
    ApplyOneMore(NOBODY, accepted, d);
    hide AllWellFormed, ApplyAll, Apply, Means;
  }

  lemma RefusedKnows(c: Channel, d: Delta, actorKnown: bool, m: Meaning)
    requires Knows(c, m) && !Accepts(c.group, d)
    ensures Knows(c.(group := Receive(c.group, d, actorKnown)), Changed(m, d))
  {
    NamesNobody(d);
    RenamedHandle(d);
    hide AllWellFormed, ApplyAll, Apply, Means, RenamedTo;
  }

  lemma NamesNobody(d: Delta)
    ensures d.IsEmpty() <==> d.added + d.localPending + d.remotePending == [] && d.removed == []
  {
    assert d.added + d.localPending + d.remotePending == [] <==>
           d.added == [] && d.localPending == [] && d.remotePending == [];
  }

  lemma ReceivedKnows(c: Channel, d: Delta, actorKnown: bool, m: Meaning)
    requires Knows(c, m)
    ensures Knows(c.(group := Receive(c.group, d, actorKnown)), Changed(m, d))
  {
    if Accepts(c.group, d) {
      NamesNobody(d);
      AcceptedKnows(c, d, actorKnown, m);
      hide KnowsMembers, Receive, Apply;
    } else {
      RefusedKnows(c, d, actorKnown, m);
    }
  }

  /** A rename names one handle that goes and one that comes, in whichever list. */
  lemma RenamedHandle(d: Delta)
    ensures var others := d.added + d.localPending + d.remotePending;
            RenamedTo(d) == if |d.removed| == 1 && |others| == 1 then Some(others[0]) else None
  {
  }

  lemma DeltaKnows(c: Channel, d: Delta, actorKnown: bool, m: Meaning)
    requires Knows(c, m)
    ensures Knows(DoMembersChanged(c, d, actorKnown), Changed(m, d))
  {
    var r := c.(group := Receive(c.group, d, actorKnown));
    ReceivedKnows(c, d, actorKnown, m);
    hide ProcessMembersChanged, Receive, Knows, Changed;
    ProcessIsSame(r);
    SameKnows(r, ProcessMembersChanged(r), Changed(m, d));
  }

  lemma FlagsSignalKnows(c: Channel, added: Flags, removed: Flags, m: Meaning)
    requires Knows(c, m)
    ensures Knows(OnGroupFlagsChanged(c, added, removed), After(m, FlagsChanged(added, removed)))
  {
    assert ChangedFlags(c.group.flags, added, removed) == (m.flags - removed) + (added - m.flags);
    hide AllWellFormed, ApplyAll, Means, ChangedFlags;
  }

  lemma ContactsKnow(c: Channel, reply: LookupReply, m: Meaning)
    requires c.lookups != [] && Knows(c, m)
    ensures Knows(GotContacts(c, reply), m)
  {
    var x := Applied(c, reply);
    assert Same(c, x) && x.calls == c.calls by {
      hide AfterWork, EmissionFor;
    }
    assert GotContacts(c, reply) == ProcessMembersChanged(x);
    hide ProcessMembersChanged, Knows, Applied, GotContacts;
    ProcessIsSame(x);
    SameKnows(c, x, m);
    SameKnows(x, ProcessMembersChanged(x), m);
  }

  lemma ConferenceReplyKnows(c: Channel, m: Meaning)
    requires Inv(c) && ConferenceProperties in c.calls && Knows(c, m)
    ensures Knows(GotConferenceProperties(c), m)
  {
    AnsweredCall(c, ConferenceProperties);
    var x := Answered(c, ConferenceProperties).(introspectingConference := false);
    assert Knows(x, m) by {
      hide AllWellFormed, ApplyAll, Means, Inv;
    }
    hide Inv, Knows, ContinueIntrospection;
    GoingOnKnows(x, m);
  }

  /** Breaking off changes nothing of this. */
  lemma InvalidKnows(c: Channel, m: Meaning)
    requires Knows(c, m)
    ensures Knows(Invalidated(c), m)
    ensures c.calls == [ConnectionReady] ==> Knows(Invalidated(Answered(c, ConnectionReady)), m)
  {
    hide AllWellFormed, ApplyAll, Means;
  }

  lemma SelfSignalKnows(c: Channel, h: Handle, m: Meaning)
    requires Knows(c, m)
    ensures Knows(OnSelfHandleChanged(c, h), After(m, SelfChanged(h)))
  {
    hide AllWellFormed, ApplyAll, Means;
  }

  lemma DetailedIsFlagged(c: Channel, m: Meaning)
    requires Inv(c) && Knows(c, m)
    ensures c.group.usingDetailed <==> FLAG_MEMBERS_CHANGED_DETAILED in m.flags
  {
  }

  lemma SignalKnows(c: Channel, e: Event, m: Meaning)
    requires Inv(c) && Knows(c, m) && (e.MembersChanged? || e.MembersChangedDetailed?)
    ensures Enabled(c, e) ==> Knows(Step(c, e), After(m, e))
  {
    DetailedIsFlagged(c, m);
    DeltaKnows(c, e.delta, e.actorKnown, m);
    hide Inv, Knows, DoMembersChanged, Changed;
  }

  lemma SetUpReplyKnows(c: Channel, e: Event, m: Meaning)
    requires Inv(c) && Enabled(c, e) && Knows(c, m) && CallOf(e).Some? && c.calls == [CallOf(e).value]
    requires IsSetUpCall(CallOf(e).value)
    ensures Knows(Step(c, e), After(m, e))
  {
    hide Inv, Knows, After, GotConnection, GotMainProperties, GotChannelType, GotHandle, GotInterfaces;
    match e
    case ConnectionFailed => InvalidKnows(c, m); NothingMeant(m, e);
    case Connected(self, immutable) => ConnectedKnows(c, self, immutable, m);
    case MainReply(props, connectionSelf) => MainReplyKnows(c, props, connectionSelf, m);
    case ChannelTypeReply(ok) => ChannelTypeReplyKnows(c, ok, m); NothingMeant(m, e);
    case HandleReply(target) => HandleReplyKnows(c, target, m);
    case InterfacesReply(found, connectionSelf) => InterfacesReplyKnows(c, found, connectionSelf, m);
  }

  lemma AskedReplyKnows(c: Channel, e: Event, m: Meaning)
    requires Inv(c) && Enabled(c, e) && Knows(c, m) && CallOf(e).Some? && c.calls == [CallOf(e).value]
    requires !IsSetUpCall(CallOf(e).value)
    ensures Knows(Step(c, e), After(m, e))
  {
    hide Inv, Knows, After, GotGroupProperties, GotGroupFlags, GotAllMembers, GotLocalPending, GotSelfHandle,
         GotConferenceProperties;
    match e
    case GroupReply(props) => GroupReplyKnows(c, props, m);
    case FlagsReply(flags) => FlagsReplyKnows(c, flags, m);
    case MembersReply(all) => MembersReplyKnows(c, all, m);
    case LocalPendingReply(infos) => LocalPendingReplyKnows(c, infos, m);
    case SelfHandleReply(handle) => SelfHandleReplyKnows(c, handle, m);
    case ConferenceReply => ConferenceReplyKnows(c, m); NothingMeant(m, e);
  }

  lemma ReplyKnows(c: Channel, e: Event, m: Meaning)
    requires Inv(c) && Enabled(c, e) && Knows(c, m) && CallOf(e).Some?
    ensures Knows(Step(c, e), After(m, e))
  {
    AnsweredCall(c, CallOf(e).value);
    hide Inv, Knows, After, Step, CallOf, IsSetUpCall;
    if IsSetUpCall(CallOf(e).value) {
      SetUpReplyKnows(c, e, m);
    } else {
      AskedReplyKnows(c, e, m);
    }
  }

  lemma NothingMeant(m: Meaning, e: Event)
    requires e.ConnectionFailed? || e.ChannelTypeReply? || e.ConferenceReply? || e.ContactsReply? || e.Closed?
    ensures After(m, e) == m
  {
  }

  lemma StepKnows(c: Channel, e: Event, m: Meaning)
    requires Inv(c) && Enabled(c, e) && Knows(c, m)
    ensures Knows(Step(c, e), After(m, e))
  {
    if CallOf(e).Some? {
      ReplyKnows(c, e, m);
    } else if e.MembersChanged? || e.MembersChangedDetailed? {
      SignalKnows(c, e, m);
    } else {
      hide Inv, Knows, After, GotContacts, OnGroupFlagsChanged, OnSelfHandleChanged;
      match e
      case ContactsReply(reply) => ContactsKnow(c, reply, m); NothingMeant(m, e);
      case FlagsChanged(added, removed) => FlagsSignalKnows(c, added, removed, m);
      case SelfChanged(h) => SelfSignalKnows(c, h, m);
      case Closed => InvalidKnows(c, m); NothingMeant(m, e);
    }
  }

  // ---------------------------------------------------------------- the results

  /** In every run, whatever queues and builds did in between: the self handle, initiator, target,
      interfaces and flags are those the events mean, members are known exactly if the events make
      them, and the deltas taken, if well formed, mean the group the events mean. */
  lemma {:induction false} KnowsWhatItWasTold(run: seq<Channel>, events: seq<Event>, i: nat)
    requires IsRun(run, events) && i <= |events|
    ensures Knows(run[i], MeaningOf(events[..i]))
  {
    hide Step, Enabled, Knows, After;
    if i == 0 {
      assert events[..0] == [];
      NothingKnown();
    } else {
      KnowsWhatItWasTold(run, events, i - 1);
      RunKeeps(run, events, i - 1);
      StepKnows(run[i - 1], events[i - 1], MeaningOf(events[..i - 1]));
      assert events[..i][..i - 1] == events[..i - 1];
    }
  }

  lemma NothingKnown()
    ensures Knows(INITIAL_CHANNEL, MeaningOf([]))
  {
    var none: seq<LocalPendingInfo> := [];
    assert InfoHandles(none) == [] && SetOf<Handle>([]) == {};
  }

  /** At rest a channel shows exactly the group the events mean. */
  lemma RestsAsMeant(run: seq<Channel>, events: seq<Event>, i: nat)
    requires IsRun(run, events) && i <= |events|
    requires WellBehaved(run[i].group) && LookupsComplete(run, events, i)
    requires run[i].group.queue == [] && !run[i].group.building
    ensures KeySets(run[i].group.maps) == MeaningOf(events[..i]).sets
  {
    KnowsWhatItWasTold(run, events, i);
    ReplicaIsExact(run, events, i);
    RunKeeps(run, events, i);
    AllApplied(run[i]);
    hide Inv, Knows, ApplyAll, Step, LookupsComplete;
    KnowsMeaning(run[i], MeaningOf(events[..i]));
  }

  lemma KnowsMeaning(c: Channel, m: Meaning)
    requires Knows(c, m) && WellBehaved(c.group)
    ensures ApplyAll(NOBODY, c.group.history.accepted) == m.sets
  {
  }

  lemma AllApplied(c: Channel)
    requires Inv(c) && WellBehaved(c.group) && c.group.queue == [] && !c.group.building
    ensures c.group.history.applied == c.group.history.accepted
  {
    assert Unapplied(c.group) == [];
    assert c.group.history.applied + [] == c.group.history.accepted;
  }
}
