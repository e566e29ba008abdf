/**
 A channel together with the service it replicates.  The service changes its group and announces
 every change; messages from the service arrive in the order they were sent, interleaved in any way
 with the contact builds and other replies the channel is waiting for.
 */
module ChannelConvergence {
  import opened Handles
  import opened GroupDelta
  import opened GroupReplica
  import opened GroupMembership
  import opened ChannelMachine
  import opened ChannelInvariants
  import opened ChannelReadiness
  import opened ChannelHistory

  /** What the service sends: each change as a plain signal and, as its flags promise, a detailed
      one; changes of its flags; and the reply to the request for the group properties. */
  datatype Message =
    | Plain(delta: Delta)
    | Detailed(delta: Delta)
    | NewFlags(added: Flags, removed: Flags)
    | Answer(props: GroupProps)

  datatype System = System(channel: Channel, sets: Sets, flags: Flags, wire: seq<Message>)

  predicate Promises(flags: Flags) {
    FLAG_MEMBERS_CHANGED_DETAILED in flags
  }

  // ---------------------------------------------------------------- what the wire holds

  /** Whether the detailed signal is in use once a message has arrived. */
  function DetailedAfter(detailed: bool, m: Message): bool {
    if m.NewFlags? then
      if Promises(m.added) then true else if Promises(m.removed) then false else detailed
    else detailed
  }

  function DetailedAfterAll(detailed: bool, wire: seq<Message>): bool
    decreases |wire|
  {
    if wire == [] then detailed else DetailedAfterAll(DetailedAfter(detailed, wire[0]), wire[1..])
  }

  /** The deltas a channel with its members will take from a message. */
  function Taken(detailed: bool, m: Message): seq<Delta> {
    if (m.Plain? && !detailed) || (m.Detailed? && detailed) then [m.delta] else []
  }

  function Pending(detailed: bool, wire: seq<Message>): seq<Delta>
    decreases |wire|
  {
    if wire == [] then [] else Taken(detailed, wire[0]) + Pending(DetailedAfter(detailed, wire[0]), wire[1..])
  }

  lemma {:induction false} PendingConcat(detailed: bool, a: seq<Message>, b: seq<Message>)
    ensures Pending(detailed, a + b) == Pending(detailed, a) + Pending(DetailedAfterAll(detailed, a), b)
    ensures DetailedAfterAll(detailed, a + b) == DetailedAfterAll(DetailedAfterAll(detailed, a), b)
    decreases |a|
  {
    if a == [] {
      assert a + b == b;
    } else {
      assert (a + b)[0] == a[0] && (a + b)[1..] == a[1..] + b;
      PendingConcat(DetailedAfter(detailed, a[0]), a[1..], b);
    }
  }

  predicate NoAnswer(wire: seq<Message>) {
    forall m :: m in wire ==> !m.Answer?
  }

  /** Signals only: real flag changes and deltas that change something. */
  predicate Tame(wire: seq<Message>) {
    forall m :: m in wire ==>
                  && !m.Answer?
                  && (m.NewFlags? ==> m.added !! m.removed)
                  && (m.Plain? || m.Detailed? ==> !m.delta.IsEmpty())
  }

  /** A channel knowing the deltas so far, and taking those on the wire, ends up at the service's
      sets and flags. */
  predicate LeadsTo(known: seq<Delta>, detailed: bool, wire: seq<Message>, sets: Sets, flags: Flags) {
    && AllWellFormed(NOBODY, known + Pending(detailed, wire))
    && ApplyAll(NOBODY, known + Pending(detailed, wire)) == sets
    && (DetailedAfterAll(detailed, wire) <==> Promises(flags))
    && Tame(wire)
  }

  function InitialOf(props: GroupProps): Initial
    requires props.Usable()
  {
    Initial(props.members.value, props.localPending.value, props.remotePending.value)
  }

  /** The wire holds the awaited reply, and what follows it leads to the service's state. */
  predicate Answers(wire: seq<Message>, sets: Sets, flags: Flags)
    decreases |wire|
  {
    && wire != []
    && if wire[0].Answer? then
         && wire[0].props.Usable()
         && LeadsTo(InitialDeltas(InitialOf(wire[0].props)), Promises(wire[0].props.flags.value), wire[1..], sets,
                    flags)
       else Answers(wire[1..], sets, flags)
  }

  // ---------------------------------------------------------------- the steps

  datatype Action =
    | Change(delta: Delta, both: bool)
    | ChangeFlags(added: Flags, removed: Flags)
    | SendAnswer(props: GroupProps)
    | Deliver(actorKnown: bool)
    | Other(event: Event)

  function Announcement(flags: Flags, d: Delta, both: bool): seq<Message> {
    [Plain(d)] + (if both || Promises(flags) then [Detailed(d)] else [])
  }

  function InfoHandles(infos: seq<LocalPendingInfo>): seq<Handle> {
    seq(|infos|, i requires 0 <= i < |infos| => infos[i].toBeAdded)
  }

  /** Properties that report the service's present state. */
  predicate Reports(props: GroupProps, sets: Sets, flags: Flags) {
    && props.Usable()
    && props.flags.value == flags
    && Means(InitialOf(props), sets)
  }

  /** The events of the channel that are not messages on this wire. */
  predicate IsOther(e: Event) {
    e.ContactsReply? || e.ConferenceReply? || (e.SelfChanged? && e.newSelf != 0) || e.Closed?
  }

  predicate IsRename(c: Channel, m: Message) {
    (m.Plain? || m.Detailed?) && IsSelfRename(c.group.parties.selfHandle, m.delta)
  }

  /** What may happen next.  Changes are real and well formed, lookups return everything asked
      for, and the self handle is not renamed away. */
  predicate Possible(s: System, a: Action) {
    match a
    case Change(d, _) => WellFormed(s.sets, d) && !d.IsEmpty()
    case ChangeFlags(added, removed) => added !! removed && added !! s.flags && removed <= s.flags
    case SendAnswer(props) =>
      GroupProperties in s.channel.calls && NoAnswer(s.wire) && Reports(props, s.sets, s.flags)
    case Deliver(_) => s.wire != [] && !IsRename(s.channel, s.wire[0]) && (s.wire[0].Answer? ==> s.channel.calls != [])
    case Other(e) => IsOther(e) && Enabled(s.channel, e) && LooksUpEverything(s.channel, e)
  }

  function Received(c: Channel, m: Message, actorKnown: bool): Channel
    requires m.Answer? ==> c.calls != []
  {
    match m
    case Plain(d) => OnMembersChanged(c, d, actorKnown)
    case Detailed(d) => OnMembersChangedDetailed(c, d, actorKnown)
    case NewFlags(added, removed) => OnGroupFlagsChanged(c, added, removed)
    case Answer(props) => GotGroupProperties(c, props)
  }

  function Act(s: System, a: Action): System
    requires Possible(s, a)
  {
    match a
    case Change(d, both) => s.(sets := Apply(s.sets, d), wire := s.wire + Announcement(s.flags, d, both))
    case ChangeFlags(added, removed) =>
      s.(flags := (s.flags + added) - removed, wire := s.wire + [NewFlags(added, removed)])
    case SendAnswer(props) => s.(wire := s.wire + [Answer(props)])
    case Deliver(known) => s.(channel := Received(s.channel, s.wire[0], known), wire := s.wire[1..])
    case Other(e) => s.(channel := Step(s.channel, e))
  }

  /** The channel has just asked for the group properties; signals sent earlier may still arrive. */
  predicate Start(s: System) {
    && Inv(s.channel) && s.channel.calls == [GroupProperties] && s.channel.listening
    && !s.channel.group.history.skipped && s.channel.group.parties.selfHandle != 0
    && Disjoint(s.sets) && FLAG_PROPERTIES in s.flags
    && NoAnswer(s.wire)
  }

  ghost predicate IsHistory(run: seq<System>, actions: seq<Action>) {
    && |run| == |actions| + 1
    && Start(run[0])
    && forall i :: 0 <= i < |actions| ==> Possible(run[i], actions[i]) && run[i + 1] == Act(run[i], actions[i])
  }

  // ---------------------------------------------------------------- the invariant

  predicate Healthy(c: Channel) {
    && Inv(c) && c.listening && c.group.parties.selfHandle != 0
    && WellBehaved(c.group) && Replica(c.group) && CompleteReplica(c.group)
    && (c.ready ==> ListenerAgrees(c.group))
  }

  predicate Synchronised(s: System) {
    && Disjoint(s.sets)
    && Healthy(s.channel)
    && (if s.channel.group.haveMembers then
          LeadsTo(s.channel.group.history.accepted, s.channel.group.usingDetailed, s.wire, s.sets, s.flags)
        else
          && GroupProperties in s.channel.calls
          && (NoAnswer(s.wire) || Answers(s.wire, s.sets, s.flags)))
  }

  /** No message is on its way, no delta waits and no contact build is in flight. */
  predicate Quiescent(s: System) {
    s.channel.group.haveMembers && s.wire == [] && s.channel.group.queue == [] && !s.channel.group.building
  }

  lemma QuiescentAgrees(s: System)
    requires Synchronised(s) && Quiescent(s)
    ensures KeySets(s.channel.group.maps) == s.sets
    ensures s.channel.ready ==> ListenerAgrees(s.channel.group)
  {
    var g := s.channel.group;
    assert Idle(g) && Unapplied(g) == [];
    assert g.history.applied + [] == g.history.accepted;
    assert g.history.accepted + Pending(g.usingDetailed, s.wire) == g.history.applied;
  }

  // ---------------------------------------------------------------- the service's steps

  /** Messages that take the service from one state to another. */
  predicate Describes(extra: seq<Message>, sets: Sets, flags: Flags, sets': Sets, flags': Flags) {
    && AllWellFormed(sets, Pending(Promises(flags), extra))
    && ApplyAll(sets, Pending(Promises(flags), extra)) == sets'
    && (DetailedAfterAll(Promises(flags), extra) <==> Promises(flags'))
    && Tame(extra)
  }

  lemma LeadsToMore(known: seq<Delta>, detailed: bool, wire: seq<Message>, sets: Sets, flags: Flags,
                    extra: seq<Message>, sets': Sets, flags': Flags)
    requires LeadsTo(known, detailed, wire, sets, flags) && Describes(extra, sets, flags, sets', flags')
    ensures LeadsTo(known, detailed, wire + extra, sets', flags')
  {
    PendingConcat(detailed, wire, extra);
    var now, more := known + Pending(detailed, wire), Pending(Promises(flags), extra);
    assert known + Pending(detailed, wire + extra) == now + more;
    ApplyAllConcat(NOBODY, now, more);
  }

  lemma {:induction false} AnswersMore(wire: seq<Message>, sets: Sets, flags: Flags,
                                       extra: seq<Message>, sets': Sets, flags': Flags)
    requires Answers(wire, sets, flags) && Describes(extra, sets, flags, sets', flags')
    ensures Answers(wire + extra, sets', flags')
    decreases |wire|
  {
    assert (wire + extra)[0] == wire[0] && (wire + extra)[1..] == wire[1..] + extra;
    if wire[0].Answer? {
      LeadsToMore(InitialDeltas(InitialOf(wire[0].props)), Promises(wire[0].props.flags.value), wire[1..], sets, flags,
                  extra, sets', flags');
    } else {
      AnswersMore(wire[1..], sets, flags, extra, sets', flags');
    }
  }

  /** However many signals announce a change, exactly one of them will be taken. */
  lemma AnnouncedOnce(flags: Flags, d: Delta, both: bool)
    ensures Pending(Promises(flags), Announcement(flags, d, both)) == [d]
    ensures DetailedAfterAll(Promises(flags), Announcement(flags, d, both)) == Promises(flags)
  {
    var p, w := Promises(flags), Announcement(flags, d, both);
    var rest := w[1..];
    assert w[0] == Plain(d);
    assert rest == if both || p then [Detailed(d)] else [];
    if rest != [] {
      assert rest[0] == Detailed(d) && rest[1..] == [];
      assert Pending(p, rest) == Taken(p, Detailed(d)) + Pending(p, []);
      assert DetailedAfterAll(p, rest) == DetailedAfterAll(p, []);
    }
    assert Pending(p, w) == Taken(p, Plain(d)) + Pending(p, rest);
  }

  lemma {:induction false} LocalDeltasDescribe(s: Sets, infos: seq<LocalPendingInfo>)
    requires SetOf(InfoHandles(infos)) !! s.members + s.remotePending
    ensures AllWellFormed(s, LocalDeltas(infos))
    ensures ApplyAll(s, LocalDeltas(infos)) == s.(localPending := s.localPending + SetOf(InfoHandles(infos)))
    decreases |infos|
  {
    var hs, ds := InfoHandles(infos), LocalDeltas(infos);
    if infos == [] {
      assert SetOf(hs) == {};
    } else {
      var h := infos[0].toBeAdded;
      assert hs == [h] + InfoHandles(infos[1..]) && ds[1..] == LocalDeltas(infos[1..]);
      SetOfConcat([h], InfoHandles(infos[1..]));
      assert SetOf([h]) == {h} && h in hs;
      var s' := Apply(s, ds[0]);
      assert s' == s.(localPending := s.localPending + {h});
      LocalDeltasDescribe(s', infos[1..]);
    }
  }

  /** Properties known of a group's members mean some sets. */
  predicate Means(i: Initial, sets: Sets) {
    && SetOf(i.members) == sets.members
    && SetOf(InfoHandles(i.localPending)) == sets.localPending
    && SetOf(i.remotePending) == sets.remotePending
  }

  /** The deltas made up from the members a group was reported to have describe that group. */
  lemma InitialDeltasDescribe(i: Initial, sets: Sets)
    requires Means(i, sets) && Disjoint(sets)
    ensures AllWellFormed(NOBODY, InitialDeltas(i))
    ensures ApplyAll(NOBODY, InitialDeltas(i)) == sets
  {
    var ds := InitialDeltas(i);
    assert ds[1..] == LocalDeltas(i.localPending);
    assert SetOf<Handle>([]) == {};
    var s := Apply(NOBODY, ds[0]);
    assert s == Sets(sets.members, {}, sets.remotePending);
    LocalDeltasDescribe(s, i.localPending);
  }

  lemma {:induction false} AnswerArrives(wire: seq<Message>, props: GroupProps, sets: Sets, flags: Flags)
    requires NoAnswer(wire) && Reports(props, sets, flags) && Disjoint(sets)
    ensures Answers(wire + [Answer(props)], sets, flags)
    decreases |wire|
  {
    if wire == [] {
      InitialDeltasDescribe(InitialOf(props), sets);
      var ds := InitialDeltas(InitialOf(props));
      assert (wire + [Answer(props)])[1..] == [];
      assert ds + [] == ds;
      assert LeadsTo(ds, Promises(flags), [], sets, flags);
    } else {
      assert (wire + [Answer(props)])[0] == wire[0] && (wire + [Answer(props)])[1..] == wire[1..] + [Answer(props)];
      assert wire[0] in wire;
      AnswerArrives(wire[1..], props, sets, flags);
    }
  }

  lemma ServiceActs(s: System, a: Action)
    requires Synchronised(s) && Possible(s, a)
    requires a.Change? || a.ChangeFlags? || a.SendAnswer?
    ensures Synchronised(Act(s, a))
  {
    hide Healthy;
    match a
    case SendAnswer(props) =>
      NoMembersYet(s);
      AnswerArrives(s.wire, props, s.sets, s.flags);
    case Change(d, both) =>
      ApplyKeepsDisjoint(s.sets, d);
      AnnouncedOnce(s.flags, d, both);
      var extra, sets' := Announcement(s.flags, d, both), Apply(s.sets, d);
      assert [d][0] == d && [d][1..] == [];
      assert ApplyAll(s.sets, [d]) == ApplyAll(Apply(s.sets, d), []) == sets';
      assert AllWellFormed(s.sets, [d]);
      ServiceSays(s, extra, sets', s.flags);
    case ChangeFlags(added, removed) =>
      var extra, flags' := [NewFlags(added, removed)], (s.flags + added) - removed;
      assert extra[1..] == [];
      assert Pending(Promises(s.flags), extra)
          == Taken(Promises(s.flags), extra[0]) + Pending(DetailedAfter(Promises(s.flags), extra[0]), []);
      assert DetailedAfterAll(Promises(s.flags), extra)
             == DetailedAfterAll(DetailedAfter(Promises(s.flags), extra[0]), []);
      ServiceSays(s, extra, s.sets, flags');
  }

  lemma NoMembersYet(s: System)
    requires Synchronised(s) && GroupProperties in s.channel.calls
    ensures !s.channel.group.haveMembers
  {
    AnsweredCall(s.channel, GroupProperties);
    assert Pipeline(s.channel)[0] == GroupProperties;
  }

  lemma ServiceSays(s: System, extra: seq<Message>, sets': Sets, flags': Flags)
    requires Synchronised(s) && Disjoint(sets') && Describes(extra, s.sets, s.flags, sets', flags')
    ensures Synchronised(s.(sets := sets', flags := flags', wire := s.wire + extra))
  {
    hide Healthy, Describes, LeadsTo;
    if s.channel.group.haveMembers {
      LeadsToMore(s.channel.group.history.accepted, s.channel.group.usingDetailed, s.wire, s.sets, s.flags, extra,
                  sets', flags');
    } else if Answers(s.wire, s.sets, s.flags) {
      AnswersMore(s.wire, s.sets, s.flags, extra, sets', flags');
    } else {
      DescribesNoAnswer(extra, s.sets, s.flags, sets', flags');
    }
  }

  lemma DescribesNoAnswer(extra: seq<Message>, sets: Sets, flags: Flags, sets': Sets, flags': Flags)
    requires Describes(extra, sets, flags, sets', flags')
    ensures NoAnswer(extra)
  {
  }

  // ---------------------------------------------------------------- the channel's steps

  /** The event of the channel a message causes. */
  function EventOf(m: Message, actorKnown: bool): Event {
    match m
    case Plain(d) => MembersChanged(d, actorKnown)
    case Detailed(d) => MembersChangedDetailed(d, actorKnown)
    case NewFlags(added, removed) => FlagsChanged(added, removed)
    case Answer(props) => GroupReply(props)
  }

  /** The facts convergence depends on, apart from the deltas accepted. */
  predicate Steadfast(c: Channel, n: Channel) {
    && n.group.haveMembers == c.group.haveMembers
    && n.group.usingDetailed == c.group.usingDetailed
    && n.group.parties.selfHandle == c.group.parties.selfHandle
    && n.listening == c.listening
    && n.calls == c.calls
  }

  predicate Keeps(c: Channel, n: Channel) {
    Steadfast(c, n) && n.group.history.accepted == c.group.history.accepted
  }

  lemma BuildKeepsFacts(c: Channel)
    ensures Keeps(c, BuildContacts(c))
  {
    hide NothingToBuild, ToBuild;
  }

  lemma StartKeepsFacts(c: Channel)
    requires c.group.queue != []
    ensures Keeps(c, c.(group := StartDelta(c.group)))
  {
    hide WorkFor;
  }

  lemma ReadyKeepsFacts(c: Channel)
    ensures Keeps(c, SetReady(c))
  {
    hide ContactSets;
  }

  lemma ProcessKeepsFacts(c: Channel)
    ensures Keeps(c, ProcessMembersChanged(c))
  {
    if c.group.queue != [] {
      hide BuildContacts, StartDelta;
      StartKeepsFacts(c);
      BuildKeepsFacts(c.(group := StartDelta(c.group)));
    } else if c.group.parties.retrieveSelf {
      hide BuildContacts;
      BuildKeepsFacts(c.(group := c.group.(parties := c.group.parties.(retrieveSelf := false))));
    } else {
      hide SetReady;
      ReadyKeepsFacts(c);
    }
  }

  lemma ContinueKeepsFacts(c: Channel)
    ensures Keeps(c.(calls := [], listening := false), ContinueIntrospection(c).(calls := [], listening := false))
    ensures c.listening ==> ContinueIntrospection(c).listening
  {
  }

  /** Receiving a delta that is no self rename: it is accepted exactly when members are known. */
  lemma ReceiveKeepsFacts(c: Channel, d: Delta, actorKnown: bool)
    requires !IsSelfRename(c.group.parties.selfHandle, d) && !d.IsEmpty()
    ensures var n := c.(group := Receive(c.group, d, actorKnown));
            && Steadfast(c, n)
            && n.group.history.accepted == c.group.history.accepted + (if c.group.haveMembers then [d] else [])
  {
  }

  /** A signal on a channel that has its members: the delta is taken exactly when it should be. */
  lemma MembersSignal(c: Channel, m: Message, actorKnown: bool)
    requires (m.Plain? || m.Detailed?) && !IsRename(c, m) && !m.delta.IsEmpty()
    ensures var n := Received(c, m, actorKnown);
            && Steadfast(c, n)
            && n.group.history.accepted
               == c.group.history.accepted + (if c.group.haveMembers then Taken(c.group.usingDetailed, m) else [])
  {
    hide ProcessMembersChanged, DoMembersChanged, IsSelfRename;
    DeltaSignal(c, m.delta, actorKnown);
  }

  lemma DeltaSignal(c: Channel, d: Delta, actorKnown: bool)
    requires !IsSelfRename(c.group.parties.selfHandle, d) && !d.IsEmpty()
    ensures var n := DoMembersChanged(c, d, actorKnown);
            && Steadfast(c, n)
            && n.group.history.accepted == c.group.history.accepted + (if c.group.haveMembers then [d] else [])
  {
    hide ProcessMembersChanged, Receive, IsSelfRename;
    ReceiveKeepsFacts(c, d, actorKnown);
    ProcessKeepsFacts(c.(group := Receive(c.group, d, actorKnown)));
  }

  /** The reply with the group properties: exactly its deltas are accepted. */
  lemma AnswerSignal(c: Channel, props: GroupProps)
    requires Inv(c) && c.listening && GroupProperties in c.calls && props.Usable() && c.group.parties.selfHandle != 0
    ensures var n := GotGroupProperties(c, props);
            && n.group.haveMembers && n.listening && n.group.parties.selfHandle != 0
            && (n.group.usingDetailed <==> Promises(props.flags.value))
            && n.group.history.accepted == InitialDeltas(InitialOf(props))
  {
    BeforeAnswer(c);
    var c1 := Answered(c, GroupProperties);
    AnswerTakesMembers(c1, props);
    hide ProcessMembersChanged, ContinueIntrospection, Inv, InitialDeltas, ExtractGroupProps, Untouched;
    var h := c1.(group := HaveInitialMembers(AnsweredGroup(c1.group, props)));
    assert h.group.history.accepted == [] + InitialDeltas(InitialOf(props)) == InitialDeltas(InitialOf(props));
    ProcessKeepsFacts(h);
    ContinueKeepsFacts(ProcessMembersChanged(h));
  }

  /** The group with the properties of the reply in place. */
  function AnsweredGroup(g: Group, props: GroupProps): Group
    requires props.Usable()
  {
    g.(flags := props.flags.value, usingDetailed := Promises(props.flags.value), initial := InitialOf(props),
       parties := WithSelf(g.parties, props.selfHandle.value))
  }

  lemma AnswerTakesMembers(c: Channel, props: GroupProps)
    requires props.Usable() && c.interfaces.group && (c.group.usingDetailed <==> Promises(c.group.flags))
    ensures ExtractGroupProps(c, props)
         == ProcessMembersChanged(c.(group := HaveInitialMembers(AnsweredGroup(c.group, props))))
  {
    hide ProcessMembersChanged, HaveInitialMembers;
    SetFlagsAgrees(c.group, props.flags.value);
  }

  /** What is known of a channel that waits for its group properties. */
  lemma BeforeAnswer(c: Channel)
    requires Inv(c) && GroupProperties in c.calls
    ensures c.interfaces.group && c.calls != [] && Untouched(c.group)
    ensures c.group.usingDetailed <==> Promises(c.group.flags)
  {
    AnsweredCall(c, GroupProperties);
    assert Pipeline(c)[0] == GroupProperties;
  }

  lemma ContactsEvent(c: Channel, reply: LookupReply)
    requires c.lookups != []
    ensures Keeps(c, GotContacts(c, reply))
  {
    hide AfterWork, EmissionFor, ProcessMembersChanged;
    ProcessKeepsFacts(Applied(c, reply));
  }

  lemma OtherEvent(c: Channel, e: Event)
    requires Inv(c) && c.listening && IsOther(e) && Enabled(c, e) && c.group.parties.selfHandle != 0
    ensures var n := Step(c, e);
            && n.group.haveMembers == c.group.haveMembers && n.listening && n.group.parties.selfHandle != 0
            && n.group.usingDetailed == c.group.usingDetailed
            && n.group.history.accepted == c.group.history.accepted
            && (GroupProperties in c.calls ==> GroupProperties in n.calls)
  {
    if e.ConferenceReply? {
      AnsweredCall(c, ConferenceProperties);
    }
    hide Inv, GotContacts, ContinueIntrospection;
    match e
    case ContactsReply(reply) => ContactsEvent(c, reply);
    case ConferenceReply => ContinueKeepsFacts(Answered(c, ConferenceProperties).(introspectingConference := false));
    case _ =>
  }

  lemma HealthyStep(c: Channel, e: Event)
    requires Healthy(c) && Enabled(c, e) && LooksUpEverything(c, e)
    requires AllWellFormed(NOBODY, Step(c, e).group.history.accepted)
    requires Step(c, e).group.parties.selfHandle != 0 && Step(c, e).listening
    ensures Healthy(Step(c, e))
  {
    hide Step;
    StepKeeps(c, e);
    StepIsCareful(c, e);
    hide Inv, Replica, CompleteReplica, ListenerAgrees, AllWellFormed, Basis;
    assert WellBehaved(Step(c, e).group);
    StepKeepsReplica(c, e);
    StepKeepsComplete(c, e);
  }

  lemma LeadsToNext(known: seq<Delta>, detailed: bool, wire: seq<Message>, sets: Sets, flags: Flags)
    requires LeadsTo(known, detailed, wire, sets, flags) && wire != []
    ensures LeadsTo(known + Taken(detailed, wire[0]), DetailedAfter(detailed, wire[0]), wire[1..], sets, flags)
    ensures AllWellFormed(NOBODY, known + Taken(detailed, wire[0]))
    ensures AllWellFormed(NOBODY, known)
    ensures Tame([wire[0]])
  {
    var now, rest := known + Taken(detailed, wire[0]), Pending(DetailedAfter(detailed, wire[0]), wire[1..]);
    assert known + Pending(detailed, wire) == now + rest;
    ApplyAllConcat(NOBODY, now, rest);
    ApplyAllConcat(NOBODY, known, Taken(detailed, wire[0]));
    assert wire[0] in wire;
  }

  lemma FlagsSignal(c: Channel, added: Flags, removed: Flags)
    requires FlagsAgree(c) && c.interfaces.group && added !! removed
    ensures var n := OnGroupFlagsChanged(c, added, removed);
            && Keeps(c.(group := c.group.(usingDetailed := n.group.usingDetailed)), n)
            && n.group.usingDetailed == DetailedAfter(c.group.usingDetailed, NewFlags(added, removed))
  {
    SetFlagsAgrees(c.group, ChangedFlags(c.group.flags, added, removed));
  }

  /** What a signal does to a channel that has its members. */
  lemma SignalFacts(c: Channel, m: Message, known: bool)
    requires Inv(c) && c.listening && Tame([m]) && !IsRename(c, m)
    ensures Enabled(c, EventOf(m, known)) && Step(c, EventOf(m, known)) == Received(c, m, known)
    ensures var n := Received(c, m, known);
            && n.group.haveMembers == c.group.haveMembers && n.listening && n.calls == c.calls
            && n.group.parties.selfHandle == c.group.parties.selfHandle
            && n.group.usingDetailed == DetailedAfter(c.group.usingDetailed, m)
            && n.group.history.accepted
               == c.group.history.accepted + (if c.group.haveMembers then Taken(c.group.usingDetailed, m) else [])
  {
    assert m in [m];
    assert Chain(c) && FlagsAgree(c);
    hide Inv, DoMembersChanged, SetFlags, Chain;
    match m
    case NewFlags(added, removed) =>
      FlagsSignal(c, added, removed);
    case _ =>
      MembersSignal(c, m, known);
  }

  /** A message reaching a channel that has its members. */
  lemma DeliverySynchronises(s: System, known: bool)
    requires Synchronised(s) && Possible(s, Deliver(known)) && s.channel.group.haveMembers
    ensures Synchronised(Act(s, Deliver(known)))
  {
    var c, m := s.channel, s.wire[0];
    LeadsToNext(c.group.history.accepted, c.group.usingDetailed, s.wire, s.sets, s.flags);
    HealthyBasics(c);
    SignalFacts(c, m, known);
    assert m in [m];
    hide LeadsTo, Inv, Healthy, Received, Step;
    HealthyStep(c, EventOf(m, known));
  }

  /** A message reaching a channel still waiting for the group properties. */
  lemma EarlyDeliverySynchronises(s: System, known: bool)
    requires Synchronised(s) && Possible(s, Deliver(known)) && !s.channel.group.haveMembers
    requires !s.wire[0].Answer?
    ensures Synchronised(Act(s, Deliver(known)))
  {
    EarlySignalFacts(s.channel, s.wire[0], known);
    assert forall x :: x in s.wire[1..] ==> x in s.wire;
    hide LeadsTo, Inv, Healthy, Received, Step;
    EarlySignalHealthy(s.channel, s.wire[0], known);
  }

  lemma EarlySignalHealthy(c: Channel, m: Message, known: bool)
    requires Healthy(c) && !c.group.haveMembers && !m.Answer?
    ensures Healthy(Received(c, m, known))
  {
    EarlySignalFacts(c, m, known);
    hide Inv, Replica, CompleteReplica, ListenerAgrees, Received, Step;
    HealthyStep(c, EventOf(m, known));
  }

  lemma AnswerHealthy(c: Channel, props: GroupProps)
    requires Healthy(c) && GroupProperties in c.calls && props.Usable()
    requires AllWellFormed(NOBODY, InitialDeltas(InitialOf(props)))
    ensures Healthy(GotGroupProperties(c, props))
  {
    hide GotGroupProperties, InitialDeltas, InitialOf, Promises, AllWellFormed, Healthy, Inv;
    HealthyBasics(c);
    AnswerSignal(c, props);
    assert Step(c, GroupReply(props)) == GotGroupProperties(c, props);
    HealthyStep(c, GroupReply(props));
  }

  lemma HealthyBasics(c: Channel)
    requires Healthy(c)
    ensures Inv(c) && c.listening && c.group.parties.selfHandle != 0
  {
  }

  /** The reply reaching the channel that waits for it. */
  lemma AnswerSynchronises(s: System, props: GroupProps)
    requires Synchronised(s) && !s.channel.group.haveMembers
    requires s.wire != [] && s.wire[0] == Answer(props)
    ensures GroupProperties in s.channel.calls
    ensures Synchronised(s.(channel := GotGroupProperties(s.channel, props), wire := s.wire[1..]))
  {
    hide GotGroupProperties, LeadsTo, Healthy, Disjoint;
    assert s.wire[0] in s.wire && Answers(s.wire, s.sets, s.flags);
    AnswerTaken(s, props);
  }

  lemma AnswerTaken(s: System, props: GroupProps)
    requires Healthy(s.channel) && GroupProperties in s.channel.calls && Disjoint(s.sets)
    requires s.wire != [] && s.wire[0] == Answer(props) && props.Usable()
    requires LeadsTo(InitialDeltas(InitialOf(props)), Promises(props.flags.value), s.wire[1..], s.sets, s.flags)
    ensures Synchronised(s.(channel := GotGroupProperties(s.channel, props), wire := s.wire[1..]))
  {
    hide GotGroupProperties, LeadsTo, Healthy, Disjoint, Inv, InitialDeltas, InitialOf, Promises, Answers, NoAnswer;
    AnswerIsWellFormed(props, s.wire[1..], s.sets, s.flags);
    HealthyBasics(s.channel);
    AnswerHealthy(s.channel, props);
    AnswerSignal(s.channel, props);
  }

  lemma AnswerIsWellFormed(props: GroupProps, wire: seq<Message>, sets: Sets, flags: Flags)
    requires props.Usable()
    requires LeadsTo(InitialDeltas(InitialOf(props)), Promises(props.flags.value), wire, sets, flags)
    ensures AllWellFormed(NOBODY, InitialDeltas(InitialOf(props)))
  {
    ApplyAllConcat(NOBODY, InitialDeltas(InitialOf(props)), Pending(Promises(props.flags.value), wire));
  }

  /** Before the members are known, a signal is ignored apart from its flags. */
  lemma EarlySignalFacts(c: Channel, m: Message, known: bool)
    requires Inv(c) && c.listening && !c.group.haveMembers && !m.Answer?
    ensures Enabled(c, EventOf(m, known)) && Step(c, EventOf(m, known)) == Received(c, m, known)
    ensures var n := Received(c, m, known);
            && !n.group.haveMembers && n.listening && n.calls == c.calls
            && n.group.parties.selfHandle == c.group.parties.selfHandle
            && n.group.history.accepted == c.group.history.accepted
  {
    hide Inv;
  }

  lemma OtherSynchronises(s: System, e: Event)
    requires Synchronised(s) && Possible(s, Other(e))
    ensures Synchronised(Act(s, Other(e)))
  {
    HealthyBasics(s.channel);
    OtherEvent(s.channel, e);
    hide LeadsTo, Inv, Healthy, Step;
    OtherHealthy(s.channel, e);
  }

  lemma OtherHealthy(c: Channel, e: Event)
    requires Healthy(c) && IsOther(e) && Enabled(c, e) && LooksUpEverything(c, e)
    ensures Healthy(Step(c, e))
  {
    OtherEvent(c, e);
    assert WellBehaved(c.group);
    hide Inv, Replica, CompleteReplica, ListenerAgrees, Step;
    HealthyStep(c, e);
  }

  lemma ReceivedAnswer(c: Channel, props: GroupProps, known: bool)
    requires c.calls != []
    ensures Received(c, Answer(props), known) == GotGroupProperties(c, props)
  {
  }

  lemma ActSynchronises(s: System, a: Action)
    requires Synchronised(s) && Possible(s, a)
    ensures Synchronised(Act(s, a))
  {
    hide Synchronised, Received, Apply, Announcement;
    match a
    case Deliver(known) =>
      if s.channel.group.haveMembers {
        DeliverySynchronises(s, known);
      } else if s.wire[0].Answer? {
        AnswerSynchronises(s, s.wire[0].props);
        assert Received(s.channel, s.wire[0], known) == GotGroupProperties(s.channel, s.wire[0].props) by {
          ReceivedAnswer(s.channel, s.wire[0].props, known);
        }
      } else {
        EarlyDeliverySynchronises(s, known);
      }
    case Other(e) => OtherSynchronises(s, e);
    case _ => ServiceActs(s, a);
  }

  lemma StartSynchronises(s: System)
    requires Start(s)
    ensures Synchronised(s)
  {
    AnsweredCall(s.channel, GroupProperties);
    assert Pipeline(s.channel)[0] == GroupProperties;
    BlankIsHealthy(s.channel);
  }

  /** A channel that has no members yet is in good order. */
  lemma BlankIsHealthy(c: Channel)
    requires Inv(c) && c.listening && c.group.parties.selfHandle != 0 && !c.group.history.skipped
    requires !c.group.haveMembers && Pipeline(c) != []
    ensures Healthy(c)
  {
    assert Untouched(c.group);
    assert KeySets(NO_MAPS) == NOBODY;
  }

  lemma {:induction false} HistorySynchronises(run: seq<System>, actions: seq<Action>, i: nat)
    requires IsHistory(run, actions) && i <= |actions|
    ensures Synchronised(run[i])
  {
    hide Synchronised, Act, Possible, Start;
    if i == 0 {
      StartSynchronises(run[0]);
    } else {
      HistorySynchronises(run, actions, i - 1);
      ActSynchronises(run[i - 1], actions[i - 1]);
    }
  }

  /** Convergence.  For every interleaving of service changes, deliveries and replies, whenever
      nothing is on its way, waiting or being built, the channel's three lists hold exactly the
      service's members, local pending and remote pending handles, and a listener that has
      followed the signals since readiness holds them too. */
  lemma Converges(run: seq<System>, actions: seq<Action>, i: nat)
    requires IsHistory(run, actions) && i <= |actions|
    requires Quiescent(run[i])
    ensures KeySets(run[i].channel.group.maps) == run[i].sets
    ensures run[i].channel.ready ==>
              var g := run[i].channel.group; Hear(g.history.snapshot, g.history.emitted) == ContactSets(g.maps)
  {
    hide Synchronised, Act, Possible, Start;
    HistorySynchronises(run, actions, i);
    QuiescentAgrees(run[i]);
  }

  // ---------------------------------------------------------------- where the assumptions matter

  /** Of the two signals that announce one change, in either order, exactly one is taken. */
  lemma ExactlyOneIsTaken(c: Channel, d: Delta, k1: bool, k2: bool)
    requires c.group.haveMembers && !d.IsEmpty() && !IsSelfRename(c.group.parties.selfHandle, d)
    ensures OnMembersChangedDetailed(OnMembersChanged(c, d, k1), d, k2).group.history.accepted
            == c.group.history.accepted + [d]
    ensures OnMembersChanged(OnMembersChangedDetailed(c, d, k1), d, k2).group.history.accepted
            == c.group.history.accepted + [d]
  {
    hide DoMembersChanged;
    MembersSignal(c, if c.group.usingDetailed then Detailed(d) else Plain(d), k1);
    MembersSignal(c, if c.group.usingDetailed then Detailed(d) else Plain(d), k2);
  }

  /** A change that renames the self handle is never applied.  The lists are then right exactly when
      the change removes strangers and adds nobody new, so never when the handle was in the group. */
  lemma SelfRenameIsDropped(c: Channel, d: Delta, actorKnown: bool, sets: Sets)
    requires c.group.haveMembers && !d.IsEmpty() && IsSelfRename(c.group.parties.selfHandle, d)
    requires KeySets(c.group.maps) == sets
    ensures var g := DoMembersChanged(c, d, actorKnown).group;
            && g.maps == c.group.maps && g.queue == c.group.queue
            && (Disjoint(sets) && ListsDisjoint(d) ==> (KeySets(g.maps) == Apply(sets, d) <==> ChangesNobody(sets, d)))
            && (c.group.parties.selfHandle in Everyone(sets) ==> KeySets(g.maps) != Apply(sets, d))
  {
    RenameKeepsReplica(c, d, actorKnown);
    RemovedAreStrangers(sets, d, c.group.parties.selfHandle);
    hide *;
    if Disjoint(sets) && ListsDisjoint(d) {
      ApplyChangesNobodyIff(sets, d);
    }
  }

  lemma RenameKeepsReplica(c: Channel, d: Delta, actorKnown: bool)
    requires c.group.haveMembers && IsSelfRename(c.group.parties.selfHandle, d)
    ensures var n := DoMembersChanged(c, d, actorKnown);
            n == c.(group := c.group.(parties := n.group.parties))
  {
    hide ProcessMembersChanged;
  }
}
