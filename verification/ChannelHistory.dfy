/**
 The membership maps over whole runs: they are what the applied deltas mean, and every listener
 that follows the signals knows it.
 */
module ChannelHistory {
  import opened Handles
  import opened GroupDelta
  import opened GroupReplica
  import opened GroupMembership
  import opened ChannelMachine
  import opened ChannelInvariants
  import opened ChannelReadiness

  predicate Within(a: Sets, b: Sets) {
    a.members <= b.members && a.localPending <= b.localPending && a.remotePending <= b.remotePending
  }

  /** The sets the deltas applied so far describe. */
  function AppliedView(g: Group): Sets {
    ApplyAll(NOBODY, g.history.applied)
  }

  /** Every delta accepted so far was well formed where it applies, and no build was skipped. */
  predicate WellBehaved(g: Group) {
    !g.history.skipped && AllWellFormed(NOBODY, g.history.accepted)
  }

  /** Nobody is shown in a list the applied deltas do not put them in, and every local pending
      member has its change information. */
  predicate Replica(g: Group) {
    && AllNamed(g.maps)
    && Within(KeySets(g.maps), AppliedView(g))
    && g.maps.localPending.Keys <= g.maps.info.Keys
  }

  predicate CompleteReplica(g: Group) {
    KeySets(g.maps) == AppliedView(g)
  }

  /** A listener following the signals since readiness holds the channel's own sets. */
  predicate ListenerAgrees(g: Group) {
    Hear(g.history.snapshot, g.history.emitted) == ContactSets(g.maps)
  }

  // ---------------------------------------------------------------- deltas

  lemma {:induction false} ViewIsDisjoint(s: Sets, ds: seq<Delta>)
    requires Disjoint(s) && AllWellFormed(s, ds)
    ensures Disjoint(ApplyAll(s, ds))
    decreases |ds|
  {
    if ds != [] {
      ApplyKeepsDisjoint(s, ds[0]);
      ViewIsDisjoint(Apply(s, ds[0]), ds[1..]);
    }
  }

  /** A replica that lags behind on some contacts never gains a wrong one. */
  lemma ApplicationStaysWithin(s: Sets, v: Sets, d: Delta, built: set<Handle>)
    requires Within(s, v) && Disjoint(v) && WellFormed(v, d)
    ensures Disjoint(s) && EntersFromOutside(s, d)
    ensures Within(ReplicaApply(s, d, built), Apply(v, d))
  {
  }

  lemma CurrentIsWellFormed(g: Group)
    requires WellBehaved(g) && InOrder(g) && g.work.current.Some?
    ensures Disjoint(AppliedView(g)) && WellFormed(AppliedView(g), g.work.current.value)
  {
    var d := g.work.current.value;
    assert g.history.accepted == g.history.applied + ([d] + g.queue);
    ApplyAllConcat(NOBODY, g.history.applied, [d] + g.queue);
    assert ([d] + g.queue)[0] == d;
    ViewIsDisjoint(NOBODY, g.history.applied);
  }

  // ---------------------------------------------------------------- one build

  lemma NoWorkChangesNobody(m: Maps, built: set<Handle>)
    ensures KeySets(AfterWork(m, NO_WORK, built)) == KeySets(m)
    ensures AfterWork(m, NO_WORK, built).info.Keys == m.info.Keys
    ensures AllNamed(m) ==> AllNamed(AfterWork(m, NO_WORK, built))
    ensures ContactSets(AfterWork(m, NO_WORK, built)) == ContactSets(m)
    ensures !Noteworthy(EmissionFor(m, NO_WORK, built))
  {
    var n := AfterAdditions(m, NO_WORK, built);
    assert n.members == m.members && n.localPending == m.localPending && n.remotePending == m.remotePending;
    var r := AfterWork(m, NO_WORK, built);
    assert r.members == m.members && r.localPending == m.localPending && r.remotePending == m.remotePending;
    assert WithHandles(BuiltMembers(NO_WORK, built)) == {} && WithHandles(BuiltLocal(NO_WORK, built)) == {};
    assert WithHandles(BuiltRemote(NO_WORK, built)) == {};
  }

  lemma FinishKeepsReplica(g: Group, built: set<Handle>)
    requires WellBehaved(g) && InOrder(g) && Matches(g.work, g.maps) && Replica(g)
    ensures var m := AfterWork(g.maps, g.work, built);
            var v := ApplyAll(NOBODY, g.history.applied
                              + (if g.work.current.Some? then [g.work.current.value] else []));
            && AllNamed(m) && Within(KeySets(m), v) && m.localPending.Keys <= m.info.Keys
            && (ToAdd(g.work) <= built && CompleteReplica(g) ==> KeySets(m) == v)
  {
    if g.work.current.None? {
      hide AfterWork;
      NoWorkChangesNobody(g.maps, built);
      assert g.history.applied + [] == g.history.applied;
    } else {
      var d := g.work.current.value;
      CurrentIsWellFormed(g);
      hide AfterWork, WorkFor, AllWellFormed, InOrder;
      ApplicationStaysWithin(KeySets(g.maps), AppliedView(g), d, built);
      AfterWorkIs(g.maps, d, built);
      ApplyOneMore(NOBODY, g.history.applied, d);
      InfoCovers(g.maps, d, built);
      if ToAdd(g.work) <= built {
        AgreesWithServiceIff(g.maps, d, built);
      }
    }
  }

  lemma InfoCovers(m: Maps, d: Delta, built: set<Handle>)
    requires Disjoint(KeySets(m)) && ListsDisjoint(d) && AllNamed(m) && m.localPending.Keys <= m.info.Keys
    ensures var n := AfterWork(m, WorkFor(NO_WORK, m, d), built); n.localPending.Keys <= n.info.Keys
  {
    WorkIs(m, d);
    AfterWorkIs(m, d, built);
    hide AfterWork, WorkFor;
    var n := AfterWork(m, WorkFor(NO_WORK, m, d), built);
    assert n.localPending.Keys == ReplicaApply(KeySets(m), d, built).localPending;
    assert BuiltLocal(WorkFor(NO_WORK, m, d), built) == (SetOf(d.localPending) - m.localPending.Keys) * built;
  }

  lemma FinishKeepsListener(g: Group, built: set<Handle>)
    requires WellBehaved(g) && InOrder(g) && Matches(g.work, g.maps) && Replica(g)
    requires ToAdd(g.work) <= built
    requires ListenerAgrees(g)
    ensures var e := EmissionFor(g.maps, g.work, built);
            Hear(g.history.snapshot, if Noteworthy(e) then g.history.emitted + [e] else g.history.emitted)
            == ContactSets(AfterWork(g.maps, g.work, built))
  {
    var e := EmissionFor(g.maps, g.work, built);
    HearOneMore(g.history.snapshot, g.history.emitted, e);
    if g.work.current.None? {
      hide AfterWork, EmissionFor;
      NoWorkChangesNobody(g.maps, built);
    } else {
      var d := g.work.current.value;
      CurrentIsWellFormed(g);
      ApplicationStaysWithin(KeySets(g.maps), AppliedView(g), d, built);
      WorkIs(g.maps, d);
      hide AfterWork, WorkFor, EmissionFor, AllWellFormed, InOrder, Replay;
      ListenerAgreesIff(g.maps, d, built);
      assert MovedBy(KeySets(g.maps), d) <= g.work.addingMembers;
      if !Noteworthy(e) {
        UnemittedTellsNothing(ContactSets(g.maps), e);
      }
    }
  }

  // ---------------------------------------------------------------- one event

  lemma PrefixBehaves(a: Group, b: Group)
    requires WellBehaved(b) && a.history.accepted <= b.history.accepted
    requires a.history.skipped ==> b.history.skipped
    ensures WellBehaved(a)
  {
    var rest := b.history.accepted[|a.history.accepted|..];
    assert b.history.accepted == a.history.accepted + rest;
    ApplyAllConcat(NOBODY, a.history.accepted, rest);
  }

  lemma EventBehaves(c: Channel, e: Event)
    requires Inv(c) && Enabled(c, e) && WellBehaved(Step(c, e).group)
    ensures WellBehaved(c.group)
    ensures Onward(Basis(c, e), Step(c, e))
    ensures Basis(c, e).group.history.accepted == c.group.history.accepted
  {
    hide Step, Inv, AllWellFormed, AfterWork, EmissionFor, PartiesAfter;
    StepIsCareful(c, e);
    PrefixBehaves(c.group, Step(c, e).group);
  }

  /** No event puts a contact where the service does not have it, whatever lookups report. */
  lemma StepKeepsReplica(c: Channel, e: Event)
    requires Inv(c) && Enabled(c, e) && WellBehaved(Step(c, e).group)
    requires Replica(c.group)
    ensures Replica(Step(c, e).group)
  {
    EventBehaves(c, e);
    hide Step, AllWellFormed, AfterWork, EmissionFor, PartiesAfter, ApplyAll;
    if e.ContactsReply? {
      BusyBuild(c);
      FinishKeepsReplica(c.group, Built(e.reply));
    }
  }

  lemma BusyBuild(c: Channel)
    requires Inv(c) && c.lookups != [] && WellBehaved(c.group)
    ensures Busy(c.group) && InOrder(c.group) && Matches(c.group.work, c.group.maps)
    ensures ToAdd(c.group.work) <= c.lookups[0]
  {
  }

  predicate LooksUpEverything(c: Channel, e: Event)
    requires Enabled(c, e)
  {
    e.ContactsReply? ==> c.lookups[0] <= Built(e.reply)
  }

  lemma FinishedGroup(g: Group, reply: LookupReply, isReady: bool)
    requires WellBehaved(g) && InOrder(g) && Matches(g.work, g.maps) && Replica(g) && CompleteReplica(g)
    requires ToAdd(g.work) <= Built(reply)
    ensures var f := FinishDelta(GroupAfterLookup(g, reply), Built(reply), isReady);
            CompleteReplica(f) && (isReady && ListenerAgrees(g) ==> ListenerAgrees(f))
  {
    hide WellBehaved, Replica, InOrder, Matches, AfterWork, EmissionFor, PartiesAfter, ApplyAll, ContactSets, KeySets,
         Noteworthy, ToAdd, Built;
    FinishKeepsReplica(g, Built(reply));
    assert g.work.current.None? ==> g.history.applied + [] == g.history.applied;
    if isReady && ListenerAgrees(g) {
      FinishKeepsListener(g, Built(reply));
    }
  }

  lemma BasisIsComplete(c: Channel, e: Event)
    requires Inv(c) && Enabled(c, e) && WellBehaved(c.group)
    requires Replica(c.group) && CompleteReplica(c.group) && LooksUpEverything(c, e)
    ensures CompleteReplica(Basis(c, e).group)
    ensures c.ready && ListenerAgrees(c.group) ==> ListenerAgrees(Basis(c, e).group)
  {
    if e.ContactsReply? {
      BusyBuild(c);
      assert c.ready ==> IsReady(c);
      hide Inv, ToAdd, WellBehaved, Replica, CompleteReplica, ListenerAgrees, FinishDelta, InOrder, Matches, Busy,
           Built;
      FinishedGroup(c.group, e.reply, IsReady(c));
    }
  }

  /** When lookups return everything asked for, the maps stay exact and listeners stay informed. */
  lemma StepKeepsComplete(c: Channel, e: Event)
    requires Inv(c) && Enabled(c, e) && WellBehaved(Step(c, e).group)
    requires Replica(c.group) && CompleteReplica(c.group) && (c.ready ==> ListenerAgrees(c.group))
    requires LooksUpEverything(c, e)
    ensures CompleteReplica(Step(c, e).group)
    ensures Step(c, e).ready ==> ListenerAgrees(Step(c, e).group)
  {
    EventBehaves(c, e);
    StepIsCareful(c, e);
    BasisIsComplete(c, e);
    assert Basis(c, e).ready == c.ready;
    hide Step, Inv, WellBehaved, Replica, Basis, ApplyAll, ContactSets;
    var n := Step(c, e);
    if Completes(Basis(c, e), n) {
      assert Hear(n.group.history.snapshot, []) == n.group.history.snapshot;
    }
  }

  // ---------------------------------------------------------------- whole runs

  /** In every run whose deltas are well formed, the three lists are disjoint, hold nobody the
      service does not have there, and explain every local pending member, even when contact
      lookups fail. */
  lemma {:induction false} ReplicaIsSafe(run: seq<Channel>, events: seq<Event>, i: nat)
    requires IsRun(run, events) && i <= |events|
    requires WellBehaved(run[i].group)
    ensures Replica(run[i].group)
    ensures Disjoint(KeySets(run[i].group.maps))
  {
    hide Step, Enabled;
    if i == 0 {
      assert ApplyAll(NOBODY, []) == NOBODY;
    } else {
      RunKeeps(run, events, i - 1);
      EventBehaves(run[i - 1], events[i - 1]);
      ReplicaIsSafe(run, events, i - 1);
      StepKeepsReplica(run[i - 1], events[i - 1]);
    }
    RunKeeps(run, events, i);
    AppliedIsDisjoint(run[i]);
  }

  lemma AppliedIsDisjoint(c: Channel)
    requires Inv(c) && WellBehaved(c.group)
    ensures Disjoint(AppliedView(c.group))
  {
    assert InOrder(c.group);
    ApplyAllConcat(NOBODY, c.group.history.applied, Unapplied(c.group));
    ViewIsDisjoint(NOBODY, c.group.history.applied);
  }

  ghost predicate LookupsComplete(run: seq<Channel>, events: seq<Event>, i: nat)
    requires IsRun(run, events) && i <= |events|
  {
    forall j :: 0 <= j < i ==> LooksUpEverything(run[j], events[j])
  }

  /** In every run whose deltas are well formed and whose lookups return everything asked for, the
      lists are exactly what the applied deltas mean, and a listener that copied them at readiness
      and replayed every signal holds the same. */
  lemma {:induction false} ReplicaIsExact(run: seq<Channel>, events: seq<Event>, i: nat)
    requires IsRun(run, events) && i <= |events|
    requires WellBehaved(run[i].group) && LookupsComplete(run, events, i)
    ensures KeySets(run[i].group.maps) == AppliedView(run[i].group)
    ensures run[i].ready ==> ListenerAgrees(run[i].group)
  {
    hide Step, Enabled;
    if i == 0 {
      assert ApplyAll(NOBODY, []) == NOBODY;
    } else {
      RunKeeps(run, events, i - 1);
      EventBehaves(run[i - 1], events[i - 1]);
      ReplicaIsSafe(run, events, i - 1);
      ReplicaIsExact(run, events, i - 1);
      StepKeepsComplete(run[i - 1], events[i - 1]);
    }
  }
}
