/**
 What a channel tells its listeners: while lookups return everything asked for, exactly one signal
 for each delta that changes somebody, naming who joined, who left, why, and by whose hand.
 */
module ChannelSignals {
  import opened Handles
  import opened GroupDelta
  import opened GroupReplica
  import opened GroupMembership
  import opened ChannelMachine
  import opened ChannelInvariants
  import opened ChannelReadiness
  import opened ChannelHistory
  import opened ChannelMeaning
  import opened ChannelTold
  import opened ChannelContacts

  /** The details of a change as a listener is to see them. */
  function Telling(d: Delta): ChangeDetails {
    var actor := d.details.Actor();
    ChangeDetails(if actor != 0 then Some(Contact(actor)) else None, d.details)
  }

  /** The signal that tells of a delta when the lists are s. */
  function SignalOf(s: Sets, d: Delta): Emission {
    Emission(WithHandles(SetOf(d.added) - s.members), WithHandles(SetOf(d.localPending) - s.localPending),
             WithHandles(SetOf(d.remotePending) - s.remotePending), WithHandles(SetOf(d.removed) * Everyone(s)),
             Telling(d))
  }

  /** Nobody joins a list and nobody leaves the group. */
  predicate SaysNothing(s: Sets, d: Delta) {
    && SetOf(d.added) <= s.members && SetOf(d.localPending) <= s.localPending
    && SetOf(d.remotePending) <= s.remotePending && SetOf(d.removed) !! Everyone(s)
  }

  /** One signal for each delta that says something, in their order. */
  function Said(s: Sets, ds: seq<Delta>): seq<Emission>
    decreases |ds|
  {
    if ds == [] then []
    else
      var before, d := ds[..|ds| - 1], ds[|ds| - 1];
      var v := ApplyAll(s, before);
      Said(s, before) + if SaysNothing(v, d) then [] else [SignalOf(v, d)]
  }

  // ---------------------------------------------------------------- one delta

  lemma NobodyNamed(hs: set<Handle>)
    ensures WithHandles(hs) == {} <==> hs == {}
  {
    if h :| h in hs {
      WithHandlesMember(hs, Contact(h));
    }
  }

  lemma WorthTelling(s: Sets, d: Delta)
    ensures Noteworthy(SignalOf(s, d)) <==> !SaysNothing(s, d)
  {
    NobodyNamed(SetOf(d.added) - s.members);
    NobodyNamed(SetOf(d.localPending) - s.localPending);
    NobodyNamed(SetOf(d.remotePending) - s.remotePending);
    NobodyNamed(SetOf(d.removed) * Everyone(s));
    NothingLeft(SetOf(d.added), s.members);
    NothingLeft(SetOf(d.localPending), s.localPending);
    NothingLeft(SetOf(d.remotePending), s.remotePending);
  }

  lemma NothingLeft(a: set<Handle>, b: set<Handle>)
    ensures a - b == {} <==> a <= b
  {
    if a - b == {} {
      forall h | h in a ensures h in b {
        assert h !in a - b;
      }
    }
  }

  /** The contacts of a build suffice for a delta: they include those it adds and its actor's. */
  predicate Suffice(built: set<Handle>, w: Work) {
    ToAdd(w) <= built && 0 !in built && (WorkActor(w) != 0 ==> WorkActor(w) in built)
  }

  /** With the contacts it needs, the delta is told as it is meant. */
  lemma EmissionIs(m: Maps, d: Delta, built: set<Handle>)
    requires Disjoint(KeySets(m)) && ListsDisjoint(d) && AllNamed(m)
    requires Suffice(built, WorkFor(NO_WORK, m, d))
    ensures EmissionFor(m, WorkFor(NO_WORK, m, d), built) == SignalOf(KeySets(m), d)
  {
    var w := WorkFor(NO_WORK, m, d);
    WorkIs(m, d);
    RemovalsAre(m, d, built);
    hide WorkFor, AfterRemovals;
    assert BuiltMembers(w, built) == SetOf(d.added) - m.members.Keys;
    assert BuiltLocal(w, built) == SetOf(d.localPending) - m.localPending.Keys;
    assert BuiltRemote(w, built) == SetOf(d.remotePending) - m.remotePending.Keys;
  }

  /** Whoever a delta makes local pending is remembered with its details. */
  lemma PendingWithReason(m: Maps, d: Delta, built: set<Handle>, h: Handle)
    requires Disjoint(KeySets(m)) && ListsDisjoint(d) && AllNamed(m)
    requires Suffice(built, WorkFor(NO_WORK, m, d))
    requires h in d.localPending && h !in m.localPending
    ensures var n := AfterWork(m, WorkFor(NO_WORK, m, d), built); h in n.info && n.info[h] == Telling(d)
  {
    var w := WorkFor(NO_WORK, m, d);
    WorkIs(m, d);
    AfterWorkIs(m, d, built);
    assert h in w.addingLocal && h in BuiltLocal(w, built);
    hide WorkFor, AfterWork;
  }

  // ---------------------------------------------------------------- one build

  function Current(g: Group): seq<Delta> {
    if g.work.current.Some? then [g.work.current.value] else []
  }

  lemma FinishTells(g: Group, built: set<Handle>, isReady: bool)
    requires WellBehaved(g) && InOrder(g) && Matches(g.work, g.maps) && Replica(g) && CompleteReplica(g)
    requires Suffice(built, g.work)
    ensures var f := FinishDelta(g, built, isReady);
            && f.history.applied == g.history.applied + Current(g)
            && f.history.emitted == g.history.emitted
                                    + if isReady then Said(AppliedView(g), Current(g)) else []
  {
    var e := EmissionFor(g.maps, g.work, built);
    if g.work.current.None? {
      hide AfterWork, EmissionFor;
      NoWorkChangesNobody(g.maps, built);
    } else {
      var d := g.work.current.value;
      CurrentIsWellFormed(g);
      hide AfterWork, EmissionFor, WorkFor, AllWellFormed, InOrder;
      EmissionIs(g.maps, d, built);
      WorthTelling(AppliedView(g), d);
      assert [d][..0] == [];
      assert Said(AppliedView(g), []) == [];
    }
  }

  /** The lookups so far returned everything asked for, and handle zero has no contact. */
  ghost predicate LookupsHonest(run: seq<Channel>, events: seq<Event>, i: nat)
    requires IsRun(run, events) && i <= |events|
  {
    && LookupsComplete(run, events, i)
    && forall j :: 0 <= j < i && events[j].ContactsReply? ==> 0 !in Built(events[j].reply)
  }

  lemma BuildSuffices(c: Channel, reply: LookupReply)
    requires Inv(c) && c.lookups != [] && WellBehaved(c.group) && Covered(c)
    requires c.lookups[0] <= Built(reply) && 0 !in Built(reply)
    ensures Suffice(Built(reply), c.group.work)
  {
    BusyBuild(c);
  }

  lemma LookupIsOfNoMatter(g: Group, reply: LookupReply)
    ensures var h := GroupAfterLookup(g, reply);
            && h.history == g.history && h.work == g.work && h.maps == g.maps && h.queue == g.queue
  {
  }

  lemma ReplyTells(c: Channel, reply: LookupReply)
    requires Inv(c) && c.lookups != [] && WellBehaved(c.group) && Covered(c) && Replica(c.group)
    requires CompleteReplica(c.group) && c.lookups[0] <= Built(reply) && 0 !in Built(reply)
    ensures var x := Applied(c, reply);
            && x.group.history.applied == c.group.history.applied + Current(c.group)
            && (c.ready ==> x.group.history.emitted
                            == c.group.history.emitted + Said(AppliedView(c.group), Current(c.group)))
  {
    BusyBuild(c);
    BuildSuffices(c, reply);
    assert c.ready ==> IsReady(c);
    var h := GroupAfterLookup(c.group, reply);
    assert WellBehaved(h) && InOrder(h) && Matches(h.work, h.maps) && Replica(h) && CompleteReplica(h) by {
      hide Inv, Covered, AllWellFormed, ApplyAll, AllNamed, Built;
      LookupIsOfNoMatter(c.group, reply);
    }
    hide Inv, Covered, Replica, CompleteReplica, WellBehaved, InOrder, Matches, Said, Suffice, FinishDelta, Built;
    LookupIsOfNoMatter(c.group, reply);
    FinishTells(h, Built(reply), IsReady(c));
  }

  // ---------------------------------------------------------------- whole runs

  /** The deltas an event applies: the one its contacts were built for. */
  function AppliedBy(c: Channel, e: Event): seq<Delta> {
    if e.ContactsReply? then Current(c.group) else []
  }

  lemma EventTells(c: Channel, e: Event)
    requires Inv(c) && Enabled(c, e) && WellBehaved(Step(c, e).group) && Covered(c) && Replica(c.group)
    requires CompleteReplica(c.group) && LooksUpEverything(c, e) && (e.ContactsReply? ==> 0 !in Built(e.reply))
    ensures Step(c, e).group.history.applied == c.group.history.applied + AppliedBy(c, e)
    ensures c.ready && Step(c, e).ready ==>
              Step(c, e).group.history.emitted
              == c.group.history.emitted + Said(AppliedView(c.group), AppliedBy(c, e))
    ensures !c.ready && Step(c, e).ready ==> Step(c, e).group.history.emitted == []
    ensures Step(c, e).ready && c.completions == 1 ==> c.ready
  {
    EventBehaves(c, e);
    StepIsCareful(c, e);
    CompletionIsSafe(c, e);
    assert c.ready ==> c.completions == 1;
    assert Basis(c, e).ready == c.ready;
    assert Said(AppliedView(c.group), []) == [];
    hide Step, Inv, WellBehaved, Replica, CompleteReplica, Covered, Said, Applied, LooksUpEverything;
    if e.ContactsReply? {
      assert c.lookups[0] <= Built(e.reply) by {
        EverythingIs(c, e);
      }
      ReplyTells(c, e.reply);
    }
  }

  lemma EverythingIs(c: Channel, e: Event)
    requires Enabled(c, e) && e.ContactsReply? && LooksUpEverything(c, e)
    ensures c.lookups != [] && c.lookups[0] <= Built(e.reply)
  {
  }

  lemma SaidOneMore(s: Sets, ds: seq<Delta>, more: seq<Delta>)
    requires |more| <= 1
    ensures Said(s, ds + more) == Said(s, ds) + Said(ApplyAll(s, ds), more)
  {
    if more == [] {
      assert ds + more == ds;
    } else {
      assert (ds + more)[..|ds|] == ds && more[..0] == [];
      assert Said(ApplyAll(s, ds), []) == [];
    }
  }

  lemma {:induction false} ApplyAllOn(s: Sets, a: seq<Delta>, b: seq<Delta>)
    ensures ApplyAll(s, a + b) == ApplyAll(ApplyAll(s, a), b)
    decreases |a|
  {
    if a == [] {
      assert a + b == b;
    } else {
      assert (a + b)[0] == a[0] && (a + b)[1..] == a[1..] + b;
      ApplyAllOn(Apply(s, a[0]), a[1..], b);
    }
  }

  /** What event e does to the signals of channel c. */
  predicate Tells(c: Channel, e: Event, n: Channel) {
    && n.group.history.applied == c.group.history.applied + AppliedBy(c, e)
    && (c.ready && n.ready ==>
          n.group.history.emitted == c.group.history.emitted + Said(AppliedView(c.group), AppliedBy(c, e)))
    && (!c.ready && n.ready ==> n.group.history.emitted == [])
    && (n.ready && c.completions == 1 ==> c.ready)
  }

  /** The signals emitted in state n are those of the deltas applied since state r. */
  predicate SaidSince(r: Channel, n: Channel) {
    && r.group.history.applied <= n.group.history.applied
    && n.group.history.emitted
       == Said(AppliedView(r.group), n.group.history.applied[|r.group.history.applied|..])
  }

  /** Signals begin at readiness, which a channel reaches once. */
  lemma SaidFrom(c: Channel, e: Event, n: Channel)
    requires Tells(c, e, n) && n.ready
    ensures !c.ready ==> SaidSince(n, n)
    ensures c.completions == 1 ==> c.ready
  {
    assert n.group.history.applied[|n.group.history.applied|..] == [];
  }

  lemma SaidNext(r: Channel, c: Channel, e: Event, n: Channel)
    requires SaidSince(r, c) && Tells(c, e, n) && c.ready && n.ready
    ensures SaidSince(r, n)
  {
    var before, more := r.group.history.applied, AppliedBy(c, e);
    var since := c.group.history.applied[|before|..];
    assert c.group.history.applied == before + since && n.group.history.applied[|before|..] == since + more;
    hide Said, ApplyAll;
    SaidOneMore(AppliedView(r.group), since, more);
    ApplyAllOn(NOBODY, before, since);
  }

  lemma ReadyIsCompleted(c: Channel)
    requires Inv(c) && c.ready
    ensures c.completions == 1
  {
  }

  lemma {:induction false} CompletedStays(run: seq<Channel>, events: seq<Event>, j: nat, i: nat)
    requires IsRun(run, events) && j <= i <= |events| && run[j].ready
    ensures run[i].completions == 1
  {
    hide Step, Enabled, Inv;
    if i == j {
      RunKeeps(run, events, j);
      ReadyIsCompleted(run[j]);
    } else {
      CompletedStays(run, events, j, i - 1);
      CompletesOnceAndSafely(run, events, i - 1);
    }
  }

  lemma TellsInTurn(run: seq<Channel>, events: seq<Event>, i: nat)
    requires IsRun(run, events) && 0 < i <= |events| && WellBehaved(run[i].group) && LookupsHonest(run, events, i)
    ensures WellBehaved(run[i - 1].group) && LookupsHonest(run, events, i - 1)
    ensures Tells(run[i - 1], events[i - 1], run[i])
  {
    hide Step, Enabled, Inv, WellBehaved, Replica, Covered, Said, LooksUpEverything;
    var c, e := run[i - 1], events[i - 1];
    RunKeeps(run, events, i - 1);
    EventBehaves(c, e);
    ReplicaIsSafe(run, events, i - 1);
    ReplicaIsExact(run, events, i - 1);
    CoveredInTurn(run, events, i - 1);
    EventTells(c, e);
  }

  /** From readiness on, the signals are exactly those of the deltas applied since: one for each that
      changes somebody, in order, with its details and its actor's contact. */
  lemma {:induction false} SignalsAre(run: seq<Channel>, events: seq<Event>, j: nat, i: nat)
    requires IsRun(run, events) && 0 < j <= i <= |events| && WellBehaved(run[i].group) && LookupsHonest(run, events, i)
    requires !run[j - 1].ready && run[j].ready && run[i].ready
    ensures SaidSince(run[j], run[i])
  {
    assert |run| == |events| + 1;
    hide *;
    var c, e := run[i - 1], events[i - 1];
    TellsInTurn(run, events, i);
    if i == j {
      SaidFrom(c, e, run[j]);
    } else {
      CompletedStays(run, events, j, i - 1);
      SaidFrom(c, e, run[i]);
      SignalsAre(run, events, j, i - 1);
      SaidNext(run[j], c, e, run[i]);
    }
  }

  // ---------------------------------------------------------------- what is remembered of a change

  lemma ProcessKeepsInfo(c: Channel)
    ensures ProcessMembersChanged(c).group.selfRemoveInfo == c.group.selfRemoveInfo
    ensures ProcessMembersChanged(c).group.maps == c.group.maps
  {
    hide BuildContacts, StartDelta;
    if c.group.queue != [] {
      StartKeepsInfo(c.group);
      BuildKeepsInfo(c.(group := StartDelta(c.group)));
    } else if c.group.parties.retrieveSelf {
      BuildKeepsInfo(c.(group := c.group.(parties := c.group.parties.(retrieveSelf := false))));
    }
  }

  lemma BuildKeepsInfo(c: Channel)
    ensures BuildContacts(c).group.selfRemoveInfo == c.group.selfRemoveInfo
    ensures BuildContacts(c).group.maps == c.group.maps
  {
    hide NothingToBuild, ToBuild;
  }

  lemma StartKeepsInfo(g: Group)
    requires g.queue != []
    ensures StartDelta(g).selfRemoveInfo == g.selfRemoveInfo && StartDelta(g).maps == g.maps
  {
    hide WorkFor;
  }

  /** Before an event in a run whose lookups return what was asked for. */
  predicate WellInformed(c: Channel, e: Event) {
    && Inv(c) && Enabled(c, e) && WellBehaved(c.group) && Covered(c) && Replica(c.group) && CompleteReplica(c.group)
    && (e.ContactsReply? ==> c.lookups[0] <= Built(e.reply) && 0 !in Built(e.reply))
  }

  lemma InformedInTurn(run: seq<Channel>, events: seq<Event>, i: nat)
    requires IsRun(run, events) && 0 < i <= |events| && WellBehaved(run[i - 1].group) && LookupsHonest(run, events, i)
    ensures WellInformed(run[i - 1], events[i - 1]) && run[i] == Step(run[i - 1], events[i - 1])
  {
    var c, e := run[i - 1], events[i - 1];
    hide Step, Enabled, Inv, WellBehaved, Replica, Covered, LooksUpEverything;
    RunKeeps(run, events, i - 1);
    ReplicaIsSafe(run, events, i - 1);
    ReplicaIsExact(run, events, i - 1);
    CoveredInTurn(run, events, i - 1);
    if e.ContactsReply? {
      EverythingIs(c, e);
    }
  }

  lemma ReplyRemembers(c: Channel, reply: LookupReply, h: Handle)
    requires Inv(c) && c.lookups != [] && WellBehaved(c.group) && Covered(c) && Replica(c.group)
    requires CompleteReplica(c.group) && c.lookups[0] <= Built(reply) && 0 !in Built(reply)
    requires c.group.work.current.Some?
    requires h in c.group.work.current.value.localPending && h !in AppliedView(c.group).localPending
    ensures var n := GotContacts(c, reply).group.maps;
            h in n.info && n.info[h] == Telling(c.group.work.current.value)
  {
    BusyBuild(c);
    BuildSuffices(c, reply);
    CurrentIsWellFormed(c.group);
    var x := Applied(c, reply);
    assert x.group.maps == AfterWork(c.group.maps, c.group.work, Built(reply));
    assert GotContacts(c, reply) == ProcessMembersChanged(x);
    hide ProcessMembersChanged, AfterWork, EmissionFor, Applied, WorkFor, Inv, Covered, Built;
    ProcessKeepsInfo(x);
    PendingWithReason(c.group.maps, c.group.work.current.value, Built(reply), h);
  }

  /** Whoever the applied delta made local pending is remembered with its details. */
  lemma PendingMembersHaveTheirReason(run: seq<Channel>, events: seq<Event>, i: nat, h: Handle)
    requires IsRun(run, events) && 0 < i <= |events| && WellBehaved(run[i - 1].group) && LookupsHonest(run, events, i)
    requires AppliedBy(run[i - 1], events[i - 1]) != []
    requires h in AppliedBy(run[i - 1], events[i - 1])[0].localPending
    requires h !in AppliedView(run[i - 1].group).localPending
    ensures h in run[i].group.maps.info
    ensures run[i].group.maps.info[h] == Telling(AppliedBy(run[i - 1], events[i - 1])[0])
  {
    assert |run| == |events| + 1;
    hide *;
    InformedInTurn(run, events, i);
    StepRemembers(run[i - 1], events[i - 1], h);
  }

  lemma StepRemembers(c: Channel, e: Event, h: Handle)
    requires WellInformed(c, e) && AppliedBy(c, e) != []
    requires h in AppliedBy(c, e)[0].localPending && h !in AppliedView(c.group).localPending
    ensures h in Step(c, e).group.maps.info && Step(c, e).group.maps.info[h] == Telling(AppliedBy(c, e)[0])
  {
    hide Inv, WellBehaved, Replica, CompleteReplica, Covered, GotContacts, Telling;
    ReplyRemembers(c, e.reply, h);
  }

  /** A change the channel takes that removes its self handle. */
  predicate RemovesSelf(m: Meaning, e: Event) {
    && (e.MembersChanged? || e.MembersChangedDetailed?)
    && (e.MembersChangedDetailed? <==> FLAG_MEMBERS_CHANGED_DETAILED in m.flags)
    && m.haveMembers && m.self in e.delta.removed && e.delta.details.reason != Some(REASON_RENAMED)
  }

  lemma ChangeRemembers(c: Channel, e: Event, m: Meaning)
    requires Inv(c) && Enabled(c, e) && Knows(c, m) && (e.MembersChanged? || e.MembersChangedDetailed?)
    ensures Step(c, e).group.selfRemoveInfo
         == if RemovesSelf(m, e) then
              Some(ChangeDetails(if e.actorKnown then Some(Contact(e.delta.details.Actor())) else None,
                                 e.delta.details))
            else c.group.selfRemoveInfo
  {
    DetailedIsFlagged(c, m);
    assert KnowsSides(c, m);
    hide Inv, Knows, KnowsMembers, DoMembersChanged;
    DeltaRemembers(c, e.delta, e.actorKnown);
  }

  lemma DeltaRemembers(c: Channel, d: Delta, actorKnown: bool)
    ensures DoMembersChanged(c, d, actorKnown).group.selfRemoveInfo
         == if Accepts(c.group, d) && c.group.parties.selfHandle in d.removed then
              Some(ChangeDetails(if actorKnown then Some(Contact(d.details.Actor())) else None, d.details))
            else c.group.selfRemoveInfo
  {
    hide ProcessMembersChanged;
    ProcessKeepsInfo(c.(group := Receive(c.group, d, actorKnown)));
  }

  lemma ReplyRemembersRemoval(c: Channel, reply: LookupReply)
    requires Inv(c) && c.lookups != [] && WellBehaved(c.group) && Covered(c) && Replica(c.group)
    requires CompleteReplica(c.group) && c.lookups[0] <= Built(reply) && 0 !in Built(reply)
    ensures var d := c.group.work.current;
            GotContacts(c, reply).group.selfRemoveInfo
            == if d.Some? && c.group.parties.selfHandle in d.value.removed
                  && !SaysNothing(AppliedView(c.group), d.value)
               then Some(Telling(d.value)) else c.group.selfRemoveInfo
  {
    BusyBuild(c);
    BuildSuffices(c, reply);
    var x := Applied(c, reply);
    var em := EmissionFor(c.group.maps, c.group.work, Built(reply));
    assert x.group.selfRemoveInfo
           == if Noteworthy(em) && c.group.work.current.Some?
                 && c.group.parties.selfHandle in c.group.work.current.value.removed
              then Some(em.details) else c.group.selfRemoveInfo by {
      hide Inv, Covered, AfterWork, EmissionFor, PartiesAfter;
    }
    assert GotContacts(c, reply) == ProcessMembersChanged(x);
    hide ProcessMembersChanged, AfterWork, EmissionFor, Applied, WorkFor, Inv, Covered, Built, SaysNothing;
    ProcessKeepsInfo(x);
    if c.group.work.current.Some? {
      var d := c.group.work.current.value;
      CurrentIsWellFormed(c.group);
      EmissionIs(c.group.maps, d, Built(reply));
      WorthTelling(AppliedView(c.group), d);
    }
  }

  lemma SignalRemembers(c: Channel, e: Event, m: Meaning)
    requires WellInformed(c, e) && Knows(c, m) && CallOf(e).None?
    ensures var d := AppliedBy(c, e);
            Step(c, e).group.selfRemoveInfo
            == if RemovesSelf(m, e) then
                 Some(ChangeDetails(if e.actorKnown then Some(Contact(e.delta.details.Actor())) else None,
                                    e.delta.details))
               else if d != [] && m.self in d[0].removed && !SaysNothing(AppliedView(c.group), d[0]) then
                 Some(Telling(d[0]))
               else c.group.selfRemoveInfo
  {
    if e.ContactsReply? {
      assert KnowsSides(c, m);
      hide Inv, WellBehaved, Replica, Covered, Knows, GotContacts, SaysNothing, CompleteReplica, Telling, Built,
           KnowsMembers;
      ReplyRemembersRemoval(c, e.reply);
    } else if e.MembersChanged? || e.MembersChangedDetailed? {
      hide Inv, WellBehaved, Replica, Covered, Knows, Step, SaysNothing, CompleteReplica, Telling, Built, RemovesSelf;
      ChangeRemembers(c, e, m);
    } else {
      hide Inv, WellBehaved, Replica, Covered, Knows, SaysNothing, CompleteReplica, Telling, Built;
      OthersRemember(c, e);
    }
  }

  lemma OthersRemember(c: Channel, e: Event)
    requires Enabled(c, e) && CallOf(e).None?
    requires !e.ContactsReply? && !e.MembersChanged? && !e.MembersChangedDetailed?
    ensures Step(c, e).group.selfRemoveInfo == c.group.selfRemoveInfo
  {
    hide ChangedFlags;
  }

  /** What is remembered of the self handle's removal: what the change said when it was announced,
      and what its signal says once it is applied; no other signal or reply with contacts alters it. */
  lemma SelfRemovalIsRemembered(run: seq<Channel>, events: seq<Event>, i: nat)
    requires IsRun(run, events) && 0 < i <= |events| && WellBehaved(run[i - 1].group) && LookupsHonest(run, events, i)
    requires CallOf(events[i - 1]).None?
    ensures var c, e, m := run[i - 1], events[i - 1], MeaningOf(events[..i - 1]);
            var d := AppliedBy(c, e);
            run[i].group.selfRemoveInfo
            == if RemovesSelf(m, e) then
                 Some(ChangeDetails(if e.actorKnown then Some(Contact(e.delta.details.Actor())) else None,
                                    e.delta.details))
               else if d != [] && m.self in d[0].removed && !SaysNothing(AppliedView(c.group), d[0]) then
                 Some(Telling(d[0]))
               else c.group.selfRemoveInfo
  {
    assert |run| == |events| + 1;
    hide *;
    InformedInTurn(run, events, i);
    KnowsWhatItWasTold(run, events, i - 1);
    SignalRemembers(run[i - 1], events[i - 1], MeaningOf(events[..i - 1]));
  }

  /** Local pending members that were there from the start are told with the actor, reason and message
      they were reported with. */
  lemma InitialReasonsAreTold(i: Initial, k: nat)
    requires k < |i.localPending|
    ensures var info, d := i.localPending[k], InitialDeltas(i)[k + 1];
            && d.localPending == [info.toBeAdded] && d.added == d.removed == d.remotePending == []
            && Telling(d).details.Actor() == info.actor && Telling(d).details.Reason() == info.reason
            && (if d.details.message.Some? then d.details.message.value else "") == info.message
            && (Telling(d).actor.Some? <==> info.actor != 0)
  {
    assert InitialDeltas(i)[k + 1] == LocalDeltas(i.localPending)[k] == LocalDelta(i.localPending[k]);
  }
}
