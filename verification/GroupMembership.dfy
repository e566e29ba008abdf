/**
 What applying one delta does to the membership maps, in closed form: when it agrees with the
 service's meaning of the delta, and when the signal it emits tells a listener everything.
 */
module GroupMembership {
  import opened Handles
  import opened GroupDelta
  import opened GroupReplica

  /** Every handle is mapped to its own contact. */
  predicate Named(m: map<Handle, Contact>) {
    forall h :: h in m ==> m[h] == Contact(h)
  }

  predicate AllNamed(m: Maps) {
    Named(m.members) && Named(m.localPending) && Named(m.remotePending)
  }

  lemma NamedValues(m: map<Handle, Contact>)
    requires Named(m)
    ensures m.Values == WithHandles(m.Keys)
  {
    forall c ensures c in m.Values <==> c in WithHandles(m.Keys) {
      if c in WithHandles(m.Keys) {
        var h :| h in m.Keys && c == Contact(h);
        assert m[h] in m.Values;
      }
    }
  }

  // ---------------------------------------------------------------- removing handles

  /** The handles to remove are each in at most one of the sets. */
  predicate Apart(s: Sets, xs: set<Handle>) {
    && xs * s.members !! s.localPending
    && xs * s.members !! s.remotePending
    && xs * s.localPending !! s.remotePending
  }

  function Without(m: Maps, xs: set<Handle>): Maps {
    Maps(m.members - xs, m.localPending - xs, m.remotePending - xs, m.info - xs)
  }

  lemma WithoutTwice(m: Maps, xs: set<Handle>, ys: set<Handle>)
    ensures Without(Without(m, xs), ys) == Without(m, xs + ys)
    ensures xs * Everyone(KeySets(m)) + ys * Everyone(KeySets(Without(m, xs))) == (xs + ys) * Everyone(KeySets(m))
    ensures AllNamed(m) ==> AllNamed(Without(m, xs))
    ensures Apart(KeySets(m), ys) ==> Apart(KeySets(Without(m, xs)), ys)
  {
  }

  lemma {:induction false} RemoveEachIs(r: Removal, hs: seq<Handle>)
    requires Apart(KeySets(r.maps), SetOf(hs)) && AllNamed(r.maps)
    ensures RemoveEach(r, hs)
         == Removal(Without(r.maps, SetOf(hs)), r.removed + WithHandles(SetOf(hs) * Everyone(KeySets(r.maps))))
    decreases |hs|
  {
    if hs == [] {
      assert SetOf(hs) == {};
    } else {
      var h, xs := hs[|hs| - 1], SetOf(hs[..|hs| - 1]);
      assert hs == hs[..|hs| - 1] + [h];
      SetOfConcat(hs[..|hs| - 1], [h]);
      assert SetOf(hs) == xs + {h};
      RemoveEachIs(r, hs[..|hs| - 1]);
      hide Without, Everyone, Apart, WithHandles, SetOf, RemoveOne, AllNamed;
      WithoutTwice(r.maps, xs, {h});
      RemoveOneIs(Removal(Without(r.maps, xs), r.removed + WithHandles(xs * Everyone(KeySets(r.maps)))), h);
      WithHandlesUnion(xs * Everyone(KeySets(r.maps)), {h} * Everyone(KeySets(Without(r.maps, xs))));
    }
  }

  lemma RemoveOneIs(r: Removal, h: Handle)
    requires Apart(KeySets(r.maps), {h}) && AllNamed(r.maps)
    ensures RemoveOne(r, h) == Removal(Without(r.maps, {h}), r.removed + WithHandles({h} * Everyone(KeySets(r.maps))))
  {
    if h in Everyone(KeySets(r.maps)) {
      assert {h} * Everyone(KeySets(r.maps)) == {h};
      assert WithHandles({h}) == {Contact(h)};
    } else {
      assert {h} * Everyone(KeySets(r.maps)) == {};
    }
  }

  lemma WithHandlesUnion(a: set<Handle>, b: set<Handle>)
    ensures WithHandles(a) + WithHandles(b) == WithHandles(a + b)
  {
  }

  lemma WithHandlesMinus(a: set<Handle>, b: set<Handle>)
    ensures WithHandles(a) - WithHandles(b) == WithHandles(a - b)
  {
    forall c ensures c in WithHandles(a) - WithHandles(b) <==> c in WithHandles(a - b) {
      WithHandlesMember(a, c);
      WithHandlesMember(b, c);
      WithHandlesMember(a - b, c);
    }
  }

  // ---------------------------------------------------------------- applying a delta

  /** The sets after a delta for which the contacts of the given handles could be built. */
  function ReplicaApply(s: Sets, d: Delta, built: set<Handle>): Sets {
    var a, x := SetOf(d.added), SetOf(d.removed);
    Sets((s.members + a * built) - x,
         ((s.localPending + SetOf(d.localPending) * built) - a) - x,
         ((s.remotePending + SetOf(d.remotePending) * built) - a) - x)
  }

  function MovedBy(s: Sets, d: Delta): set<Handle> {
    SetOf(d.added) * (s.localPending + s.remotePending)
  }

  /** The work of a delta, in terms of sets. */
  lemma WorkIs(m: Maps, d: Delta)
    requires Disjoint(KeySets(m)) && ListsDisjoint(d)
    ensures var w, s := WorkFor(NO_WORK, m, d), KeySets(m);
            && w.addingMembers == SetOf(d.added) - s.members
            && w.addingLocal == SetOf(d.localPending) - s.localPending
            && w.addingRemote == SetOf(d.remotePending) - s.remotePending
            && w.addingLocal !! w.addingMembers && w.addingRemote !! w.addingMembers + w.addingLocal
            && w.removing == d.removed
            && w.leavingLocal == SetOf(d.added) * s.localPending
            && w.leavingRemote == SetOf(d.added) * s.remotePending
            && w.leavingLocal + w.leavingRemote == MovedBy(s, d)
            && w.current == Some(d)
  {
  }

  /** The sets once the contacts built are in, before anybody is removed. */
  function Joined(s: Sets, d: Delta, built: set<Handle>): Sets {
    Sets(s.members + SetOf(d.added) * built, s.localPending + SetOf(d.localPending) * built,
         s.remotePending + SetOf(d.remotePending) * built)
  }

  lemma JoinedApart(s: Sets, d: Delta, built: set<Handle>)
    requires Disjoint(s) && ListsDisjoint(d)
    ensures Apart(Joined(s, d, built), SetOf(d.removed))
    ensures SetOf(d.removed) * Everyone(Joined(s, d, built)) == SetOf(d.removed) * Everyone(s)
  {
  }

  lemma JoinNamed(m: map<Handle, Contact>, hs: set<Handle>)
    requires Named(m)
    ensures Named(m + ContactsOf(hs)) && (m + ContactsOf(hs)).Keys == m.Keys + hs
  {
  }

  lemma AdditionsAre(m: Maps, d: Delta, built: set<Handle>)
    requires Disjoint(KeySets(m)) && ListsDisjoint(d) && AllNamed(m)
    ensures var n := AfterAdditions(m, WorkFor(NO_WORK, m, d), built);
            && AllNamed(n)
            && KeySets(n) == Joined(KeySets(m), d, built)
            && n.info == UpdatedInfo(m.info, WorkFor(NO_WORK, m, d), built)
  {
    WorkIs(m, d);
    var w, s := WorkFor(NO_WORK, m, d), KeySets(m);
    assert BuiltLocal(w, built) == w.addingLocal * built;
    assert BuiltRemote(w, built) == w.addingRemote * built;
    hide WorkFor, UpdatedInfo, ListsDisjoint, Disjoint, Named, ContactsOf, BuiltLocal, BuiltRemote;
    JoinNamed(m.members, w.addingMembers * built);
    JoinNamed(m.localPending, w.addingLocal * built);
    JoinNamed(m.remotePending, w.addingRemote * built);
    assert s.members + (SetOf(d.added) - s.members) * built == s.members + SetOf(d.added) * built;
    assert s.localPending + (SetOf(d.localPending) - s.localPending) * built
           == s.localPending + SetOf(d.localPending) * built;
    assert s.remotePending + (SetOf(d.remotePending) - s.remotePending) * built
           == s.remotePending + SetOf(d.remotePending) * built;
  }

  lemma RemovalsAre(m: Maps, d: Delta, built: set<Handle>)
    requires Disjoint(KeySets(m)) && ListsDisjoint(d) && AllNamed(m)
    ensures var w := WorkFor(NO_WORK, m, d);
            && AfterRemovals(m, w, built).maps == Without(AfterAdditions(m, w, built), SetOf(d.removed))
            && AfterRemovals(m, w, built).removed == WithHandles(SetOf(d.removed) * Everyone(KeySets(m)))
  {
    WorkIs(m, d);
    AdditionsAre(m, d, built);
    JoinedApart(KeySets(m), d, built);
    hide Joined, WorkFor, AfterAdditions, RemoveEach, Without, Everyone, Apart, WithHandles, KeySets, SetOf;
    RemoveEachIs(Removal(AfterAdditions(m, WorkFor(NO_WORK, m, d), built), {}), d.removed);
  }

  lemma AfterWorkIs(m: Maps, d: Delta, built: set<Handle>)
    requires Disjoint(KeySets(m)) && ListsDisjoint(d) && AllNamed(m)
    ensures var n := AfterWork(m, WorkFor(NO_WORK, m, d), built);
            && AllNamed(n)
            && KeySets(n) == ReplicaApply(KeySets(m), d, built)
            && n.info == UpdatedInfo(m.info, WorkFor(NO_WORK, m, d), built) - SetOf(d.removed)
  {
    WorkIs(m, d);
    AdditionsAre(m, d, built);
    RemovalsAre(m, d, built);
    hide WorkFor, AfterAdditions, AfterRemovals, UpdatedInfo;
    hide ListsDisjoint, Disjoint;
    var n, j, x := AfterWork(m, WorkFor(NO_WORK, m, d), built), Joined(KeySets(m), d, built), SetOf(d.removed);
    assert n.members.Keys == j.members - x;
    assert n.localPending.Keys == (j.localPending - x) - SetOf(d.added) * m.localPending.Keys;
    assert n.remotePending.Keys == (j.remotePending - x) - SetOf(d.added) * m.remotePending.Keys;
    LeavingSuffices(KeySets(m), d, built);
  }

  /** A handle being added cannot also be joining a pending list, so dropping those that were
      pending drops all of them. */
  lemma LeavingSuffices(s: Sets, d: Delta, built: set<Handle>)
    requires ListsDisjoint(d)
    ensures var j, a, x := Joined(s, d, built), SetOf(d.added), SetOf(d.removed);
            ReplicaApply(s, d, built) == Sets(j.members - x, (j.localPending - x) - a * s.localPending,
                                              (j.remotePending - x) - a * s.remotePending)
  {
  }

  /** The handles whose contacts a delta's work needs. */
  function ToAdd(w: Work): set<Handle> {
    w.addingMembers + w.addingLocal + w.addingRemote
  }

  lemma CompleteApplication(s: Sets, d: Delta, built: set<Handle>)
    requires Disjoint(s) && ListsDisjoint(d)
    requires SetOf(d.added) - s.members <= built
    requires SetOf(d.localPending) - s.localPending <= built
    requires SetOf(d.remotePending) - s.remotePending <= built
    ensures ReplicaApply(s, d, built) == Apply(s, d) <==> EntersFromOutside(s, d)
  {
    var n, v := ReplicaApply(s, d, built), Apply(s, d);
    var l, p := SetOf(d.localPending), SetOf(d.remotePending);
    if n == v {
      forall h | h in l ensures h !in s.members + s.remotePending {
        assert h !in v.members && h !in v.remotePending;
      }
      forall h | h in p ensures h !in s.members + s.localPending {
        assert h !in v.members && h !in v.localPending;
      }
    }
  }

  /** With every contact built, the replica gives a delta the service's meaning exactly when no
      handle enters a pending list from another list. */
  lemma AgreesWithServiceIff(m: Maps, d: Delta, built: set<Handle>)
    requires Disjoint(KeySets(m)) && ListsDisjoint(d) && AllNamed(m)
    requires ToAdd(WorkFor(NO_WORK, m, d)) <= built
    ensures KeySets(AfterWork(m, WorkFor(NO_WORK, m, d), built)) == Apply(KeySets(m), d)
            <==> EntersFromOutside(KeySets(m), d)
  {
    hide AfterWork, WorkFor;
    WorkIs(m, d);
    AfterWorkIs(m, d, built);
    CompleteApplication(KeySets(m), d, built);
  }

  // ---------------------------------------------------------------- telling a listener

  /** What a listener does on a change: an added member leaves both pending lists, a removed one
      leaves all three. */
  function Replay(l: Listener, e: Emission): Listener {
    Listener((l.members + e.added) - e.removed,
             ((l.localPending - e.added) + e.localPendingAdded) - e.removed,
             ((l.remotePending - e.added) + e.remotePendingAdded) - e.removed)
  }

  function Hear(l: Listener, es: seq<Emission>): Listener
    decreases |es|
  {
    if es == [] then l else Replay(Hear(l, es[..|es| - 1]), es[|es| - 1])
  }

  lemma HearOneMore(l: Listener, es: seq<Emission>, e: Emission)
    ensures Hear(l, es + [e]) == Replay(Hear(l, es), e)
  {
    assert (es + [e])[..|es|] == es;
  }

  function Named3(s: Sets): Listener {
    Listener(WithHandles(s.members), WithHandles(s.localPending), WithHandles(s.remotePending))
  }

  lemma NamedContactSets(m: Maps)
    requires AllNamed(m)
    ensures ContactSets(m) == Named3(KeySets(m))
  {
    NamedValues(m.members);
    NamedValues(m.localPending);
    NamedValues(m.remotePending);
  }

  /** The sets a listener ends up with, in terms of handles. */
  function HeardSets(s: Sets, d: Delta, built: set<Handle>): Sets {
    var added := (SetOf(d.added) - s.members) * built;
    var removed := SetOf(d.removed) * (s.members + s.localPending + s.remotePending);
    Sets((s.members + added) - removed,
         ((s.localPending - added) + (SetOf(d.localPending) - s.localPending) * built) - removed,
         ((s.remotePending - added) + (SetOf(d.remotePending) - s.remotePending) * built) - removed)
  }

  lemma ReplayOfHandles(s: Sets, added: set<Handle>, local: set<Handle>, remote: set<Handle>, removed: set<Handle>,
                        details: ChangeDetails)
    ensures Replay(Named3(s), Emission(WithHandles(added), WithHandles(local), WithHandles(remote),
                                       WithHandles(removed), details))
         == Named3(Sets((s.members + added) - removed, ((s.localPending - added) + local) - removed,
                        ((s.remotePending - added) + remote) - removed))
  {
    WithHandlesUnion(s.members, added);
    WithHandlesMinus(s.members + added, removed);
    WithHandlesMinus(s.localPending, added);
    WithHandlesUnion(s.localPending - added, local);
    WithHandlesMinus((s.localPending - added) + local, removed);
    WithHandlesMinus(s.remotePending, added);
    WithHandlesUnion(s.remotePending - added, remote);
    WithHandlesMinus((s.remotePending - added) + remote, removed);
  }

  lemma HeardIs(m: Maps, d: Delta, built: set<Handle>)
    requires Disjoint(KeySets(m)) && ListsDisjoint(d) && AllNamed(m)
    ensures Replay(ContactSets(m), EmissionFor(m, WorkFor(NO_WORK, m, d), built))
            == Named3(HeardSets(KeySets(m), d, built))
  {
    WorkIs(m, d);
    RemovalsAre(m, d, built);
    NamedContactSets(m);
    var w := WorkFor(NO_WORK, m, d);
    ReplayOfHandles(KeySets(m), BuiltMembers(w, built), BuiltLocal(w, built), BuiltRemote(w, built),
                    SetOf(d.removed) * Everyone(KeySets(m)), CurrentDetails(w, built));
    assert BuiltLocal(w, built) == (SetOf(d.localPending) - KeySets(m).localPending) * built;
    assert BuiltRemote(w, built) == (SetOf(d.remotePending) - KeySets(m).remotePending) * built;
  }

  lemma HeardAgreesIff(s: Sets, d: Delta, built: set<Handle>)
    requires Disjoint(s) && ListsDisjoint(d)
    ensures HeardSets(s, d, built) == ReplicaApply(s, d, built) <==> MovedBy(s, d) <= built
  {
    var h, n := HeardSets(s, d, built), ReplicaApply(s, d, built);
    if h == n {
      forall x | x in MovedBy(s, d) ensures x in built {
        assert x !in n.localPending && x !in n.remotePending;
      }
    }
    if MovedBy(s, d) <= built {
      assert h.members == n.members;
      assert h.localPending == n.localPending;
      assert h.remotePending == n.remotePending;
    }
  }

  lemma Named3Injective(a: Sets, b: Sets)
    ensures Named3(a) == Named3(b) <==> a == b
  {
    WithHandlesInjective(a.members, b.members);
    WithHandlesInjective(a.localPending, b.localPending);
    WithHandlesInjective(a.remotePending, b.remotePending);
  }

  /** A listener that was right before a delta is right after its signal exactly when the contact
      of every pending handle that became a member could be built. */
  lemma ListenerAgreesIff(m: Maps, d: Delta, built: set<Handle>)
    requires Disjoint(KeySets(m)) && ListsDisjoint(d) && AllNamed(m)
    ensures var w := WorkFor(NO_WORK, m, d);
            Replay(ContactSets(m), EmissionFor(m, w, built)) == ContactSets(AfterWork(m, w, built))
            <==> MovedBy(KeySets(m), d) <= built
  {
    hide AfterWork, EmissionFor, WorkFor, Replay;
    HeardIs(m, d, built);
    AfterWorkIs(m, d, built);
    NamedContactSets(AfterWork(m, WorkFor(NO_WORK, m, d), built));
    Named3Injective(HeardSets(KeySets(m), d, built), ReplicaApply(KeySets(m), d, built));
    HeardAgreesIff(KeySets(m), d, built);
  }

  /** A signal that is not worth emitting would tell a listener nothing. */
  lemma UnemittedTellsNothing(l: Listener, e: Emission)
    requires !Noteworthy(e)
    ensures Replay(l, e) == l
  {
  }

  /** The information kept about a local pending member survives a delta that does not concern it
      exactly when the build for that delta did not include its contact, or said the same. */
  lemma InfoSurvivesIff(m: Maps, d: Delta, built: set<Handle>, h: Handle)
    requires Disjoint(KeySets(m)) && ListsDisjoint(d) && AllNamed(m)
    requires h in m.localPending && h in m.info && h !in d.added && h !in d.removed
    ensures var w := WorkFor(NO_WORK, m, d);
            && h in AfterWork(m, w, built).localPending && h in AfterWork(m, w, built).info
            && (AfterWork(m, w, built).info[h] == m.info[h] <==> h !in built || CurrentDetails(w, built) == m.info[h])
  {
    hide AfterWork, WorkFor;
    AfterWorkIs(m, d, built);
    assert h in KeySets(AfterWork(m, WorkFor(NO_WORK, m, d), built)).localPending;
  }
}
