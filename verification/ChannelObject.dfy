/**
 The channel's private object: the fields of TelepathyQt4/channel.cpp, with those that change
 together kept in one record, and the methods that update them in place.  Each method is proved to
 have exactly the effect the state machine gives it.  Calls made and contact builds requested are
 recorded in ghost fields.
 */
module ChannelObject {
  import opened Handles
  import opened GroupDelta
  import opened GroupReplica
  import M = ChannelMachine
  import I = ChannelInvariants

  class ChannelPrivate {
    var valid: bool
    var ready: bool
    var interfaces: M.Interfaces
    var listening: bool
    var introspectQueue: seq<M.Introspection>
    var introspectingConference: bool

    var groupFlags: Flags
    var usingMembersChangedDetailed: bool
    var groupHaveMembers: bool
    var buildingContacts: bool
    var groupMembersChangedQueue: seq<Delta>
    var work: Work
    var initial: Initial
    var maps: Maps
    var parties: Parties
    var groupSelfContactRemoveInfo: Option<ChangeDetails>

    ghost var reports: nat
    ghost var completions: nat
    ghost var calls: seq<M.Introspection>
    ghost var lookups: seq<set<Handle>>
    ghost var history: History

    ghost function TheGroup(): Group
      reads this
    {
      Group(groupFlags, usingMembersChangedDetailed, groupHaveMembers, buildingContacts,
            groupMembersChangedQueue, work, initial, maps, parties, groupSelfContactRemoveInfo, history)
    }

    /** The abstract channel this object stands for. */
    ghost function State(): M.Channel
      reads this
    {
      M.Channel(valid, ready, reports, completions, interfaces, listening, introspectQueue, introspectingConference,
                calls, lookups, TheGroup())
    }

    constructor ()
      ensures State() == M.INITIAL_CHANNEL
    {
      valid, ready, interfaces, listening := true, false, M.Interfaces(false, false), false;
      introspectQueue, introspectingConference := [], false;
      groupFlags, usingMembersChangedDetailed, groupHaveMembers, buildingContacts := {}, false, false, false;
      groupMembersChangedQueue, work, initial, maps := [], NO_WORK, Initial([], [], []), NO_MAPS;
      parties, groupSelfContactRemoveInfo := Parties(0, None, false, 0, None, false, 0, None), None;
      reports, completions, calls, lookups, history := 0, 0, [M.ConnectionReady], [], NO_HISTORY;
    }

    // -------------------------------------------------------------- readiness

    predicate IsReady()
      reads this
    {
      valid && ready
    }

    method SetReady()
      requires !IsReady()
      modifies this
      ensures State() == M.SetReady(old(State()))
    {
      reports := reports + 1;
      SetIntrospectCompleted();
    }

    /** What the readiness helper does with the report. */
    method SetIntrospectCompleted()
      modifies this
      ensures State() == M.SetIntrospectCompleted(old(State()))
    {
      if !valid {
        return;
      }
      ready := true;
      completions := completions + 1;
      history := history.(snapshot := ContactSets(maps), emitted := []);
    }

    method Invalidate()
      modifies this
      ensures State() == M.Invalidated(old(State()))
    {
      valid := false;
      ready := false;
    }

    method ContinueIntrospection()
      modifies this
      ensures State() == M.ContinueIntrospection(old(State()))
    {
      hide M.SetReady;
      if introspectQueue == [] {
        if !IsReady() {
          if groupMembersChangedQueue == [] && !buildingContacts && !introspectingConference {
            SetReady();
          }
        }
      } else {
        var call := introspectQueue[0];
        introspectQueue := introspectQueue[1..];
        calls := calls + [call];
        if call.GroupProperties? {
          listening := true;
        } else if call.ConferenceProperties? {
          introspectingConference := true;
        }
      }
    }

    // -------------------------------------------------------------- contact builds

    /** The handles buildContacts collects in a list; their order does not matter. */
    method HandlesToBuild() returns (toBuild: set<Handle>)
      ensures toBuild == ToBuild(work, parties)
    {
      toBuild := work.addingMembers + work.addingLocal + work.addingRemote;
      if work.current.Some? && work.current.value.details.Actor() != 0 {
        toBuild := toBuild + {work.current.value.details.Actor()};
      }
      if parties.initiatorContact.None? && parties.initiatorHandle != 0 {
        toBuild := toBuild + {parties.initiatorHandle};
      }
      if parties.targetContact.None? && parties.targetIsContact && parties.targetHandle != 0 {
        toBuild := toBuild + {parties.targetHandle};
      }
      if parties.selfHandle != 0 {
        toBuild := toBuild + {parties.selfHandle};
      }
    }

    method BuildContacts()
      modifies this
      ensures State() == M.BuildContacts(old(State()))
    {
      hide ToBuild, NothingToBuild;
      buildingContacts := true;
      var toBuild := HandlesToBuild();
      NothingToBuildIff(work, parties);
      if toBuild == {} {
        SkipBuild();
      } else {
        lookups := lookups + [toBuild];
      }
    }

    /** There is nobody to look up, not even under the self handle: no self contact either. */
    method SkipBuild()
      requires parties.selfHandle == 0
      modifies this
      ensures State()
           == old(State()).(group := old(TheGroup()).(building := false, parties := old(parties).(selfContact := None),
                                                      history := old(history).(skipped := true)))
    {
      if parties.selfHandle == 0 && parties.selfContact.Some? {
        parties := parties.(selfContact := None);
      }
      buildingContacts, history := false, history.(skipped := true);
    }

    /** Nothing is waiting to be added, as asserted before a delta is taken up. */
    ghost predicate NothingPending()
      reads this
    {
      work.addingMembers == {} && work.addingLocal == {} && work.addingRemote == {}
    }

    method ProcessMembersChanged()
      requires !buildingContacts
      requires groupMembersChangedQueue != [] ==> NothingPending()
      modifies this
      ensures State() == M.ProcessMembersChanged(old(State()))
    {
      hide M.BuildContacts, M.ContinueIntrospection, StartDelta;
      if groupMembersChangedQueue == [] {
        if parties.retrieveSelf {
          parties := parties.(retrieveSelf := false);
          BuildContacts();
          return;
        }
        if !IsReady() {
          if introspectQueue == [] {
            ContinueIntrospection();
          }
        }
        return;
      }
      TakeUpNext();
      BuildContacts();
    }

    /** Dequeuing the first delta and finding out what it needs. */
    method TakeUpNext()
      requires groupMembersChangedQueue != [] && NothingPending()
      modifies this
      ensures State() == old(State()).(group := StartDelta(old(TheGroup())))
    {
      hide WorkFor;
      parties := parties.(retrieveSelf := false);
      var info := groupMembersChangedQueue[0];
      groupMembersChangedQueue := groupMembersChangedQueue[1..];
      TakeUp(info);
    }

    /** The loops of processMembersChanged over the four lists of the delta just dequeued. */
    method TakeUp(info: Delta)
      modifies `work
      ensures work == WorkFor(old(work), maps, info)
    {
      work := work.(current := Some(info));
      TakeUpAdded(info);
      TakeUpPending(info);
    }

    method TakeUpAdded(info: Delta)
      modifies `work
      ensures work == old(work).(addingMembers := old(work).addingMembers + AddedFrom(info.added, maps.members.Keys),
                                 leavingLocal := old(work).leavingLocal + AddedIn(info.added, maps.localPending.Keys),
                                 leavingRemote := old(work).leavingRemote
                                   + AddedIn(info.added, maps.remotePending.Keys - maps.localPending.Keys))
    {
      ghost var w := work;
      NothingAdded(info.added, maps.members.Keys);
      NothingAdded(info.added, maps.localPending.Keys);
      NothingAdded(info.added, maps.remotePending.Keys - maps.localPending.Keys);
      hide AddedFrom, AddedIn;
      for i := 0 to |info.added|
        invariant work == w.(addingMembers := w.addingMembers + AddedFrom(info.added[..i], maps.members.Keys),
                             leavingLocal := w.leavingLocal + AddedIn(info.added[..i], maps.localPending.Keys),
                             leavingRemote := w.leavingRemote
                               + AddedIn(info.added[..i], maps.remotePending.Keys - maps.localPending.Keys))
      {
        var handle := info.added[i];
        AddedOneMore(info.added, i, maps.members.Keys);
        AddedOneMore(info.added, i, maps.localPending.Keys);
        AddedOneMore(info.added, i, maps.remotePending.Keys - maps.localPending.Keys);
        if handle !in maps.members {
          work := work.(addingMembers := work.addingMembers + {handle});
        }
        if handle in maps.localPending {
          work := work.(leavingLocal := work.leavingLocal + {handle});
        } else if handle in maps.remotePending {
          work := work.(leavingRemote := work.leavingRemote + {handle});
        }
      }
      assert info.added[..|info.added|] == info.added;
    }

    method TakeUpPending(info: Delta)
      modifies `work
      ensures work == old(work).(addingLocal := old(work).addingLocal
                                   + AddedFrom(info.localPending, maps.localPending.Keys),
                                 addingRemote := old(work).addingRemote
                                   + AddedFrom(info.remotePending, maps.remotePending.Keys),
                                 removing := old(work).removing + info.removed)
    {
      ghost var w := work;
      for i := 0 to |info.localPending|
        invariant work == w.(addingLocal := w.addingLocal + AddedFrom(info.localPending[..i], maps.localPending.Keys))
      {
        var handle := info.localPending[i];
        AddedOneMore(info.localPending, i, maps.localPending.Keys);
        if handle !in maps.localPending {
          work := work.(addingLocal := work.addingLocal + {handle});
        }
      }
      assert info.localPending[..|info.localPending|] == info.localPending;

      ghost var w1 := work;
      for i := 0 to |info.remotePending|
        invariant work == w1.(addingRemote := w1.addingRemote
                                + AddedFrom(info.remotePending[..i], maps.remotePending.Keys))
      {
        var handle := info.remotePending[i];
        AddedOneMore(info.remotePending, i, maps.remotePending.Keys);
        if handle !in maps.remotePending {
          work := work.(addingRemote := work.addingRemote + {handle});
        }
      }
      assert info.remotePending[..|info.remotePending|] == info.remotePending;

      ghost var w2 := work;
      for i := 0 to |info.removed|
        invariant work == w2.(removing := w2.removing + info.removed[..i])
      {
        work := work.(removing := work.removing + [info.removed[i]]);
      }
    }

    lemma NothingAdded(added: seq<Handle>, present: set<Handle>)
      ensures AddedFrom(added[..0], present) == AddedIn(added[..0], present) == {}
    {
    }

    lemma AddedOneMore(added: seq<Handle>, i: nat, present: set<Handle>)
      requires i < |added|
      ensures AddedFrom(added[..i + 1], present)
           == AddedFrom(added[..i], present) + (if added[i] in present then {} else {added[i]})
      ensures AddedIn(added[..i + 1], present)
           == AddedIn(added[..i], present) + (if added[i] in present then {added[i]} else {})
    {
      assert added[..i + 1] == added[..i] + [added[i]];
    }

    // -------------------------------------------------------------- putting contacts to use

    /** The first loop of updateContacts: every contact goes where its handle was waited for. */
    method InsertContacts(contacts: seq<Contact>)
      returns (membersAdded: set<Contact>, localAdded: set<Contact>, remoteAdded: set<Contact>, actor: Option<Contact>)
      modifies `maps, `parties
      ensures var built := HandlesOf(contacts);
              && maps == InsertedMaps(old(maps), work, built)
              && parties == InsertedParties(old(parties), built)
              && membersAdded == WithHandles(BuiltMembers(work, built))
              && localAdded == WithHandles(BuiltLocal(work, built))
              && remoteAdded == WithHandles(BuiltRemote(work, built))
              && actor == ActorIn(work, built)
    {
      membersAdded, localAdded, remoteAdded, actor := {}, {}, {}, None;
      ghost var m, p, built := maps, parties, {};
      NothingInserted(maps, parties, work);
      hide *;
      for i := 0 to |contacts|
        invariant built == HandlesOf(contacts[..i])
        invariant maps == InsertedMaps(m, work, built)
        invariant parties == InsertedParties(p, built)
        invariant membersAdded == WithHandles(BuiltMembers(work, built))
        invariant localAdded == WithHandles(BuiltLocal(work, built))
        invariant remoteAdded == WithHandles(BuiltRemote(work, built))
        invariant actor == ActorIn(work, built)
      {
        var contact := contacts[i];
        var handle := contact.handle;
        InsertedOneMore(m, work, built, contact);
        PartiesOneMore(p, work, built, contact);
        AddedOneMoreContact(work, built, contact);
        if handle in work.addingMembers {
          membersAdded := membersAdded + {contact};
          maps := maps.(members := maps.members[handle := contact]);
        } else if handle in work.addingLocal {
          localAdded := localAdded + {contact};
          maps := maps.(localPending := maps.localPending[handle := contact],
                        info := maps.info[handle := ChangeDetails(None, NO_DETAILS)]);
        } else if handle in work.addingRemote {
          remoteAdded := remoteAdded + {contact};
          maps := maps.(remotePending := maps.remotePending[handle := contact]);
        }
        if parties.selfHandle == handle && parties.selfContact != Some(contact) {
          parties := parties.(selfContact := Some(contact));
        }
        if parties.initiatorContact.None? && parties.initiatorHandle == handle {
          parties := parties.(initiatorContact := Some(contact));
        }
        if parties.targetContact.None? && parties.targetIsContact && parties.targetHandle == handle {
          parties := parties.(targetContact := Some(contact));
        }
        if work.current.Some? && work.current.value.details.Actor() == handle {
          actor := Some(contact);
        }
        HandlesOneMore(contacts, i);
        built := built + {handle};
      }
      assert contacts[..|contacts|] == contacts;
    }

    /** The second loop of updateContacts: details for every contact with change info. */
    method RefreshChangeInfo(contacts: seq<Contact>, details: ChangeDetails)
      modifies `maps
      ensures maps == old(maps).(info := Refreshed(old(maps).info, HandlesOf(contacts), details))
    {
      ghost var m, built := maps, {};
      NothingRefreshed(maps.info, details);
      hide *;
      for i := 0 to |contacts|
        invariant built == HandlesOf(contacts[..i])
        invariant maps == m.(info := Refreshed(m.info, built, details))
      {
        var handle := contacts[i].handle;
        RefreshedOneMore(m.info, built, details, handle);
        if handle in maps.info {
          maps := maps.(info := maps.info[handle := details]);
        }
        HandlesOneMore(contacts, i);
        built := built + {handle};
      }
      assert contacts[..|contacts|] == contacts;
    }

    /** The removal loop of updateContacts.  The contact to remove is kept from one handle to the
        next, so a handle in no map inserts the contact removed before it once more. */
    method RemoveMembers() returns (removed: set<Contact>)
      modifies `maps
      ensures Removal(maps, removed) == RemoveEach(Removal(old(maps), {}), work.removing)
    {
      ghost var m := maps;
      removed := {};
      var contactToRemove: Option<Contact> := None;
      for i := 0 to |work.removing|
        invariant Removal(maps, removed) == RemoveEach(Removal(m, {}), work.removing[..i])
        invariant contactToRemove.Some? ==> contactToRemove.value in removed
      {
        var handle := work.removing[i];
        RemovedOneMore(Removal(m, {}), work.removing, i);
        hide RemoveEach;
        if handle in maps.members {
          contactToRemove := Some(maps.members[handle]);
          maps := maps.(members := maps.members - {handle});
        } else if handle in maps.localPending {
          contactToRemove := Some(maps.localPending[handle]);
          maps := maps.(localPending := maps.localPending - {handle});
        } else if handle in maps.remotePending {
          contactToRemove := Some(maps.remotePending[handle]);
          maps := maps.(remotePending := maps.remotePending - {handle});
        }
        maps := maps.(info := maps.info - {handle});
        if contactToRemove.Some? {
          removed := removed + {contactToRemove.value};
        }
      }
      assert work.removing[..|work.removing|] == work.removing;
    }

    /** Everything updateContacts does to the maps, and the signal it amounts to. */
    method UpdateMaps(contacts: seq<Contact>) returns (emission: Emission)
      modifies `maps, `parties, `work
      ensures var built := HandlesOf(contacts);
              && maps == AfterWork(old(maps), old(work), built)
              && parties == PartiesAfter(old(parties), built)
              && emission == EmissionFor(old(maps), old(work), built)
              && work == Work(old(work).current, {}, {}, {}, [], {}, {})
    {
      ghost var m, w, p, built := maps, work, parties, HandlesOf(contacts);
      InsertedThenRefreshed(m, w, built);
      InsertedThenSelf(p, built);
      RemovedThenDropped(m, w, built);
      hide *;
      var membersAdded, localAdded, remoteAdded, actor := InsertContacts(contacts);
      if parties.selfHandle == 0 && parties.selfContact.Some? {
        parties := parties.(selfContact := None);
      }
      work := work.(addingMembers := {}, addingLocal := {}, addingRemote := {});
      var details := ChangeDetails(actor, if work.current.Some? then work.current.value.details else NO_DETAILS);
      RefreshChangeInfo(contacts, details);
      var removed := RemoveMembers();
      maps := maps.(localPending := maps.localPending - work.leavingLocal,
                    remotePending := maps.remotePending - work.leavingRemote);
      work := work.(removing := [], leavingLocal := {}, leavingRemote := {});
      emission := Emission(membersAdded, localAdded, remoteAdded, removed, details);
    }

    /** Apply the current delta and signal it, if anything changed and anyone may know. */
    method FinishDelta(contacts: seq<Contact>)
      modifies `maps, `parties, `work, `groupSelfContactRemoveInfo, `history
      ensures TheGroup() == GroupReplica.FinishDelta(old(TheGroup()), HandlesOf(contacts), IsReady())
    {
      hide AfterWork, EmissionFor, PartiesAfter, Noteworthy, HistoryAfter;
      ghost var w := work;
      SelfStays(parties, HandlesOf(contacts));
      var emission := UpdateMaps(contacts);
      if Noteworthy(emission) {
        if work.current.Some? && parties.selfHandle in work.current.value.removed {
          groupSelfContactRemoveInfo := Some(emission.details);
        }
      }
      history := HistoryAfter(history, w, emission, IsReady());
      work := work.(current := None);
    }

    method UpdateContacts(contacts: seq<Contact>)
      requires !buildingContacts
      modifies this
      ensures State() == M.UpdateContacts(old(State()), HandlesOf(contacts))
    {
      hide M.ProcessMembersChanged, GroupReplica.FinishDelta;
      FinishedIsIdle(TheGroup(), HandlesOf(contacts), IsReady());
      assert NO_WORK == Work(None, {}, {}, {}, [], {}, {});
      FinishDelta(contacts);
      ProcessMembersChanged();
    }

    method GotContacts(reply: M.LookupReply)
      requires lookups != []
      modifies this
      ensures State() == M.GotContacts(old(State()), reply)
    {
      hide M.UpdateContacts, M.PartiesAfterLookup;
      var contacts := TakeLookup(reply);
      UpdateContacts(contacts);
    }

    /** The contacts built, if the build did not fail; a refused self handle has no contact. */
    method TakeLookup(reply: M.LookupReply) returns (contacts: seq<Contact>)
      requires lookups != []
      modifies `buildingContacts, `lookups, `parties
      ensures HandlesOf(contacts) == M.Built(reply)
      ensures !buildingContacts && lookups == old(lookups)[1..] && parties == M.PartiesAfterLookup(old(parties), reply)
    {
      buildingContacts := false;
      lookups := lookups[1..];
      contacts := [];
      if reply.LookupFound? {
        contacts := reply.contacts;
        if reply.invalid != [] {
          if parties.selfHandle != 0 && parties.selfHandle in reply.invalid {
            parties := parties.(selfContact := None);
          }
        }
      }
      assert HandlesOf([]) == {};
    }

    // -------------------------------------------------------------- initial members

    /** What nowHaveInitialMembers asserts on entry. */
    ghost predicate NoMembersYet()
      reads this
    {
      && !IsReady() && !buildingContacts && !groupHaveMembers && NothingPending()
      && maps.members == map[] && maps.localPending == map[] && maps.remotePending == map[]
    }

    method NowHaveInitialMembers()
      requires NoMembersYet()
      modifies this
      ensures State() == M.NowHaveInitialMembers(old(State()))
    {
      hide M.ProcessMembersChanged, HaveInitialMembers;
      TakeInitialMembers();
      ProcessMembersChanged();
    }

    method TakeInitialMembers()
      requires NoMembersYet()
      modifies `groupHaveMembers, `groupMembersChangedQueue, `history
      ensures State() == old(State()).(group := HaveInitialMembers(old(TheGroup())))
    {
      ghost var was := TheGroup();
      groupHaveMembers := true;
      QueueInitialMembers();
      history := history.(accepted := history.accepted + InitialDeltas(initial));
      HasInitialMembers(was);
    }

    /** One delta for the members and remote pending, and one for each local pending member. */
    method QueueInitialMembers()
      modifies `groupMembersChangedQueue
      ensures groupMembersChangedQueue == old(groupMembersChangedQueue) + InitialDeltas(initial)
    {
      ghost var first := [Delta(initial.members, [], [], initial.remotePending, NO_DETAILS)];
      groupMembersChangedQueue := groupMembersChangedQueue
                                  + [Delta(initial.members, [], [], initial.remotePending, NO_DETAILS)];
      for i := 0 to |initial.localPending|
        invariant groupMembersChangedQueue
               == old(groupMembersChangedQueue) + (first + LocalDeltas(initial.localPending)[..i])
      {
        var info := initial.localPending[i];
        var details := NO_DETAILS;
        if info.actor != 0 {
          details := details.(actor := Some(info.actor));
        }
        if info.reason != 0 {
          details := details.(reason := Some(info.reason));
        }
        if info.message != "" {
          details := details.(message := Some(info.message));
        }
        assert LocalDeltas(initial.localPending)[..i + 1]
            == LocalDeltas(initial.localPending)[..i] + [LocalDeltas(initial.localPending)[i]];
        groupMembersChangedQueue := groupMembersChangedQueue + [Delta([], [], [info.toBeAdded], [], details)];
      }
    }

    method FakeGroupInterfaceIfNeeded(connectionSelf: Handle) returns (faked: bool)
      requires NoMembersYet()
      modifies this
      ensures faked == M.FakesGroup(old(State()))
      ensures State() == M.FakeGroup(old(State()), connectionSelf)
    {
      hide M.NowHaveInitialMembers;
      if interfaces.group {
        return false;
      } else if !parties.targetIsContact {
        return false;
      }
      if connectionSelf != 0 && parties.targetHandle != 0 {
        parties := parties.(selfHandle := connectionSelf);
        initial := initial.(members := [parties.selfHandle, parties.targetHandle]);
        NowHaveInitialMembers();
      }
      return true;
    }

    // -------------------------------------------------------------- main interface

    method NowHaveInterfaces()
      modifies this
      ensures State() == M.NowHaveInterfaces(old(State()))
    {
      if interfaces.group {
        introspectQueue := introspectQueue + [M.GroupProperties];
      }
      if interfaces.conference {
        introspectQueue := introspectQueue + [M.ConferenceProperties];
      }
    }

    method ExtractMainProps(props: M.MainProps, connectionSelf: Handle)
      requires NoMembersYet()
      modifies this
      ensures State() == M.ExtractMainProps(old(State()), props, connectionSelf)
    {
      hide M.FakeGroup, M.BuildContacts, M.NowHaveInterfaces, M.PartiesIn;
      if !props.Usable() {
        introspectQueue := introspectQueue + [M.FallbackChannelType];
        introspectQueue := introspectQueue + [M.FallbackHandle];
        introspectQueue := introspectQueue + [M.FallbackInterfaces];
      } else {
        TakeMainProps(props);
        var faked := FakeGroupInterfaceIfNeeded(connectionSelf);
        if !faked && !interfaces.group && parties.initiatorHandle != 0 {
          BuildContacts();
        }
        NowHaveInterfaces();
      }
    }

    method TakeMainProps(props: M.MainProps)
      requires props.Usable()
      modifies `interfaces, `parties
      ensures interfaces == props.interfaces.value && parties == M.PartiesIn(old(parties), props)
    {
      interfaces := props.interfaces.value;
      parties := parties.(targetHandle := props.targetHandle.value, targetIsContact := props.targetIsContact.value);
      if props.initiatorHandle.Some? {
        parties := parties.(initiatorHandle := props.initiatorHandle.value);
      }
    }

    // -------------------------------------------------------------- replies

    /** Replies arrive to calls made, in a state runs can reach; then the assertions of
        nowHaveInitialMembers hold wherever a reply gets there. */
    ghost predicate Awaits(call: M.Introspection)
      reads this
    {
      I.Inv(State()) && call in calls
    }

    method OnConnectionReady(selfHandle: Handle, immutable: M.Immutable)
      requires Awaits(M.ConnectionReady)
      modifies this
      ensures State() == M.GotConnection(old(State()), selfHandle, immutable)
    {
      NoMembersBefore(State(), M.ConnectionReady);
      hide M.ContinueIntrospection, M.ExtractMainProps, I.Inv, M.Without;
      calls := M.Without(calls, M.ConnectionReady);
      assert parties.selfHandle == 0;
      parties := parties.(selfHandle := selfHandle, initiatorHandle := M.InitiatorIn(immutable));
      match immutable
      case Complete(props) =>
        ExtractMainProps(props, selfHandle);
        ContinueIntrospection();
      case Partial(_) =>
        calls := calls + [M.MainProperties];
    }

    method GotMainProperties(props: M.MainProps, connectionSelf: Handle)
      requires Awaits(M.MainProperties)
      modifies this
      ensures State() == M.GotMainProperties(old(State()), props, connectionSelf)
    {
      NoMembersBefore(State(), M.MainProperties);
      hide M.ContinueIntrospection, M.ExtractMainProps, I.Inv, M.Without;
      calls := M.Without(calls, M.MainProperties);
      ExtractMainProps(props, connectionSelf);
      ContinueIntrospection();
    }

    method GotChannelType(ok: bool)
      requires Awaits(M.FallbackChannelType)
      modifies this
      ensures State() == M.GotChannelType(old(State()), ok)
    {
      hide M.ContinueIntrospection, M.Invalidated, I.Inv, M.Without;
      calls := M.Without(calls, M.FallbackChannelType);
      if !ok {
        Invalidate();
        return;
      }
      ContinueIntrospection();
    }

    method GotHandle(reply: Option<M.Target>)
      requires Awaits(M.FallbackHandle)
      modifies this
      ensures State() == M.GotHandle(old(State()), reply)
    {
      hide M.ContinueIntrospection, M.Invalidated, I.Inv, M.Without;
      calls := M.Without(calls, M.FallbackHandle);
      if reply.None? {
        Invalidate();
        return;
      }
      parties := parties.(targetIsContact := reply.value.isContact, targetHandle := reply.value.handle);
      ContinueIntrospection();
    }

    method GotInterfaces(reply: Option<M.Interfaces>, connectionSelf: Handle)
      requires Awaits(M.FallbackInterfaces)
      modifies this
      ensures State() == M.GotInterfaces(old(State()), reply, connectionSelf)
    {
      NoMembersBefore(State(), M.FallbackInterfaces);
      hide M.ContinueIntrospection, M.Invalidated, M.FakeGroup, M.NowHaveInterfaces, I.Inv, M.Without;
      calls := M.Without(calls, M.FallbackInterfaces);
      if reply.None? {
        Invalidate();
        return;
      }
      interfaces := reply.value;
      InterfacesChangeOnlyQueue(State());
      NowHaveInterfaces();
      var _ := FakeGroupInterfaceIfNeeded(connectionSelf);
      ContinueIntrospection();
    }

    // -------------------------------------------------------------- group interface

    /** Returns whether anyone may be told of the change. */
    method SetGroupFlags(newGroupFlags: Flags) returns (changed: bool)
      modifies `groupFlags, `usingMembersChangedDetailed
      ensures TheGroup() == SetFlags(old(TheGroup()), interfaces.group, newGroupFlags)
      ensures changed == (old(groupFlags) != newGroupFlags && interfaces.group)
    {
      if groupFlags == newGroupFlags {
        return false;
      }
      groupFlags := newGroupFlags;
      if !interfaces.group {
        return false;
      }
      if FLAG_MEMBERS_CHANGED_DETAILED in groupFlags && !usingMembersChangedDetailed {
        usingMembersChangedDetailed := true;
      } else if FLAG_MEMBERS_CHANGED_DETAILED !in groupFlags && usingMembersChangedDetailed {
        usingMembersChangedDetailed := false;
      }
      return true;
    }

    method Extract0176GroupProps(props: M.GroupProps)
      requires NoMembersYet()
      modifies this
      ensures State() == M.ExtractGroupProps(old(State()), props)
    {
      SetFlagsTouchesFlags(TheGroup(), interfaces.group, if props.Usable() then props.flags.value else {});
      hide M.NowHaveInitialMembers, SetFlags, M.WithSelf;
      if !props.Usable() {
        introspectQueue := introspectQueue + [M.FallbackFlags];
        introspectQueue := introspectQueue + [M.FallbackMembers];
        introspectQueue := introspectQueue + [M.FallbackLocalPending];
        introspectQueue := introspectQueue + [M.FallbackSelfHandle];
      } else {
        TakeGroupProps(props);
        NowHaveInitialMembers();
      }
    }

    method TakeGroupProps(props: M.GroupProps)
      requires props.Usable()
      modifies `groupFlags, `usingMembersChangedDetailed, `initial, `parties
      ensures var g := SetFlags(old(TheGroup()), interfaces.group, props.flags.value);
              State() == old(State()).(group := g.(
                initial := Initial(props.members.value, props.localPending.value, props.remotePending.value),
                parties := M.WithSelf(g.parties, props.selfHandle.value)))
    {
      hide SetFlags, M.WithSelf;
      SetFlagsTouchesFlags(TheGroup(), interfaces.group, props.flags.value);
      var _ := SetGroupFlags(props.flags.value);
      TakeInitialProps(props);
    }

    method TakeInitialProps(props: M.GroupProps)
      requires props.Usable()
      modifies `initial, `parties
      ensures initial == Initial(props.members.value, props.localPending.value, props.remotePending.value)
      ensures parties == M.WithSelf(old(parties), props.selfHandle.value)
    {
      initial := Initial(props.members.value, props.localPending.value, props.remotePending.value);
      if props.selfHandle.value != 0 {
        parties := parties.(selfHandle := props.selfHandle.value);
      }
    }

    method GotGroupProperties(props: M.GroupProps)
      requires Awaits(M.GroupProperties)
      modifies this
      ensures State() == M.GotGroupProperties(old(State()), props)
    {
      NoMembersBefore(State(), M.GroupProperties);
      hide M.ContinueIntrospection, M.ExtractGroupProps, I.Inv, M.Without;
      calls := M.Without(calls, M.GroupProperties);
      Extract0176GroupProps(props);
      ContinueIntrospection();
    }

    method GotGroupFlags(reply: Option<Flags>)
      requires Awaits(M.FallbackFlags)
      modifies this
      ensures State() == M.GotGroupFlags(old(State()), reply)
    {
      hide M.ContinueIntrospection, I.Inv, M.Without, SetFlags;
      calls := M.Without(calls, M.FallbackFlags);
      if reply.Some? {
        TakeFallbackFlags(reply.value);
      }
      ContinueIntrospection();
    }

    /** The fallback call cannot promise the properties that were found missing. */
    method TakeFallbackFlags(flags: Flags)
      modifies `groupFlags, `usingMembersChangedDetailed
      ensures var g := SetFlags(old(TheGroup()), interfaces.group, flags);
              TheGroup() == g.(flags := g.flags - {FLAG_PROPERTIES})
    {
      hide SetFlags;
      SetFlagsTouchesFlags(TheGroup(), interfaces.group, flags);
      var _ := SetGroupFlags(flags);
      if FLAG_PROPERTIES in groupFlags {
        groupFlags := groupFlags - {FLAG_PROPERTIES};
      }
    }

    method GotAllMembers(reply: Option<M.AllMembers>)
      requires Awaits(M.FallbackMembers)
      modifies this
      ensures State() == M.GotAllMembers(old(State()), reply)
    {
      hide M.ContinueIntrospection, I.Inv, M.Without, M.BareInfos;
      calls := M.Without(calls, M.FallbackMembers);
      if reply.Some? {
        AppendBareInfos(reply.value.localPending);
        initial := initial.(members := reply.value.members, remotePending := reply.value.remotePending);
      }
      ContinueIntrospection();
    }

    /** The loop of gotAllMembers over the local pending handles. */
    method AppendBareInfos(handles: seq<Handle>)
      modifies `initial
      ensures initial == old(initial).(localPending := old(initial).localPending + M.BareInfos(handles))
    {
      ghost var first := initial;
      for i := 0 to |handles|
        invariant initial == first.(localPending := first.localPending + M.BareInfos(handles)[..i])
      {
        assert M.BareInfos(handles)[..i + 1] == M.BareInfos(handles)[..i] + [M.BareInfos(handles)[i]];
        initial := initial.(localPending := initial.localPending + [LocalPendingInfo(handles[i], 0, 0, "")]);
      }
    }

    method GotLocalPendingMembersWithInfo(reply: Option<seq<LocalPendingInfo>>)
      requires Awaits(M.FallbackLocalPending)
      modifies this
      ensures State() == M.GotLocalPending(old(State()), reply)
    {
      hide M.ContinueIntrospection, I.Inv, M.Without;
      calls := M.Without(calls, M.FallbackLocalPending);
      if reply.Some? {
        initial := initial.(localPending := reply.value);
      }
      ContinueIntrospection();
    }

    method GotSelfHandle(reply: Option<Handle>)
      requires Awaits(M.FallbackSelfHandle)
      modifies this
      ensures State() == M.GotSelfHandle(old(State()), reply)
    {
      NoMembersBefore(State(), M.FallbackSelfHandle);
      SelfHandleReplied(State(), reply);
      hide M.GotSelfHandle, M.ContinueIntrospection, M.NowHaveInitialMembers, I.Inv, M.Without, SelfTaken;
      calls := M.Without(calls, M.FallbackSelfHandle);
      TakeSelfHandle(reply);
      NowHaveInitialMembers();
      ContinueIntrospection();
    }

    /** A self handle of zero does not replace the one taken from the connection. */
    method TakeSelfHandle(reply: Option<Handle>)
      modifies `parties
      ensures State() == SelfTaken(old(State()), reply)
    {
      if reply.Some? && reply.value != 0 {
        parties := parties.(selfHandle := reply.value);
      }
    }

    method GotConferenceProperties()
      requires Awaits(M.ConferenceProperties)
      modifies this
      ensures State() == M.GotConferenceProperties(old(State()))
    {
      hide M.ContinueIntrospection, I.Inv, M.Without;
      calls := M.Without(calls, M.ConferenceProperties);
      introspectingConference := false;
      ContinueIntrospection();
    }

    // -------------------------------------------------------------- signals

    /** The plain signal carries its details as arguments. */
    method OnMembersChanged(message: string, added: seq<Handle>, removed: seq<Handle>, localPending: seq<Handle>,
                            remotePending: seq<Handle>, actor: Handle, reason: nat, actorKnown: bool)
      requires I.Inv(State())
      modifies this
      ensures State() == M.OnMembersChanged(old(State()),
                           Delta(added, removed, localPending, remotePending, PlainDetails(message, actor, reason)),
                           actorKnown)
    {
      hide M.DoMembersChanged, I.Inv;
      if usingMembersChangedDetailed {
        return;
      }
      var details := NO_DETAILS;
      if message != "" {
        details := details.(message := Some(message));
      }
      if actor != 0 {
        details := details.(actor := Some(actor));
      }
      details := details.(reason := Some(reason));
      DoMembersChangedDetailed(Delta(added, removed, localPending, remotePending, details), actorKnown);
    }

    method OnMembersChangedDetailed(delta: Delta, actorKnown: bool)
      requires I.Inv(State())
      modifies this
      ensures State() == M.OnMembersChangedDetailed(old(State()), delta, actorKnown)
    {
      hide M.DoMembersChanged, I.Inv;
      if !usingMembersChangedDetailed {
        return;
      }
      DoMembersChangedDetailed(delta, actorKnown);
    }

    method DoMembersChangedDetailed(delta: Delta, actorKnown: bool)
      requires I.Inv(State())
      modifies this
      ensures State() == M.DoMembersChanged(old(State()), delta, actorKnown)
    {
      hide M.DoMembersChanged, I.Inv;
      Received(State(), delta, actorKnown);
      if !buildingContacts {
        NothingPendingWhenIdle(State());
      }
      var accepted := Receive(delta, actorKnown);
      if accepted && !buildingContacts {
        ProcessMembersChanged();
      }
    }

    /** Everything doMembersChangedDetailed does short of looking at the queue. */
    method Receive(delta: Delta, actorKnown: bool) returns (accepted: bool)
      modifies `parties, `groupSelfContactRemoveInfo, `groupMembersChangedQueue, `history
      ensures accepted == Accepts(old(TheGroup()), delta)
      ensures TheGroup() == GroupReplica.Receive(old(TheGroup()), delta, actorKnown)
    {
      accepted := false;
      if !groupHaveMembers {
        return;
      }
      if delta.added == [] && delta.removed == [] && delta.localPending == [] && delta.remotePending == [] {
        return;
      }
      if parties.selfHandle in delta.removed {
        if delta.details.Reason() == REASON_RENAMED {
          if |delta.removed| != 1 || |delta.added| + |delta.localPending| + |delta.remotePending| != 1 {
            return;
          }
          var newHandle := 0;
          if delta.added != [] {
            newHandle := delta.added[0];
          } else if delta.localPending != [] {
            newHandle := delta.localPending[0];
          } else if delta.remotePending != [] {
            newHandle := delta.remotePending[0];
          }
          OnSelfHandleChanged(newHandle);
          return;
        }
        var contact := if actorKnown then Some(Contact(delta.details.Actor())) else None;
        groupSelfContactRemoveInfo := Some(ChangeDetails(contact, delta.details));
      }
      groupMembersChangedQueue := groupMembersChangedQueue + [delta];
      history := history.(accepted := history.accepted + [delta]);
      return true;
    }

    method OnGroupFlagsChanged(added: Flags, removed: Flags)
      modifies this
      ensures State() == M.OnGroupFlagsChanged(old(State()), added, removed)
    {
      hide SetFlags;
      SetFlagsTouchesFlags(TheGroup(), interfaces.group, ChangedFlags(groupFlags, added, removed));
      var reallyAdded := added - groupFlags;
      var reallyRemoved := removed * groupFlags;
      var _ := SetGroupFlags((groupFlags + reallyAdded) - reallyRemoved);
    }

    method OnSelfHandleChanged(selfHandle: Handle)
      modifies `parties
      ensures parties == SelfHandleChanged(old(parties), selfHandle)
    {
      if selfHandle != parties.selfHandle {
        parties := parties.(selfHandle := selfHandle, retrieveSelf := true);
      }
    }
  }

  /** The maps when the contacts of some handles have been inserted. */
  ghost function InsertedMaps(m: Maps, w: Work, built: set<Handle>): Maps {
    Maps(m.members + ContactsOf(BuiltMembers(w, built)),
         m.localPending + ContactsOf(BuiltLocal(w, built)),
         m.remotePending + ContactsOf(BuiltRemote(w, built)),
         m.info + AllWith(BuiltLocal(w, built), ChangeDetails(None, NO_DETAILS)))
  }

  ghost function InsertedParties(p: Parties, built: set<Handle>): Parties {
    p.(selfContact := if p.selfHandle in built then Some(Contact(p.selfHandle)) else p.selfContact,
       initiatorContact := if p.initiatorContact.None? && p.initiatorHandle in built
                           then Some(Contact(p.initiatorHandle)) else p.initiatorContact,
       targetContact := if p.targetContact.None? && p.targetIsContact && p.targetHandle in built
                        then Some(Contact(p.targetHandle)) else p.targetContact)
  }

  ghost function ActorIn(w: Work, built: set<Handle>): Option<Contact> {
    if w.current.Some? && w.current.value.details.Actor() in built
    then Some(Contact(w.current.value.details.Actor())) else None
  }

  lemma HandlesOneMore(contacts: seq<Contact>, i: nat)
    requires i < |contacts|
    ensures HandlesOf(contacts[..i + 1]) == HandlesOf(contacts[..i]) + {contacts[i].handle}
  {
    assert contacts[..i + 1] == contacts[..i] + [contacts[i]];
  }

  lemma NothingInserted(m: Maps, p: Parties, w: Work)
    ensures InsertedMaps(m, w, {}) == m && InsertedParties(p, {}) == p && ActorIn(w, {}) == None
    ensures WithHandles(BuiltMembers(w, {})) == WithHandles(BuiltLocal(w, {})) == WithHandles(BuiltRemote(w, {})) == {}
    ensures forall cs: seq<Contact> :: HandlesOf(cs[..0]) == {}
  {
  }

  lemma JoinedOneMore(m: map<Handle, Contact>, hs: set<Handle>, h: Handle)
    ensures m + ContactsOf(hs + {h}) == (m + ContactsOf(hs))[h := Contact(h)]
  {
  }

  lemma InfoOneMore(m: map<Handle, ChangeDetails>, hs: set<Handle>, h: Handle, v: ChangeDetails)
    ensures m + AllWith(hs + {h}, v) == (m + AllWith(hs, v))[h := v]
  {
  }

  lemma BuiltOneMore(w: Work, built: set<Handle>, h: Handle)
    ensures BuiltMembers(w, built + {h}) == BuiltMembers(w, built) + (if h in w.addingMembers then {h} else {})
    ensures BuiltLocal(w, built + {h})
         == BuiltLocal(w, built) + (if h !in w.addingMembers && h in w.addingLocal then {h} else {})
    ensures BuiltRemote(w, built + {h})
         == BuiltRemote(w, built)
            + (if h !in w.addingMembers && h !in w.addingLocal && h in w.addingRemote then {h} else {})
  {
  }

  lemma InsertedOneMore(m: Maps, w: Work, built: set<Handle>, c: Contact)
    ensures var a, b, h := InsertedMaps(m, w, built), InsertedMaps(m, w, built + {c.handle}), c.handle;
            b == if h in w.addingMembers then a.(members := a.members[h := c])
                 else if h in w.addingLocal then
                   a.(localPending := a.localPending[h := c], info := a.info[h := ChangeDetails(None, NO_DETAILS)])
                 else if h in w.addingRemote then a.(remotePending := a.remotePending[h := c])
                 else a
  {
    hide ContactsOf, AllWith, BuiltMembers, BuiltLocal, BuiltRemote;
    var h := c.handle;
    BuiltOneMore(w, built, h);
    JoinedOneMore(m.members, BuiltMembers(w, built), h);
    JoinedOneMore(m.localPending, BuiltLocal(w, built), h);
    JoinedOneMore(m.remotePending, BuiltRemote(w, built), h);
    InfoOneMore(m.info, BuiltLocal(w, built), h, ChangeDetails(None, NO_DETAILS));
    assert BuiltMembers(w, built) + {} == BuiltMembers(w, built);
    assert BuiltLocal(w, built) + {} == BuiltLocal(w, built);
    assert BuiltRemote(w, built) + {} == BuiltRemote(w, built);
  }

  lemma PartiesOneMore(p: Parties, w: Work, built: set<Handle>, c: Contact)
    ensures var a, b, h := InsertedParties(p, built), InsertedParties(p, built + {c.handle}), c.handle;
            b == a.(selfContact := if a.selfHandle == h then Some(c) else a.selfContact,
                    initiatorContact := if a.initiatorContact.None? && a.initiatorHandle == h
                                        then Some(c) else a.initiatorContact,
                    targetContact := if a.targetContact.None? && a.targetIsContact && a.targetHandle == h
                                     then Some(c) else a.targetContact)
    ensures ActorIn(w, built + {c.handle})
         == if w.current.Some? && w.current.value.details.Actor() == c.handle then Some(c) else ActorIn(w, built)
  {
  }

  lemma AddedOneMoreContact(w: Work, built: set<Handle>, c: Contact)
    ensures WithHandles(BuiltMembers(w, built + {c.handle}))
         == WithHandles(BuiltMembers(w, built)) + (if c.handle in w.addingMembers then {c} else {})
    ensures WithHandles(BuiltLocal(w, built + {c.handle}))
         == WithHandles(BuiltLocal(w, built))
            + (if c.handle !in w.addingMembers && c.handle in w.addingLocal then {c} else {})
    ensures WithHandles(BuiltRemote(w, built + {c.handle}))
         == WithHandles(BuiltRemote(w, built))
            + (if c.handle !in w.addingMembers && c.handle !in w.addingLocal && c.handle in w.addingRemote then {c}
               else {})
  {
    BuiltOneMore(w, built, c.handle);
  }

  /** The info of the built contacts that have some. */
  ghost function Refreshed(info: map<Handle, ChangeDetails>, built: set<Handle>, d: ChangeDetails)
    : map<Handle, ChangeDetails>
  {
    info + AllWith(info.Keys * built, d)
  }

  lemma NothingRefreshed(info: map<Handle, ChangeDetails>, d: ChangeDetails)
    ensures Refreshed(info, {}, d) == info
    ensures forall cs: seq<Contact> :: HandlesOf(cs[..0]) == {}
  {
  }

  lemma RefreshedOneMore(info: map<Handle, ChangeDetails>, built: set<Handle>, d: ChangeDetails, h: Handle)
    ensures Refreshed(info, built + {h}, d)
         == if h in Refreshed(info, built, d) then Refreshed(info, built, d)[h := d] else Refreshed(info, built, d)
  {
    assert info.Keys * (built + {h}) == info.Keys * built + (if h in info then {h} else {});
    InfoOneMore(info, info.Keys * built, h, d);
    assert info.Keys * built + {} == info.Keys * built;
  }

  lemma RemovedOneMore(r: Removal, hs: seq<Handle>, i: nat)
    requires i < |hs|
    ensures RemoveEach(r, hs[..i + 1]) == RemoveOne(RemoveEach(r, hs[..i]), hs[i])
  {
    assert hs[..i + 1][..i] == hs[..i];
  }

  /** Inserting and then refreshing is adding. */
  lemma InsertedThenRefreshed(m: Maps, w: Work, built: set<Handle>)
    ensures var n := InsertedMaps(m, w, built);
            n.(info := Refreshed(n.info, built, CurrentDetails(w, built))) == AfterAdditions(m, w, built)
    ensures CurrentDetails(w, built)
         == ChangeDetails(ActorIn(w, built), if w.current.Some? then w.current.value.details else NO_DETAILS)
  {
    var n := InsertedMaps(m, w, built);
    assert n.info.Keys == m.info.Keys + BuiltLocal(w, built);
    assert n.info + AllWith(n.info.Keys * built, CurrentDetails(w, built))
        == m.info + AllWith(n.info.Keys * built, CurrentDetails(w, built));
  }

  lemma InsertedThenSelf(p: Parties, built: set<Handle>)
    ensures var n := InsertedParties(p, built);
            PartiesAfter(p, built)
              == if n.selfHandle == 0 && n.selfContact.Some? then n.(selfContact := None) else n
  {
  }

  lemma RemovedThenDropped(m: Maps, w: Work, built: set<Handle>)
    ensures var r := RemoveEach(Removal(AfterAdditions(m, w, built), {}), w.removing);
            && AfterWork(m, w, built) == r.maps.(localPending := r.maps.localPending - w.leavingLocal,
                                                 remotePending := r.maps.remotePending - w.leavingRemote)
            && EmissionFor(m, w, built)
               == Emission(WithHandles(BuiltMembers(w, built)), WithHandles(BuiltLocal(w, built)),
                           WithHandles(BuiltRemote(w, built)), r.removed, CurrentDetails(w, built))
  {
  }

  lemma SelfStays(p: Parties, built: set<Handle>)
    ensures PartiesAfter(p, built).selfHandle == p.selfHandle
  {
  }

  lemma FinishedIsIdle(g: Group, built: set<Handle>, isReady: bool)
    ensures GroupReplica.FinishDelta(g, built, isReady).building == g.building
    ensures GroupReplica.FinishDelta(g, built, isReady).work == NO_WORK
  {
  }

  lemma HasInitialMembers(g: Group)
    ensures HaveInitialMembers(g)
         == g.(haveMembers := true, queue := g.queue + InitialDeltas(g.initial),
               history := g.history.(accepted := g.history.accepted + InitialDeltas(g.initial)))
  {
  }

  /** The group is untouched while a reply that can lead to initial members is awaited. */
  lemma NoMembersBefore(c: M.Channel, call: M.Introspection)
    requires I.Inv(c) && call in c.calls
    requires call.ConnectionReady? || call.MainProperties? || call.FallbackInterfaces?
             || call.GroupProperties? || call.FallbackSelfHandle?
    ensures !M.IsReady(c) && !c.group.building && !c.group.haveMembers
    ensures c.group.work == NO_WORK && c.group.maps == NO_MAPS
    ensures call.ConnectionReady? ==> c.group.parties.selfHandle == 0
  {
    I.AnsweredCall(c, call);
    assert I.Pipeline(c)[0] == call;
  }

  /** Between events nothing is being added unless contacts are being built. */
  lemma NothingPendingWhenIdle(c: M.Channel)
    requires I.Inv(c) && !c.group.building
    ensures I.NothingBeingAdded(c.group.work)
  {
  }

  lemma SetFlagsTouchesFlags(g: Group, hasGroup: bool, flags: Flags)
    ensures var n := SetFlags(g, hasGroup, flags);
            n == g.(flags := n.flags, usingDetailed := n.usingDetailed) && n.flags == flags
  {
  }

  lemma InterfacesChangeOnlyQueue(c: M.Channel)
    ensures var n := M.NowHaveInterfaces(c);
            n == c.(introspectQueue := n.introspectQueue)
  {
  }

  /** The details a MembersChanged signal stands for. */
  ghost function PlainDetails(message: string, actor: Handle, reason: nat): Details {
    Details(if actor != 0 then Some(actor) else None, Some(reason), if message != "" then Some(message) else None)
  }

  lemma Received(c: M.Channel, d: Delta, actorKnown: bool)
    ensures var r := c.(group := GroupReplica.Receive(c.group, d, actorKnown));
            M.DoMembersChanged(c, d, actorKnown)
              == if Accepts(c.group, d) && !r.group.building then M.ProcessMembersChanged(r) else r
  {
  }

  ghost function SelfTaken(c: M.Channel, reply: Option<Handle>): M.Channel {
    c.(group := c.group.(parties := if reply.Some? then M.WithSelf(c.group.parties, reply.value) else c.group.parties))
  }

  lemma SelfHandleReplied(c: M.Channel, reply: Option<Handle>)
    requires c.calls != []
    ensures M.GotSelfHandle(c, reply)
         == M.ContinueIntrospection(M.NowHaveInitialMembers(SelfTaken(M.Answered(c, M.FallbackSelfHandle), reply)))
  {
    var c1 := M.Answered(c, M.FallbackSelfHandle);
    assert c1 == c1.(group := c1.group.(parties := c1.group.parties));
  }
}
