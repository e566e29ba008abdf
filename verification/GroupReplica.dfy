/**
 The group part of a channel as a value: the three membership maps, the queue of membership
 deltas and the single contact build that applies them.  Every function gives the effect of one
 piece of TelepathyQt4/channel.cpp on that value; module ChannelObject refines them with the
 imperative code.
 */
module GroupReplica {
  import opened Handles
  import opened GroupDelta

  /** A change's details with the contact object of its actor, when that could be built. */
  datatype ChangeDetails = ChangeDetails(actor: Option<Contact>, details: Details)

  /** The groupMembersChanged signal. */
  datatype Emission = Emission(added: set<Contact>, localPendingAdded: set<Contact>,
                               remotePendingAdded: set<Contact>, removed: set<Contact>,
                               details: ChangeDetails)

  datatype LocalPendingInfo = LocalPendingInfo(toBeAdded: Handle, actor: Handle, reason: nat, message: string)

  /** The contacts a listener believes to be in each list. */
  datatype Listener = Listener(members: set<Contact>, localPending: set<Contact>, remotePending: set<Contact>)

  /** Group flags are the set of bit positions that are one in the flag word. */
  type Flags = set<nat>
  const FLAG_PROPERTIES: nat := 11
  const FLAG_MEMBERS_CHANGED_DETAILED: nat := 12

  /** The current members, and why each local pending one is pending. */
  datatype Maps = Maps(members: map<Handle, Contact>, localPending: map<Handle, Contact>,
                       remotePending: map<Handle, Contact>, info: map<Handle, ChangeDetails>)

  /** A delta dequeued but not yet applied: the handles whose contacts are being built for it, and
      the handles to drop with it. */
  datatype Work = Work(current: Option<Delta>,
                       addingMembers: set<Handle>, addingLocal: set<Handle>, addingRemote: set<Handle>,
                       removing: seq<Handle>, leavingLocal: set<Handle>, leavingRemote: set<Handle>)

  const NO_WORK := Work(None, {}, {}, {}, [], {}, {})

  /** The members known when the group was first introspected. */
  datatype Initial = Initial(members: seq<Handle>, localPending: seq<LocalPendingInfo>, remotePending: seq<Handle>)

  /** The contacts a channel wants apart from its members. */
  datatype Parties = Parties(selfHandle: Handle, selfContact: Option<Contact>, retrieveSelf: bool,
                             initiatorHandle: Handle, initiatorContact: Option<Contact>,
                             targetIsContact: bool, targetHandle: Handle, targetContact: Option<Contact>)

  /** What happened so far: deltas taken into the queue, deltas applied, signals emitted since
      readiness, the sets at readiness, and whether a contact build was ever skipped for having no
      handle to look up. */
  datatype History = History(accepted: seq<Delta>, applied: seq<Delta>, emitted: seq<Emission>,
                             snapshot: Listener, skipped: bool)

  datatype Group = Group(
    flags: Flags,
    usingDetailed: bool,
    haveMembers: bool,
    building: bool,
    queue: seq<Delta>,
    work: Work,
    initial: Initial,
    maps: Maps,
    parties: Parties,
    selfRemoveInfo: Option<ChangeDetails>,
    history: History)

  const NO_MAPS := Maps(map[], map[], map[], map[])
  const NO_HISTORY := History([], [], [], Listener({}, {}, {}), false)
  const INITIAL_GROUP := Group({}, false, false, false, [], NO_WORK, Initial([], [], []), NO_MAPS,
                               Parties(0, None, false, 0, None, false, 0, None), None, NO_HISTORY)

  function KeySets(m: Maps): Sets {
    Sets(m.members.Keys, m.localPending.Keys, m.remotePending.Keys)
  }

  function ContactSets(m: Maps): Listener {
    Listener(m.members.Values, m.localPending.Values, m.remotePending.Values)
  }

  /** Deltas accepted but not yet applied, in order. */
  function Unapplied(g: Group): seq<Delta> {
    (if g.work.current.Some? then [g.work.current.value] else []) + g.queue
  }

  // ---------------------------------------------------------------- requesting contacts

  function IfNonZero(h: Handle): set<Handle> {
    if h == 0 then {} else {h}
  }

  /** The actor of the delta being worked on, or zero. */
  function WorkActor(w: Work): Handle {
    if w.current.Some? then w.current.value.details.Actor() else 0
  }

  function MissingInitiator(p: Parties): Handle {
    if p.initiatorContact.None? then p.initiatorHandle else 0
  }

  function MissingTarget(p: Parties): Handle {
    if p.targetContact.None? && p.targetIsContact then p.targetHandle else 0
  }

  /** The handles a contact build has to look up. */
  function ToBuild(w: Work, p: Parties): set<Handle> {
    w.addingMembers + w.addingLocal + w.addingRemote
    + IfNonZero(WorkActor(w)) + IfNonZero(MissingInitiator(p)) + IfNonZero(MissingTarget(p)) + IfNonZero(p.selfHandle)
  }

  /** Nothing at all is left to look up. */
  predicate NothingToBuild(w: Work, p: Parties) {
    && w.addingMembers == {} && w.addingLocal == {} && w.addingRemote == {}
    && WorkActor(w) == 0 && MissingInitiator(p) == 0 && MissingTarget(p) == 0 && p.selfHandle == 0
  }

  lemma NothingToBuildIff(w: Work, p: Parties)
    ensures ToBuild(w, p) == {} <==> NothingToBuild(w, p)
    ensures NothingToBuild(w, p) ==> p.selfHandle == 0
  {
    if ToBuild(w, p) == {} {
      assert forall h :: h !in ToBuild(w, p);
      assert p.selfHandle !in IfNonZero(p.selfHandle) && WorkActor(w) !in IfNonZero(WorkActor(w));
      assert MissingInitiator(p) !in IfNonZero(MissingInitiator(p));
      assert MissingTarget(p) !in IfNonZero(MissingTarget(p));
    }
  }

  /** The group once a build was asked for; nothing is in flight when there is nothing to look up. */
  function AfterBuildRequest(g: Group): Group {
    if NothingToBuild(g.work, g.parties) then
      g.(building := false, history := g.history.(skipped := true), parties := g.parties.(selfContact := None))
    else
      g.(building := true)
  }

  // ---------------------------------------------------------------- starting a delta

  function AddedFrom(added: seq<Handle>, present: set<Handle>): set<Handle> {
    set h | h in added && h !in present
  }

  function AddedIn(added: seq<Handle>, present: set<Handle>): set<Handle> {
    set h | h in added && h in present
  }

  /** What a delta asks for on top of the work that is there already. */
  function WorkFor(w: Work, m: Maps, d: Delta): Work {
    Work(Some(d),
         w.addingMembers + AddedFrom(d.added, m.members.Keys),
         w.addingLocal + AddedFrom(d.localPending, m.localPending.Keys),
         w.addingRemote + AddedFrom(d.remotePending, m.remotePending.Keys),
         w.removing + d.removed,
         w.leavingLocal + AddedIn(d.added, m.localPending.Keys),
         w.leavingRemote + AddedIn(d.added, m.remotePending.Keys - m.localPending.Keys))
  }

  /** Dequeue the first delta and work out what it needs. */
  function StartDelta(g: Group): Group
    requires g.queue != []
  {
    g.(parties := g.parties.(retrieveSelf := false),
       queue := g.queue[1..],
       work := WorkFor(g.work, g.maps, g.queue[0]))
  }

  // ---------------------------------------------------------------- applying a delta

  /** The maps while handles are being removed one at a time, and the contacts removed so far. */
  datatype Removal = Removal(maps: Maps, removed: set<Contact>)

  /** A handle is dropped from the first map that holds it. */
  function RemoveOne(r: Removal, h: Handle): Removal {
    var m := r.maps.(info := r.maps.info - {h});
    if h in m.members then
      Removal(m.(members := m.members - {h}), r.removed + {m.members[h]})
    else if h in m.localPending then
      Removal(m.(localPending := m.localPending - {h}), r.removed + {m.localPending[h]})
    else if h in m.remotePending then
      Removal(m.(remotePending := m.remotePending - {h}), r.removed + {m.remotePending[h]})
    else
      Removal(m, r.removed)
  }

  function RemoveEach(r: Removal, hs: seq<Handle>): Removal
    decreases |hs|
  {
    if hs == [] then r else RemoveOne(RemoveEach(r, hs[..|hs| - 1]), hs[|hs| - 1])
  }

  function BuiltMembers(w: Work, built: set<Handle>): set<Handle> {
    w.addingMembers * built
  }

  function BuiltLocal(w: Work, built: set<Handle>): set<Handle> {
    (w.addingLocal - w.addingMembers) * built
  }

  function BuiltRemote(w: Work, built: set<Handle>): set<Handle> {
    (w.addingRemote - w.addingMembers - w.addingLocal) * built
  }

  function CurrentDetails(w: Work, built: set<Handle>): ChangeDetails {
    if w.current.Some? then
      var d := w.current.value.details;
      ChangeDetails(if d.Actor() in built then Some(Contact(d.Actor())) else None, d)
    else
      ChangeDetails(None, NO_DETAILS)
  }

  /** Change info of local pending members: overwritten for every contact of the build. */
  function UpdatedInfo(info: map<Handle, ChangeDetails>, w: Work, built: set<Handle>): map<Handle, ChangeDetails> {
    info + AllWith((info.Keys + BuiltLocal(w, built)) * built, CurrentDetails(w, built))
  }

  function AfterAdditions(m: Maps, w: Work, built: set<Handle>): Maps {
    Maps(m.members + ContactsOf(BuiltMembers(w, built)),
         m.localPending + ContactsOf(BuiltLocal(w, built)),
         m.remotePending + ContactsOf(BuiltRemote(w, built)),
         UpdatedInfo(m.info, w, built))
  }

  function AfterRemovals(m: Maps, w: Work, built: set<Handle>): Removal {
    RemoveEach(Removal(AfterAdditions(m, w, built), {}), w.removing)
  }

  function AfterWork(m: Maps, w: Work, built: set<Handle>): Maps {
    var r := AfterRemovals(m, w, built).maps;
    r.(localPending := r.localPending - w.leavingLocal, remotePending := r.remotePending - w.leavingRemote)
  }

  function EmissionFor(m: Maps, w: Work, built: set<Handle>): Emission {
    Emission(WithHandles(BuiltMembers(w, built)), WithHandles(BuiltLocal(w, built)),
             WithHandles(BuiltRemote(w, built)), AfterRemovals(m, w, built).removed,
             CurrentDetails(w, built))
  }

  predicate Noteworthy(e: Emission) {
    e.added != {} || e.localPendingAdded != {} || e.remotePendingAdded != {} || e.removed != {}
  }

  function PartiesAfter(p: Parties, built: set<Handle>): Parties {
    p.(selfContact := if p.selfHandle == 0 then None
                      else if p.selfHandle in built then Some(Contact(p.selfHandle))
                      else p.selfContact,
       initiatorContact := if p.initiatorContact.None? && p.initiatorHandle in built
                           then Some(Contact(p.initiatorHandle)) else p.initiatorContact,
       targetContact := if p.targetContact.None? && p.targetIsContact && p.targetHandle in built
                        then Some(Contact(p.targetHandle)) else p.targetContact)
  }

  function HistoryAfter(h: History, w: Work, e: Emission, isReady: bool): History {
    h.(emitted := if Noteworthy(e) && isReady then h.emitted + [e] else h.emitted,
       applied := if w.current.Some? then h.applied + [w.current.value] else h.applied)
  }

  /** Apply the current delta, given the handles whose contacts were built. */
  function FinishDelta(g: Group, built: set<Handle>, isReady: bool): Group {
    var e := EmissionFor(g.maps, g.work, built);
    g.(maps := AfterWork(g.maps, g.work, built),
       parties := PartiesAfter(g.parties, built),
       work := NO_WORK,
       selfRemoveInfo := if Noteworthy(e) && g.work.current.Some?
                            && g.parties.selfHandle in g.work.current.value.removed
                         then Some(e.details) else g.selfRemoveInfo,
       history := HistoryAfter(g.history, g.work, e, isReady))
  }

  // ---------------------------------------------------------------- accepting deltas

  /** The deltas that stand for the members a group had when it was first introspected. */
  function InitialDeltas(i: Initial): seq<Delta> {
    [Delta(i.members, [], [], i.remotePending, NO_DETAILS)] + LocalDeltas(i.localPending)
  }

  function LocalDeltas(local: seq<LocalPendingInfo>): (ds: seq<Delta>)
    ensures |ds| == |local|
  {
    seq(|local|, i requires 0 <= i < |local| => LocalDelta(local[i]))
  }

  function LocalDelta(info: LocalPendingInfo): Delta {
    Delta([], [], [info.toBeAdded], [],
          Details(if info.actor != 0 then Some(info.actor) else None,
                  if info.reason != 0 then Some(info.reason) else None,
                  if info.message != "" then Some(info.message) else None))
  }

  function HaveInitialMembers(g: Group): Group {
    g.(haveMembers := true, queue := g.queue + InitialDeltas(g.initial),
       history := g.history.(accepted := g.history.accepted + InitialDeltas(g.initial)))
  }

  /** A delta that removes the self handle because it was renamed. */
  predicate IsSelfRename(self: Handle, d: Delta) {
    self in d.removed && d.details.Reason() == REASON_RENAMED
  }

  /** The handle a self rename moves to, or none when the service broke the specification. */
  function RenamedTo(d: Delta): Option<Handle> {
    if |d.removed| != 1 || |d.added| + |d.localPending| + |d.remotePending| != 1 then None
    else if d.added != [] then Some(d.added[0])
    else if d.localPending != [] then Some(d.localPending[0])
    else Some(d.remotePending[0])
  }

  function SelfHandleChanged(p: Parties, h: Handle): Parties {
    if h != p.selfHandle then p.(selfHandle := h, retrieveSelf := true) else p
  }

  predicate Accepts(g: Group, d: Delta) {
    g.haveMembers && !d.IsEmpty() && !IsSelfRename(g.parties.selfHandle, d)
  }

  /** What receiving a delta does before the queue is looked at; actorKnown says whether the
      contact manager already has the actor's contact. */
  function Receive(g: Group, d: Delta, actorKnown: bool): Group {
    if !g.haveMembers || d.IsEmpty() then g
    else if IsSelfRename(g.parties.selfHandle, d) then
      if RenamedTo(d).Some? then g.(parties := SelfHandleChanged(g.parties, RenamedTo(d).value)) else g
    else
      g.(selfRemoveInfo := if g.parties.selfHandle in d.removed
                           then Some(ChangeDetails(if actorKnown then Some(Contact(d.details.Actor())) else None,
                                                   d.details))
                           else g.selfRemoveInfo,
         queue := g.queue + [d], history := g.history.(accepted := g.history.accepted + [d]))
  }

  // ---------------------------------------------------------------- flags

  function SetFlags(g: Group, hasGroup: bool, flags: Flags): Group {
    if g.flags == flags then g
    else if !hasGroup then g.(flags := flags)
    else if FLAG_MEMBERS_CHANGED_DETAILED in flags && !g.usingDetailed then
      g.(flags := flags, usingDetailed := true)
    else if FLAG_MEMBERS_CHANGED_DETAILED !in flags && g.usingDetailed then
      g.(flags := flags, usingDetailed := false)
    else g.(flags := flags)
  }

  /** The flags after a GroupFlagsChanged signal. */
  function ChangedFlags(before: Flags, added: Flags, removed: Flags): (after: Flags)
    ensures forall b :: b in after <==> if b in before then b !in removed else b in added
  {
    (before + (added - before)) - (removed * before)
  }
}
