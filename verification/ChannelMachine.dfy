/**
 A channel as a state machine: introspection interleaved with the group replica.  Each event is one
 D-Bus reply, one signal or one finished operation, handled atomically.
 */
module ChannelMachine {
  import opened Handles
  import opened GroupDelta
  import opened GroupReplica

  /** A step of introspection; as a queue entry it is still to be made, as a call it awaits a reply. */
  datatype Introspection =
    | ConnectionReady
    | MainProperties
    | FallbackChannelType
    | FallbackHandle
    | FallbackInterfaces
    | GroupProperties
    | FallbackFlags
    | FallbackMembers
    | FallbackLocalPending
    | FallbackSelfHandle
    | ConferenceProperties

  datatype Interfaces = Interfaces(group: bool, conference: bool)

  datatype Channel = Channel(
    valid: bool,
    ready: bool,              // FeatureCore is among the satisfied features
    reports: nat,             // how often setReady was called
    completions: nat,         // how often FeatureCore was completed by that
    interfaces: Interfaces,
    listening: bool,          // connected to the signals of the group interface
    introspectQueue: seq<Introspection>,
    introspectingConference: bool,
    calls: seq<Introspection>,       // introspection calls awaiting their reply
    lookups: seq<set<Handle>>,       // contact builds awaiting their reply
    group: Group)

  const INITIAL_CHANNEL := Channel(true, false, 0, 0, Interfaces(false, false), false, [], false,
                                   [ConnectionReady], [], INITIAL_GROUP)

  predicate IsReady(c: Channel) {
    c.valid && c.ready
  }

  /** The channel once a call's reply has arrived. */
  function Answered(c: Channel, call: Introspection): Channel
    requires c.calls != []
  {
    c.(calls := Without(c.calls, call))
  }

  function Without<T(==)>(s: seq<T>, x: T): (r: seq<T>)
    ensures x in s ==> |r| == |s| - 1
    ensures x !in s ==> r == s
  {
    if s == [] then [] else if s[0] == x then s[1..] else [s[0]] + Without(s[1..], x)
  }

  // ---------------------------------------------------------------- readiness

  /** setReady reports to the readiness helper without looking at the channel's validity. */
  function SetReady(c: Channel): Channel {
    SetIntrospectCompleted(c.(reports := c.reports + 1))
  }

  /** The readiness helper ignores what is reported for an invalid proxy. */
  function SetIntrospectCompleted(c: Channel): Channel {
    if c.valid then
      c.(ready := true, completions := c.completions + 1,
         group := c.group.(history := c.group.history.(snapshot := ContactSets(c.group.maps), emitted := [])))
    else c
  }

  function Invalidated(c: Channel): Channel {
    c.(valid := false, ready := false)
  }

  /** Dequeue and make the next introspection call, or complete when nothing is left to wait for. */
  function ContinueIntrospection(c: Channel): Channel {
    if c.introspectQueue == [] then
      if !IsReady(c) && c.group.queue == [] && !c.group.building && !c.introspectingConference then
        SetReady(c)
      else c
    else
      var call := c.introspectQueue[0];
      c.(introspectQueue := c.introspectQueue[1..],
         calls := c.calls + [call],
         listening := c.listening || call.GroupProperties?,
         introspectingConference := c.introspectingConference || call.ConferenceProperties?)
  }

  // ---------------------------------------------------------------- contact builds

  function BuildContacts(c: Channel): Channel {
    c.(group := AfterBuildRequest(c.group),
       lookups := if NothingToBuild(c.group.work, c.group.parties) then c.lookups
                  else c.lookups + [ToBuild(c.group.work, c.group.parties)])
  }

  function ProcessMembersChanged(c: Channel): Channel {
    if c.group.queue != [] then
      BuildContacts(c.(group := StartDelta(c.group)))
    else if c.group.parties.retrieveSelf then
      BuildContacts(c.(group := c.group.(parties := c.group.parties.(retrieveSelf := false))))
    else if !IsReady(c) && c.introspectQueue == [] then
      ContinueIntrospection(c)
    else c
  }

  function UpdateContacts(c: Channel, built: set<Handle>): Channel {
    ProcessMembersChanged(c.(group := FinishDelta(c.group, built, IsReady(c))))
  }

  /** What a contact build can report: failure, or the contacts built and the handles refused. */
  datatype LookupReply = LookupFailed | LookupFound(contacts: seq<Contact>, invalid: seq<Handle>)

  function Built(reply: LookupReply): set<Handle> {
    if reply.LookupFound? then HandlesOf(reply.contacts) else {}
  }

  /** The group when a build has just reported: no build is in flight, and a refused self handle
      has no contact. */
  function GroupAfterLookup(g: Group, reply: LookupReply): Group {
    g.(building := false, parties := PartiesAfterLookup(g.parties, reply))
  }

  function PartiesAfterLookup(p: Parties, reply: LookupReply): Parties {
    if reply.LookupFound? && p.selfHandle != 0 && p.selfHandle in reply.invalid then p.(selfContact := None) else p
  }

  function GotContacts(c: Channel, reply: LookupReply): Channel
    requires c.lookups != []
  {
    UpdateContacts(c.(group := GroupAfterLookup(c.group, reply), lookups := c.lookups[1..]), Built(reply))
  }

  function NowHaveInitialMembers(c: Channel): Channel {
    ProcessMembersChanged(c.(group := HaveInitialMembers(c.group)))
  }

  // ---------------------------------------------------------------- main interface

  datatype MainProps = MainProps(channelType: Option<string>, interfaces: Option<Interfaces>,
                                 targetHandle: Option<Handle>, targetIsContact: Option<bool>,
                                 initiatorHandle: Option<Handle>) {
    predicate Usable() {
      && channelType.Some? && channelType.value != ""
      && interfaces.Some? && targetHandle.Some? && targetIsContact.Some?
    }
  }

  predicate FakesGroup(c: Channel) {
    !c.interfaces.group && c.group.parties.targetIsContact
  }

  function FakedGroup(g: Group, connectionSelf: Handle): Group {
    g.(parties := g.parties.(selfHandle := connectionSelf),
       initial := g.initial.(members := [connectionSelf, g.parties.targetHandle]))
  }

  function FakeGroup(c: Channel, connectionSelf: Handle): Channel {
    if FakesGroup(c) && connectionSelf != 0 && c.group.parties.targetHandle != 0 then
      NowHaveInitialMembers(c.(group := FakedGroup(c.group, connectionSelf)))
    else c
  }

  function NowHaveInterfaces(c: Channel): Channel {
    c.(introspectQueue := c.introspectQueue
                          + (if c.interfaces.group then [GroupProperties] else [])
                          + (if c.interfaces.conference then [ConferenceProperties] else []))
  }

  function PartiesIn(p: Parties, props: MainProps): Parties
    requires props.Usable()
  {
    p.(targetHandle := props.targetHandle.value, targetIsContact := props.targetIsContact.value,
       initiatorHandle := if props.initiatorHandle.Some? then props.initiatorHandle.value else p.initiatorHandle)
  }

  function ExtractMainProps(c: Channel, props: MainProps, connectionSelf: Handle): Channel {
    if !props.Usable() then
      c.(introspectQueue := c.introspectQueue + [FallbackChannelType, FallbackHandle, FallbackInterfaces])
    else
      var c1 := c.(interfaces := props.interfaces.value,
                   group := c.group.(parties := PartiesIn(c.group.parties, props)));
      var c2 := FakeGroup(c1, connectionSelf);
      var c3 := if !FakesGroup(c1) && !c2.interfaces.group && c2.group.parties.initiatorHandle != 0
                then BuildContacts(c2) else c2;
      NowHaveInterfaces(c3)
  }

  /** The immutable properties known beforehand: all of the main ones, or not enough of them. */
  datatype Immutable = Complete(props: MainProps) | Partial(initiatorHandle: Handle)

  function InitiatorIn(immutable: Immutable): Handle {
    match immutable
    case Complete(props) => if props.initiatorHandle.Some? then props.initiatorHandle.value else 0
    case Partial(initiator) => initiator
  }

  function GotConnection(c: Channel, selfHandle: Handle, immutable: Immutable): Channel
    requires c.calls != []
  {
    var parties := c.group.parties.(selfHandle := selfHandle, initiatorHandle := InitiatorIn(immutable));
    var c1 := Answered(c, ConnectionReady).(group := c.group.(parties := parties));
    match immutable
    case Complete(props) => ContinueIntrospection(ExtractMainProps(c1, props, selfHandle))
    case Partial(_) => c1.(calls := c1.calls + [MainProperties])
  }

  function GotMainProperties(c: Channel, props: MainProps, connectionSelf: Handle): Channel
    requires c.calls != []
  {
    ContinueIntrospection(ExtractMainProps(Answered(c, MainProperties), props, connectionSelf))
  }

  function GotChannelType(c: Channel, ok: bool): Channel
    requires c.calls != []
  {
    var c1 := Answered(c, FallbackChannelType);
    if ok then ContinueIntrospection(c1) else Invalidated(c1)
  }

  datatype Target = Target(isContact: bool, handle: Handle)

  function GotHandle(c: Channel, reply: Option<Target>): Channel
    requires c.calls != []
  {
    var c1 := Answered(c, FallbackHandle);
    match reply
    case Some(t) =>
      var parties := c1.group.parties.(targetIsContact := t.isContact, targetHandle := t.handle);
      ContinueIntrospection(c1.(group := c1.group.(parties := parties)))
    case None => Invalidated(c1)
  }

  function GotInterfaces(c: Channel, reply: Option<Interfaces>, connectionSelf: Handle): Channel
    requires c.calls != []
  {
    var c1 := Answered(c, FallbackInterfaces);
    match reply
    case Some(i) =>
      ContinueIntrospection(FakeGroup(NowHaveInterfaces(c1.(interfaces := i)), connectionSelf))
    case None => Invalidated(c1)
  }

  // ---------------------------------------------------------------- group interface

  datatype GroupProps = GroupProps(flags: Option<Flags>, handleOwners: bool,
                                   members: Option<seq<Handle>>, localPending: Option<seq<LocalPendingInfo>>,
                                   remotePending: Option<seq<Handle>>, selfHandle: Option<Handle>) {
    predicate Usable() {
      && flags.Some? && FLAG_PROPERTIES in flags.value && handleOwners
      && members.Some? && localPending.Some? && remotePending.Some? && selfHandle.Some?
    }
  }

  const NO_GROUP_PROPS := GroupProps(None, false, None, None, None, None)

  /** A self handle of zero does not replace the one taken from the connection. */
  function WithSelf(p: Parties, self: Handle): Parties {
    if self != 0 then p.(selfHandle := self) else p
  }

  function ExtractGroupProps(c: Channel, props: GroupProps): Channel {
    if !props.Usable() then
      c.(introspectQueue := c.introspectQueue
                            + [FallbackFlags, FallbackMembers, FallbackLocalPending, FallbackSelfHandle])
    else
      var g := SetFlags(c.group, c.interfaces.group, props.flags.value);
      NowHaveInitialMembers(c.(group := g.(
        initial := Initial(props.members.value, props.localPending.value, props.remotePending.value),
        parties := WithSelf(g.parties, props.selfHandle.value))))
  }

  function GotGroupProperties(c: Channel, props: GroupProps): Channel
    requires c.calls != []
  {
    ContinueIntrospection(ExtractGroupProps(Answered(c, GroupProperties), props))
  }

  function GotGroupFlags(c: Channel, reply: Option<Flags>): Channel
    requires c.calls != []
  {
    var c1 := Answered(c, FallbackFlags);
    ContinueIntrospection(
      match reply
      case Some(flags) =>
        var g := SetFlags(c1.group, c1.interfaces.group, flags);
        c1.(group := g.(flags := g.flags - {FLAG_PROPERTIES}))
      case None => c1)
  }

  datatype AllMembers = AllMembers(members: seq<Handle>, localPending: seq<Handle>, remotePending: seq<Handle>)

  function BareInfos(hs: seq<Handle>): (infos: seq<LocalPendingInfo>)
    ensures |infos| == |hs|
  {
    seq(|hs|, i requires 0 <= i < |hs| => LocalPendingInfo(hs[i], 0, 0, ""))
  }

  function GotAllMembers(c: Channel, reply: Option<AllMembers>): Channel
    requires c.calls != []
  {
    var c1 := Answered(c, FallbackMembers);
    ContinueIntrospection(
      match reply
      case Some(all) =>
        c1.(group := c1.group.(initial := Initial(all.members,
                                                  c1.group.initial.localPending + BareInfos(all.localPending),
                                                  all.remotePending)))
      case None => c1)
  }

  function GotLocalPending(c: Channel, reply: Option<seq<LocalPendingInfo>>): Channel
    requires c.calls != []
  {
    var c1 := Answered(c, FallbackLocalPending);
    ContinueIntrospection(
      match reply
      case Some(infos) => c1.(group := c1.group.(initial := c1.group.initial.(localPending := infos)))
      case None => c1)
  }

  function GotSelfHandle(c: Channel, reply: Option<Handle>): Channel
    requires c.calls != []
  {
    var c1 := Answered(c, FallbackSelfHandle);
    ContinueIntrospection(NowHaveInitialMembers(
      match reply
      case Some(h) => c1.(group := c1.group.(parties := WithSelf(c1.group.parties, h)))
      case None => c1))
  }

  function DoMembersChanged(c: Channel, d: Delta, actorKnown: bool): Channel {
    var c1 := c.(group := Receive(c.group, d, actorKnown));
    if Accepts(c.group, d) && !c1.group.building then ProcessMembersChanged(c1) else c1
  }

  function OnMembersChanged(c: Channel, d: Delta, actorKnown: bool): Channel {
    if c.group.usingDetailed then c else DoMembersChanged(c, d, actorKnown)
  }

  function OnMembersChangedDetailed(c: Channel, d: Delta, actorKnown: bool): Channel {
    if !c.group.usingDetailed then c else DoMembersChanged(c, d, actorKnown)
  }

  function OnGroupFlagsChanged(c: Channel, added: Flags, removed: Flags): Channel {
    c.(group := SetFlags(c.group, c.interfaces.group, ChangedFlags(c.group.flags, added, removed)))
  }

  function OnSelfHandleChanged(c: Channel, h: Handle): Channel {
    c.(group := c.group.(parties := SelfHandleChanged(c.group.parties, h)))
  }

  // ---------------------------------------------------------------- conference interface

  function GotConferenceProperties(c: Channel): Channel
    requires c.calls != []
  {
    ContinueIntrospection(Answered(c, ConferenceProperties).(introspectingConference := false))
  }

  // ---------------------------------------------------------------- events

  datatype Event =
    | ConnectionFailed
    | Connected(self: Handle, immutable: Immutable)
    | MainReply(props: MainProps, connectionSelf: Handle)
    | ChannelTypeReply(ok: bool)
    | HandleReply(target: Option<Target>)
    | InterfacesReply(found: Option<Interfaces>, connectionSelf: Handle)
    | GroupReply(groupProps: GroupProps)
    | FlagsReply(flags: Option<Flags>)
    | MembersReply(all: Option<AllMembers>)
    | LocalPendingReply(infos: Option<seq<LocalPendingInfo>>)
    | SelfHandleReply(handle: Option<Handle>)
    | ConferenceReply
    | ContactsReply(reply: LookupReply)
    | MembersChanged(delta: Delta, actorKnown: bool)
    | MembersChangedDetailed(delta: Delta, actorKnown: bool)
    | FlagsChanged(added: Flags, removed: Flags)
    | SelfChanged(newSelf: Handle)
    | Closed

  /** The call an event answers, if it is a reply. */
  function CallOf(e: Event): Option<Introspection> {
    match e
    case ConnectionFailed | Connected(_, _) => Some(ConnectionReady)
    case MainReply(_, _) => Some(MainProperties)
    case ChannelTypeReply(_) => Some(FallbackChannelType)
    case HandleReply(_) => Some(FallbackHandle)
    case InterfacesReply(_, _) => Some(FallbackInterfaces)
    case GroupReply(_) => Some(GroupProperties)
    case FlagsReply(_) => Some(FallbackFlags)
    case MembersReply(_) => Some(FallbackMembers)
    case LocalPendingReply(_) => Some(FallbackLocalPending)
    case SelfHandleReply(_) => Some(FallbackSelfHandle)
    case ConferenceReply => Some(ConferenceProperties)
    case _ => None
  }

  predicate IsGroupSignal(e: Event) {
    e.MembersChanged? || e.MembersChangedDetailed? || e.FlagsChanged? || e.SelfChanged?
  }

  /** Replies come only to calls made, signals only to a channel listening for them. */
  predicate Enabled(c: Channel, e: Event) {
    && (CallOf(e).Some? ==> CallOf(e).value in c.calls)
    && (e.ContactsReply? ==> c.lookups != [])
    && (IsGroupSignal(e) ==> c.listening)
  }

  function Step(c: Channel, e: Event): Channel
    requires Enabled(c, e)
  {
    match e
    case ConnectionFailed => Invalidated(Answered(c, ConnectionReady))
    case Connected(self, immutable) => GotConnection(c, self, immutable)
    case MainReply(props, connectionSelf) => GotMainProperties(c, props, connectionSelf)
    case ChannelTypeReply(ok) => GotChannelType(c, ok)
    case HandleReply(target) => GotHandle(c, target)
    case InterfacesReply(found, connectionSelf) => GotInterfaces(c, found, connectionSelf)
    case GroupReply(props) => GotGroupProperties(c, props)
    case FlagsReply(flags) => GotGroupFlags(c, flags)
    case MembersReply(all) => GotAllMembers(c, all)
    case LocalPendingReply(infos) => GotLocalPending(c, infos)
    case SelfHandleReply(handle) => GotSelfHandle(c, handle)
    case ConferenceReply => GotConferenceProperties(c)
    case ContactsReply(reply) => GotContacts(c, reply)
    case MembersChanged(d, known) => OnMembersChanged(c, d, known)
    case MembersChangedDetailed(d, known) => OnMembersChangedDetailed(c, d, known)
    case FlagsChanged(added, removed) => OnGroupFlagsChanged(c, added, removed)
    case SelfChanged(h) => OnSelfHandleChanged(c, h)
    case Closed => Invalidated(c)
  }

  /** A run: every state follows from the one before by an enabled event. */
  ghost predicate IsRun(run: seq<Channel>, events: seq<Event>) {
    && |run| == |events| + 1
    && run[0] == INITIAL_CHANNEL
    && forall i :: 0 <= i < |events| ==> Enabled(run[i], events[i]) && run[i + 1] == Step(run[i], events[i])
  }
}
