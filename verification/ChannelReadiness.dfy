/**
 Readiness of a channel over whole runs: FeatureCore completes at most once, only when everything
 that was started has finished, and never fails to complete for want of a reply.
 */
module ChannelReadiness {
  import opened Handles
  import opened GroupDelta
  import opened GroupReplica
  import opened ChannelMachine
  import opened ChannelInvariants

  /** Introspection, the delta queue, the contact build and conference introspection are all over. */
  predicate AllFinished(c: Channel) {
    && c.calls == [] && c.introspectQueue == [] && !c.introspectingConference
    && c.group.queue == [] && !c.group.building && c.lookups == []
  }

  /** What every part of an event does apart from applying a delta: it changes no membership, only
      adds deltas, skips a build only without a self handle and never makes a channel valid. */
  predicate Onward(c: Channel, n: Channel) {
    && n.group.maps == c.group.maps
    && n.group.history.applied == c.group.history.applied
    && c.group.history.accepted <= n.group.history.accepted
    && (c.group.history.skipped ==> n.group.history.skipped)
    && (n.group.history.skipped ==> c.group.history.skipped || n.group.parties.selfHandle == 0)
    && (n.valid ==> c.valid)
  }

  /** A part of an event that moreover completes nothing and emits nothing. */
  predicate Quiet(c: Channel, n: Channel) {
    && Onward(c, n)
    && n.completions == c.completions
    && (n.ready ==> c.ready)
    && n.group.history.emitted == c.group.history.emitted
    && n.group.history.snapshot == c.group.history.snapshot
  }

  /** FeatureCore completes with no delta waiting and no build in flight, and a listener's view
      of the group starts there. */
  predicate Completes(c: Channel, n: Channel) {
    && Onward(c, n)
    && n.completions == c.completions + 1 && n.ready
    && n.group.queue == [] && !n.group.building
    && n.group.history.emitted == [] && n.group.history.snapshot == ContactSets(n.group.maps)
  }

  predicate Careful(c: Channel, n: Channel) {
    Quiet(c, n) || Completes(c, n)
  }

  lemma ContinueIsCareful(c: Channel, x: Channel)
    requires Quiet(c, x)
    ensures Careful(c, ContinueIntrospection(x))
  {
  }

  /** A contact build is skipped exactly when there is no handle to look up. */
  lemma BuildSkipsIff(c: Channel)
    requires !c.group.history.skipped
    ensures BuildContacts(c).group.history.skipped <==> ToBuild(c.group.work, c.group.parties) == {}
    ensures BuildContacts(c).lookups == c.lookups <==> BuildContacts(c).group.history.skipped
  {
    NothingToBuildIff(c.group.work, c.group.parties);
  }

  lemma BuildIsQuiet(c: Channel)
    ensures Quiet(c, BuildContacts(c)) && BuildContacts(c).group.parties.selfHandle == c.group.parties.selfHandle
  {
  }

  lemma StartIsQuiet(c: Channel)
    requires c.group.queue != []
    ensures Quiet(c, c.(group := StartDelta(c.group)))
    ensures StartDelta(c.group).parties.selfHandle == c.group.parties.selfHandle
  {
    hide WorkFor;
  }

  lemma ProcessIsCareful(c: Channel)
    ensures Careful(c, ProcessMembersChanged(c))
    ensures c.group.queue != [] ==> Quiet(c, ProcessMembersChanged(c))
    ensures ProcessMembersChanged(c).group.parties.selfHandle == c.group.parties.selfHandle
  {
    hide BuildContacts, StartDelta;
    if c.group.queue != [] {
      StartIsQuiet(c);
      BuildIsQuiet(c.(group := StartDelta(c.group)));
    } else if c.group.parties.retrieveSelf {
      BuildIsQuiet(c.(group := c.group.(parties := c.group.parties.(retrieveSelf := false))));
    }
  }

  lemma MainPropsAreQuiet(c: Channel, props: MainProps, connectionSelf: Handle)
    requires c.group.queue == []
    ensures Quiet(c, ExtractMainProps(c, props, connectionSelf))
  {
    if props.Usable() {
      var c1 := c.(interfaces := props.interfaces.value,
                   group := c.group.(parties := PartiesIn(c.group.parties, props)));
      FakeIsQuiet(c1, connectionSelf);
      BuildIsQuiet(FakeGroup(c1, connectionSelf));
    }
  }

  lemma FakeIsQuiet(c: Channel, connectionSelf: Handle)
    ensures Quiet(c, FakeGroup(c, connectionSelf))
  {
    ProcessIsCareful(c.(group := HaveInitialMembers(FakedGroup(c.group, connectionSelf))));
  }

  lemma InitialMembersAreQuiet(c: Channel)
    ensures Quiet(c, NowHaveInitialMembers(c))
    ensures Careful(c, ContinueIntrospection(NowHaveInitialMembers(c)))
  {
    ProcessIsCareful(c.(group := HaveInitialMembers(c.group)));
    hide ProcessMembersChanged, ContinueIntrospection;
    ContinueIsCareful(c, NowHaveInitialMembers(c));
  }

  /** Only the history, the maps and the readiness of the starting channel matter. */
  lemma Rebase(c: Channel, x: Channel, n: Channel)
    requires Careful(x, n)
    requires x.group.history == c.group.history && x.group.maps == c.group.maps
    requires x.completions == c.completions && x.valid == c.valid && x.ready == c.ready
    ensures Careful(c, n)
  {
  }

  lemma GroupReplyIsCareful(c: Channel, props: GroupProps)
    requires c.calls != []
    ensures Careful(c, GotGroupProperties(c, props))
  {
    hide ContinueIntrospection, NowHaveInitialMembers, SetReady, Careful;
    var c1 := Answered(c, GroupProperties);
    if props.Usable() {
      var g := SetFlags(c1.group, c1.interfaces.group, props.flags.value).(
        initial := Initial(props.members.value, props.localPending.value, props.remotePending.value),
        parties := WithSelf(c1.group.parties, props.selfHandle.value));
      InitialMembersAreQuiet(c1.(group := g));
      Rebase(c, c1.(group := g), GotGroupProperties(c, props));
    } else {
      ContinueIsCareful(c, ExtractGroupProps(c1, props));
    }
  }

  lemma SelfHandleReplyIsCareful(c: Channel, reply: Option<Handle>)
    requires c.calls != []
    ensures Careful(c, GotSelfHandle(c, reply))
  {
    hide ContinueIntrospection, NowHaveInitialMembers, SetReady, Careful;
    var c1 := Answered(c, FallbackSelfHandle);
    var c2 := if reply.Some? then c1.(group := c1.group.(parties := WithSelf(c1.group.parties, reply.value))) else c1;
    InitialMembersAreQuiet(c2);
    Rebase(c, c2, GotSelfHandle(c, reply));
  }

  lemma ConnectedIsCareful(c: Channel, self: Handle, immutable: Immutable)
    requires c.calls != [] && c.group.queue == []
    ensures Careful(c, GotConnection(c, self, immutable))
  {
    hide ExtractMainProps, ContinueIntrospection;
    if immutable.Complete? {
      var parties := c.group.parties.(selfHandle := self, initiatorHandle := InitiatorIn(immutable));
      var c1 := Answered(c, ConnectionReady).(group := c.group.(parties := parties));
      MainPropsAreQuiet(c1, immutable.props, self);
      ContinueIsCareful(c, ExtractMainProps(c1, immutable.props, self));
    }
  }

  lemma MainReplyIsCareful(c: Channel, props: MainProps, connectionSelf: Handle)
    requires c.calls != [] && c.group.queue == []
    ensures Careful(c, GotMainProperties(c, props, connectionSelf))
  {
    hide ExtractMainProps, ContinueIntrospection;
    var c1 := Answered(c, MainProperties);
    MainPropsAreQuiet(c1, props, connectionSelf);
    ContinueIsCareful(c, ExtractMainProps(c1, props, connectionSelf));
  }

  lemma InterfacesReplyIsCareful(c: Channel, found: Option<Interfaces>, connectionSelf: Handle)
    requires c.calls != []
    ensures Careful(c, GotInterfaces(c, found, connectionSelf))
  {
    hide FakeGroup, ContinueIntrospection;
    if found.Some? {
      var c2 := NowHaveInterfaces(Answered(c, FallbackInterfaces).(interfaces := found.value));
      FakeIsQuiet(c2, connectionSelf);
      ContinueIsCareful(c, FakeGroup(c2, connectionSelf));
    }
  }

  /** The channel when the contacts of a build were put to use, before the queue is looked at. */
  function Applied(c: Channel, reply: LookupReply): Channel
    requires c.lookups != []
  {
    c.(group := FinishDelta(GroupAfterLookup(c.group, reply), Built(reply), IsReady(c)), lookups := c.lookups[1..])
  }

  /** What an event starts from, as far as membership is concerned. */
  function Basis(c: Channel, e: Event): Channel
    requires Enabled(c, e)
  {
    if e.ContactsReply? then Applied(c, e.reply) else c
  }

  lemma ContactsReplyIsCareful(c: Channel, reply: LookupReply)
    requires c.lookups != []
    ensures Careful(Applied(c, reply), GotContacts(c, reply))
    ensures Applied(c, reply).group.history.skipped == c.group.history.skipped
    ensures Applied(c, reply).completions == c.completions && Applied(c, reply).valid == c.valid
  {
    hide ProcessMembersChanged, AfterWork, EmissionFor, PartiesAfter;
    ProcessIsCareful(Applied(c, reply));
  }

  lemma MembersChangeIsCareful(c: Channel, d: Delta, actorKnown: bool)
    ensures Careful(c, DoMembersChanged(c, d, actorKnown))
  {
    hide ProcessMembersChanged;
    ProcessIsCareful(c.(group := Receive(c.group, d, actorKnown)));
  }

  lemma StoringIsCareful(c: Channel, call: Introspection, g: Group)
    requires c.calls != []
    requires g.history == c.group.history && g.maps == c.group.maps
    ensures Careful(c, ContinueIntrospection(Answered(c, call).(group := g)))
  {
    hide ContinueIntrospection;
    ContinueIsCareful(c, Answered(c, call).(group := g));
  }

  lemma InvalidationIsCareful(c: Channel, call: Introspection)
    requires c.calls != []
    ensures Careful(c, Invalidated(Answered(c, call)))
  {
  }

  /** Storing a reply's values does not touch the maps or the history. */
  lemma SetFlagsFrame(g: Group, hasGroup: bool, flags: Flags)
    ensures SetFlags(g, hasGroup, flags).history == g.history && SetFlags(g, hasGroup, flags).maps == g.maps
  {
  }

  lemma OthersAreCareful(c: Channel, e: Event)
    requires Enabled(c, e)
    requires e.ConnectionFailed? || e.ChannelTypeReply? || e.HandleReply? || e.FlagsReply? || e.MembersReply?
             || e.LocalPendingReply? || e.ConferenceReply? || e.FlagsChanged? || e.SelfChanged? || e.Closed?
    ensures Careful(c, Step(c, e))
  {
    UnchangedIsCareful(c);
    hide ContinueIntrospection, Without, Careful, SetFlags;
    match e
    case ChannelTypeReply(ok) =>
      StoringIsCareful(c, FallbackChannelType, c.group);
      InvalidationIsCareful(c, FallbackChannelType);
    case HandleReply(Some(t)) =>
      StoringIsCareful(c, FallbackHandle,
        c.group.(parties := c.group.parties.(targetIsContact := t.isContact, targetHandle := t.handle)));
    case FlagsReply(flags) =>
      StoringIsCareful(c, FallbackFlags, c.group);
      if flags.Some? {
        var g := SetFlags(c.group, c.interfaces.group, flags.value);
        SetFlagsFrame(c.group, c.interfaces.group, flags.value);
        StoringIsCareful(c, FallbackFlags, g.(flags := g.flags - {FLAG_PROPERTIES}));
      }
    case MembersReply(all) =>
      StoringIsCareful(c, FallbackMembers, c.group);
      if all.Some? {
        StoringIsCareful(c, FallbackMembers, c.group.(initial :=
          Initial(all.value.members, c.group.initial.localPending + BareInfos(all.value.localPending),
                  all.value.remotePending)));
      }
    case LocalPendingReply(infos) =>
      StoringIsCareful(c, FallbackLocalPending, c.group);
      if infos.Some? {
        StoringIsCareful(c, FallbackLocalPending, c.group.(initial := c.group.initial.(localPending := infos.value)));
      }
    case ConferenceReply =>
      ContinueIsCareful(c, Answered(c, ConferenceProperties).(introspectingConference := false));
    case _ => SmallStepsAreCareful(c, e);
  }

  lemma SmallStepsAreCareful(c: Channel, e: Event)
    requires Enabled(c, e)
    requires e.ConnectionFailed? || (e.HandleReply? && e.target.None?) || e.FlagsChanged? || e.SelfChanged? || e.Closed?
    ensures Careful(c, Step(c, e))
  {
  }

  lemma StepIsCareful(c: Channel, e: Event)
    requires Inv(c) && Enabled(c, e)
    ensures Careful(Basis(c, e), Step(c, e))
    ensures Basis(c, e).completions == c.completions && Basis(c, e).valid == c.valid
    ensures Basis(c, e).group.history.skipped == c.group.history.skipped
  {
    hide Inv, Careful, Applied, GotContacts;
    if e.ContactsReply? {
      ContactsReplyIsCareful(c, e.reply);
    } else {
      hide Step;
      ReplyOrSignalIsCareful(c, e);
    }
  }

  lemma ReplyOrSignalIsCareful(c: Channel, e: Event)
    requires Inv(c) && Enabled(c, e) && !e.ContactsReply?
    ensures Careful(c, Step(c, e))
  {
    NoDeltaBeforeMembers(c);
    UnchangedIsCareful(c);
    hide Inv, Careful, GotConnection, GotMainProperties, GotInterfaces, GotGroupProperties, GotSelfHandle,
         DoMembersChanged;
    match e
    case Connected(self, immutable) => ConnectedIsCareful(c, self, immutable);
    case MainReply(props, connectionSelf) => MainReplyIsCareful(c, props, connectionSelf);
    case InterfacesReply(found, connectionSelf) => InterfacesReplyIsCareful(c, found, connectionSelf);
    case GroupReply(props) => GroupReplyIsCareful(c, props);
    case SelfHandleReply(handle) => SelfHandleReplyIsCareful(c, handle);
    case MembersChanged(d, known) => MembersChangeIsCareful(c, d, known);
    case MembersChangedDetailed(d, known) => MembersChangeIsCareful(c, d, known);
    case _ => OthersAreCareful(c, e);
  }

  lemma NoDeltaBeforeMembers(c: Channel)
    requires Inv(c)
    ensures ConnectionReady in c.calls || MainProperties in c.calls ==> c.group.queue == []
  {
    if ConnectionReady in c.calls {
      AnsweredCall(c, ConnectionReady);
    } else if MainProperties in c.calls {
      AnsweredCall(c, MainProperties);
    }
  }

  lemma UnchangedIsCareful(c: Channel)
    ensures Careful(c, c)
  {
  }

  // ---------------------------------------------------------------- the results

  /** The event that completes FeatureCore leaves nothing unfinished, and is the only one to do so. */
  lemma CompletionIsSafe(c: Channel, e: Event)
    requires Inv(c) && Enabled(c, e)
    ensures Step(c, e).completions != c.completions ==>
              && c.completions == 0 && Step(c, e).completions == 1
              && Step(c, e).ready && AllFinished(Step(c, e))
  {
    hide Step;
    StepKeeps(c, e);
    StepIsCareful(c, e);
  }

  /** FeatureCore completes at most once in any run, and only when nothing is unfinished. */
  lemma CompletesOnceAndSafely(run: seq<Channel>, events: seq<Event>, i: nat)
    requires IsRun(run, events) && i < |events|
    ensures run[i].completions <= run[i + 1].completions <= 1
    ensures run[i].completions != run[i + 1].completions ==> run[i + 1].ready && AllFinished(run[i + 1])
  {
    hide Step;
    RunKeeps(run, events, i);
    StepIsCareful(run[i], events[i]);
    CompletionIsSafe(run[i], events[i]);
  }

  /** A channel that has completed reports readiness once more exactly if it became invalid since and
      the reply to a contact build leaves it nothing to do; the readiness helper ignores that. */
  lemma ReportsAgainIff(c: Channel, e: Event)
    requires Inv(c) && Enabled(c, e) && c.completions == 1
    ensures Step(c, e).completions == 1 && c.reports <= Step(c, e).reports <= c.reports + 1
    ensures Step(c, e).reports == c.reports + 1
            <==> !c.valid && e.ContactsReply? && c.group.queue == [] && !c.group.parties.retrieveSelf
  {
    assert c.calls == [] && c.introspectQueue == [];
    hide BuildContacts, StartDelta, AfterWork, EmissionFor, WorkFor, GroupInv;
    BuildReportsNothing();
  }

  lemma BuildReportsNothing()
    ensures forall x: Channel :: BuildContacts(x).reports == x.reports && BuildContacts(x).completions == x.completions
  {
  }

  /** The self handle is known as soon as the connection is. */
  predicate SelfKnown(c: Channel) {
    c.group.parties.selfHandle != 0 || ConnectionReady in c.calls || !c.valid
  }

  lemma {:induction false} NeverSkips(run: seq<Channel>, events: seq<Event>, i: nat)
    requires IsRun(run, events) && i <= |events|
    requires forall j :: 0 <= j <= i ==> SelfKnown(run[j])
    ensures run[i].valid ==> !run[i].group.history.skipped
  {
    hide Step, Inv, Applied, Enabled;
    if i > 0 {
      NeverSkips(run, events, i - 1);
      RunKeeps(run, events, i - 1);
      RunKeeps(run, events, i);
      StepIsCareful(run[i - 1], events[i - 1]);
      NothingSkippedYet(run[i]);
    }
  }

  lemma NothingSkippedYet(c: Channel)
    requires Inv(c)
    ensures ConnectionReady in c.calls ==> !c.group.history.skipped
  {
    if ConnectionReady in c.calls {
      AnsweredCall(c, ConnectionReady);
    }
  }

  /** With a self handle, a channel that is neither ready nor invalid always awaits some reply. */
  lemma NoDeadlock(run: seq<Channel>, events: seq<Event>, i: nat)
    requires IsRun(run, events) && i <= |events|
    requires forall j :: 0 <= j <= i ==> SelfKnown(run[j])
    requires run[i].valid && !run[i].ready
    ensures run[i].calls != [] || run[i].lookups != []
  {
    NeverSkips(run, events, i);
    RunKeeps(run, events, i);
  }
}
