/**
 Leaving a channel: the pending operation that follows a removal request through the reply, the
 membership signals, invalidation and the fallback close, whichever comes first.
 */
module PendingLeave {
  import opened Handles
  import opened GroupDelta
  import opened GroupReplica
  import opened GroupMembership
  import opened M = ChannelMachine
  import opened ChannelInvariants
  import opened ChannelReadiness
  import opened ChannelHistory

  datatype Phase = Removing | Waiting | Closing | Left | Failed

  datatype Leave = Leave(
    phase: Phase,
    removing: bool,     // the removal request awaits its reply
    closing: bool,      // the fallback close awaits its reply
    earlyClose: bool,   // the close was asked of an invalid channel, which succeeds without a call
    closed: bool,       // the fallback close succeeded
    told: bool,         // the channel's invalidation was announced
    finishes: nat)      // how often the operation finished

  predicate IsFinished(l: Leave) {
    l.phase.Left? || l.phase.Failed?
  }

  /** The self contact is shown in one of the three lists. */
  predicate SelfIn(c: Channel) {
    && c.group.parties.selfContact.Some?
    && var sets := ContactSets(c.group.maps);
       c.group.parties.selfContact.value in sets.members + sets.localPending + sets.remotePending
  }

  /** What requestLeave answers with. */
  datatype Answer = AlreadyLeft | NotReady | JustClose | Leaving(leave: Leave)

  function RequestLeave(c: Channel): (answer: Answer)
    ensures answer.AlreadyLeft? <==> !c.valid || (IsReady(c) && c.interfaces.group && !SelfIn(c))
    ensures answer.NotReady? <==> c.valid && !IsReady(c)
    ensures answer.JustClose? <==> IsReady(c) && !c.interfaces.group
    ensures answer.Leaving? <==> IsReady(c) && c.interfaces.group && SelfIn(c)
    ensures answer.Leaving? ==> answer.leave.phase.Removing? && answer.leave.removing && answer.leave.finishes == 0
  {
    if !c.valid then AlreadyLeft
    else if !IsReady(c) then NotReady
    else if !c.interfaces.group then JustClose
    else if !SelfIn(c) then AlreadyLeft
    else Leaving(Leave(Removing, true, false, false, false, false, 0))
  }

  function SetFinished(l: Leave, phase: Phase): Leave {
    l.(phase := phase, finishes := l.finishes + 1)
  }

  function AfterInvalidation(l: Leave): Leave {
    var told := l.(told := true);
    if IsFinished(l) then told else SetFinished(told, Left)
  }

  function AfterRemoveReply(l: Leave, c: Channel, ok: bool): Leave {
    var replied := l.(removing := false);
    if IsFinished(l) then replied
    else if !ok then replied.(phase := Closing, closing := true, earlyClose := !c.valid)
    else if SelfIn(c) then replied.(phase := Waiting)
    else SetFinished(replied, Left)
  }

  /** The operation listens to membership signals only while it waits. */
  function AfterMembersChanged(l: Leave, c: Channel, removed: set<Contact>): Leave {
    if l.phase.Waiting? && c.group.parties.selfContact.Some? && c.group.parties.selfContact.value in removed
    then SetFinished(l, Left) else l
  }

  function AfterCloseReply(l: Leave, ok: bool): Leave {
    var replied := l.(closing := false);
    if IsFinished(l) then replied
    else if ok then SetFinished(replied.(closed := true), Left)
    else SetFinished(replied, Failed)
  }

  // ---------------------------------------------------------------- the channel and the operation

  datatype System = System(channel: Channel, leave: Option<Leave>)

  datatype Happening =
    | OfChannel(event: M.Event)
    | Requested
    | RemoveReplied(ok: bool)
    | CloseReplied(ok: bool)
    | InvalidationTold

  /** The signal a contact build's reply emits, if it emits one. */
  function Emits(c: Channel, e: M.Event): Option<Emission> {
    if e.ContactsReply? && IsReady(c) && Noteworthy(EmissionFor(c.group.maps, c.group.work, Built(e.reply)))
    then Some(EmissionFor(c.group.maps, c.group.work, Built(e.reply))) else None
  }

  predicate CanHappen(s: System, h: Happening) {
    match h
    case OfChannel(e) => Enabled(s.channel, e)
    case Requested => s.leave.None?
    case RemoveReplied(_) => s.leave.Some? && s.leave.value.removing
    case CloseReplied(ok) => s.leave.Some? && s.leave.value.closing && (s.leave.value.earlyClose ==> ok)
    case InvalidationTold => s.leave.Some? && !s.channel.valid && !s.leave.value.told
  }

  function Next(s: System, h: Happening): System
    requires CanHappen(s, h)
  {
    match h
    case OfChannel(e) =>
      var n := Step(s.channel, e);
      if s.leave.Some? && Emits(s.channel, e).Some? then
        System(n, Some(AfterMembersChanged(s.leave.value, n, Emits(s.channel, e).value.removed)))
      else System(n, s.leave)
    case Requested =>
      if RequestLeave(s.channel).Leaving? then s.(leave := Some(RequestLeave(s.channel).leave)) else s
    case RemoveReplied(ok) => s.(leave := Some(AfterRemoveReply(s.leave.value, s.channel, ok)))
    case CloseReplied(ok) => s.(leave := Some(AfterCloseReply(s.leave.value, ok)))
    case InvalidationTold => s.(leave := Some(AfterInvalidation(s.leave.value)))
  }

  ghost predicate IsHistory(run: seq<System>, events: seq<Happening>) {
    && |run| == |events| + 1
    && run[0] == System(INITIAL_CHANNEL, None)
    && forall i :: 0 <= i < |events| ==> CanHappen(run[i], events[i]) && run[i + 1] == Next(run[i], events[i])
  }

  // ---------------------------------------------------------------- finishing

  /** The operation finished at most once, and while it has not, something will still tell it more. */
  predicate Sound(s: System) {
    s.leave.Some? ==>
      var l := s.leave.value;
      && l.finishes == (if IsFinished(l) then 1 else 0)
      && (l.phase.Removing? ==> l.removing)
      && (l.phase.Closing? ==> l.closing)
      && (l.told ==> IsFinished(l) && !s.channel.valid)
      && (l.closed ==> l.phase.Left?)
  }

  lemma NeverValidAgain(c: Channel, e: M.Event)
    requires Inv(c) && Enabled(c, e)
    ensures Step(c, e).valid ==> c.valid
  {
    hide Inv, Step;
    StepIsCareful(c, e);
  }

  lemma NextKeeps(s: System, h: Happening)
    requires Inv(s.channel) && Sound(s) && CanHappen(s, h)
    ensures Inv(Next(s, h).channel) && Sound(Next(s, h))
  {
    hide Inv, Step, Emits, EmissionFor, Noteworthy;
    if h.OfChannel? {
      StepKeeps(s.channel, h.event);
      NeverValidAgain(s.channel, h.event);
    }
  }

  lemma {:induction false} FinishesAtMostOnce(run: seq<System>, events: seq<Happening>, i: nat)
    requires IsHistory(run, events) && i < |run|
    ensures Inv(run[i].channel) && Sound(run[i])
  {
    hide Inv, Sound, Next;
    if i == 0 {
      StartsSound();
    } else {
      FinishesAtMostOnce(run, events, i - 1);
      NextKeeps(run[i - 1], events[i - 1]);
    }
  }

  lemma StartsSound()
    ensures Inv(INITIAL_CHANNEL) && Sound(System(INITIAL_CHANNEL, None))
  {
    assert Pipeline(INITIAL_CHANNEL) == [ConnectionReady];
  }

  // ---------------------------------------------------------------- the fallback

  ghost predicate Happened(events: seq<Happening>, i: nat, h: Happening)
    requires i <= |events|
  {
    exists j :: 0 <= j < i && events[j] == h
  }

  /** A refused removal request, whatever the channel is like, is followed by a close, which then
      decides how an operation still unfinished ends. */
  lemma RefusalFallsBack(s: System, ok: bool)
    requires s.leave.Some? && !IsFinished(s.leave.value)
    ensures CanHappen(s, RemoveReplied(false)) ==>
              var n := Next(s, RemoveReplied(false));
              && n.leave.Some? && n.leave.value.phase.Closing? && n.leave.value.closing
    ensures CanHappen(s, CloseReplied(ok)) ==>
              var n := Next(s, CloseReplied(ok)); n.leave.Some? && n.leave.value.phase == if ok then Left else Failed
  {
  }

  /** Once told that the channel is invalid, or once the close was answered, the operation is over. */
  lemma {:induction false} AnsweredMeansFinished(run: seq<System>, events: seq<Happening>, i: nat)
    requires IsHistory(run, events) && i <= |events|
    requires Happened(events, i, InvalidationTold) || Happened(events, i, CloseReplied(true))
             || Happened(events, i, CloseReplied(false))
    ensures run[i].leave.Some? && IsFinished(run[i].leave.value)
  {
    hide Step, CanHappen, Next;
    var h := events[i - 1];
    assert CanHappen(run[i - 1], h) && run[i] == Next(run[i - 1], h);
    if h.InvalidationTold? || h.CloseReplied? {
      AnswerFinishes(run[i - 1], h);
    } else {
      HappenedMore(events, i, InvalidationTold);
      HappenedMore(events, i, CloseReplied(true));
      HappenedMore(events, i, CloseReplied(false));
      AnsweredMeansFinished(run, events, i - 1);
      FinishedStays(run[i - 1], h);
    }
  }

  lemma AnswerFinishes(s: System, h: Happening)
    requires CanHappen(s, h) && (h.InvalidationTold? || h.CloseReplied?)
    ensures Next(s, h).leave.Some? && IsFinished(Next(s, h).leave.value)
  {
  }

  lemma FinishedStays(s: System, h: Happening)
    requires CanHappen(s, h) && s.leave.Some? && IsFinished(s.leave.value)
    ensures Next(s, h).leave.Some? && IsFinished(Next(s, h).leave.value)
  {
    hide Step, EmissionFor;
  }

  /** What closing and failing rest on: the replies that came. */
  ghost predicate Explained(l: Leave, events: seq<Happening>, i: nat)
    requires i <= |events|
  {
    && (l.phase.Closing? || l.phase.Failed? || l.closed ==> Happened(events, i, RemoveReplied(false)))
    && (l.closing ==> Happened(events, i, RemoveReplied(false)))
    && (l.phase.Failed? ==> Happened(events, i, CloseReplied(false)))
    && (l.closed ==> Happened(events, i, CloseReplied(true)))
    && (l.told ==> Happened(events, i, InvalidationTold))
  }

  /** The operation fails only after the service refused the removal and then the close; whatever else
      happens first makes it succeed. */
  lemma {:induction false} FailsOnlyIfCloseFails(run: seq<System>, events: seq<Happening>, i: nat)
    requires IsHistory(run, events) && i < |run|
    ensures run[i].leave.Some? ==> Explained(run[i].leave.value, events, i)
  {
    hide Step, Enabled, Emits, SelfIn;
    if i == 0 {
    } else {
      FailsOnlyIfCloseFails(run, events, i - 1);
      assert run[i] == Next(run[i - 1], events[i - 1]);
      forall h ensures Happened(events, i, h) <==> Happened(events, i - 1, h) || h == events[i - 1] {
        HappenedMore(events, i, h);
      }
      ExplainedOn(run[i - 1], events, i - 1, i);
    }
  }

  lemma HappenedMore(events: seq<Happening>, i: nat, h: Happening)
    requires 0 < i <= |events|
    ensures Happened(events, i, h) <==> Happened(events, i - 1, h) || h == events[i - 1]
  {
  }

  lemma ExplainedOn(s: System, events: seq<Happening>, i: nat, after: nat)
    requires i + 1 == after <= |events| && CanHappen(s, events[i])
    requires s.leave.Some? ==> Explained(s.leave.value, events, i)
    requires forall h :: Happened(events, after, h) <==> Happened(events, i, h) || h == events[i]
    ensures Next(s, events[i]).leave.Some? ==> Explained(Next(s, events[i]).leave.value, events, after)
  {
    hide Step, Enabled, Emits, SelfIn, Happened;
  }

  // ---------------------------------------------------------------- success means having left

  /** Nobody a signal reports removed is still in one of the lists. */
  lemma RemovedAreGone(m: Maps, w: Work, built: set<Handle>)
    requires Disjoint(KeySets(m)) && AllNamed(m) && Matches(w, m)
    requires w.current.Some? ==> ListsDisjoint(w.current.value)
    ensures var e, s := EmissionFor(m, w, built), ContactSets(AfterWork(m, w, built));
            e.removed !! s.members + s.localPending + s.remotePending
  {
    if w.current.Some? {
      var d := w.current.value;
      RemovalsAre(m, d, built);
      AfterWorkIs(m, d, built);
      var n := AfterWork(m, w, built);
      NamedValues(n.members);
      NamedValues(n.localPending);
      NamedValues(n.remotePending);
      hide AfterWork, AfterRemovals, WorkFor, Disjoint, ListsDisjoint;
    } else {
      NoWorkChangesNobody(m, built);
    }
  }

  lemma HappeningKeepsReplica(s: System, h: Happening)
    requires Inv(s.channel) && CanHappen(s, h)
    requires WellBehaved(Next(s, h).channel.group)
    ensures WellBehaved(s.channel.group)
    ensures Replica(s.channel.group) ==> Replica(Next(s, h).channel.group)
  {
    hide Inv, Step, Enabled, WellBehaved, Replica;
    if h.OfChannel? {
      EventBehaves(s.channel, h.event);
      if Replica(s.channel.group) {
        StepKeepsReplica(s.channel, h.event);
      }
    }
  }

  lemma {:induction false} HistoryIsSafe(run: seq<System>, events: seq<Happening>, i: nat)
    requires IsHistory(run, events) && i < |run|
    requires WellBehaved(run[i].channel.group)
    ensures Inv(run[i].channel) && Replica(run[i].channel.group)
    decreases i
  {
    FinishesAtMostOnce(run, events, i);
    hide Inv, Sound, Next, CanHappen, WellBehaved;
    if i == 0 {
      assert ApplyAll(NOBODY, []) == NOBODY;
    } else {
      hide Replica;
      FinishesAtMostOnce(run, events, i - 1);
      HappeningKeepsReplica(run[i - 1], events[i - 1]);
      HistoryIsSafe(run, events, i - 1);
    }
  }

  lemma MapsAfterReply(c: Channel, e: M.Event)
    requires Inv(c) && Enabled(c, e) && e.ContactsReply?
    ensures Step(c, e).group.maps == AfterWork(c.group.maps, c.group.work, Built(e.reply))
  {
    hide Inv, Step, AfterWork, EmissionFor, PartiesAfter;
    StepIsCareful(c, e);
  }

  /** What is known of a group while a build is in flight. */
  lemma BuildInFlight(c: Channel)
    requires Inv(c) && c.lookups != [] && Replica(c.group) && WellBehaved(c.group)
    ensures var g := c.group;
            && Disjoint(KeySets(g.maps)) && AllNamed(g.maps) && Matches(g.work, g.maps)
            && (g.work.current.Some? ==> ListsDisjoint(g.work.current.value))
  {
    BusyBuild(c);
    AppliedIsDisjoint(c);
    if c.group.work.current.Some? {
      CurrentIsWellFormed(c.group);
    }
    hide Inv, ApplyAll, WellBehaved, Matches, InOrder;
  }

  /** When a signal names the self contact among the removed, it is in none of the lists. */
  lemma SignalMeansGone(c: Channel, e: M.Event)
    requires Inv(c) && Enabled(c, e) && Replica(c.group) && WellBehaved(c.group)
    requires Emits(c, e).Some?
    requires Step(c, e).group.parties.selfContact.Some?
    requires Step(c, e).group.parties.selfContact.value in Emits(c, e).value.removed
    ensures !SelfIn(Step(c, e))
  {
    hide Step, Inv, Replica, WellBehaved, AfterWork, EmissionFor, Noteworthy, KeySets, Disjoint, Matches, AllNamed,
         ListsDisjoint;
    MapsAfterReply(c, e);
    BuildInFlight(c);
    RemovedAreGone(c.group.maps, c.group.work, Built(e.reply));
  }

  /** The operation finishes successfully only when the self contact is in none of the three lists,
      the channel became invalid, or the fallback close succeeded. */
  lemma SuccessMeansGone(run: seq<System>, events: seq<Happening>, i: nat)
    requires IsHistory(run, events) && i < |events|
    requires WellBehaved(run[i + 1].channel.group)
    requires run[i].leave.Some? && !IsFinished(run[i].leave.value)
    requires run[i + 1].leave.Some? && run[i + 1].leave.value.phase.Left?
    ensures !SelfIn(run[i + 1].channel) || !run[i + 1].channel.valid || Happened(events, i + 1, CloseReplied(true))
  {
    var s, h := run[i], events[i];
    FinishesAtMostOnce(run, events, i);
    FailsOnlyIfCloseFails(run, events, i + 1);
    assert run[i + 1] == Next(s, h);
    if h.OfChannel? {
      EventBehaves(s.channel, h.event);
      HistoryIsSafe(run, events, i);
      hide Inv, Step, Replica, WellBehaved, SelfIn;
      SignalMeansGone(s.channel, h.event);
    }
  }

  /** The reply to the removal request ends the operation at once exactly when there is no self
      contact, or it is one nobody shows: the self handle may then still be in the group, when its
      contact could not be built or the self contact belongs to an earlier self handle. */
  lemma LeavesWithoutSelfContactIff(l: Leave, c: Channel)
    requires l.phase.Removing? && AllNamed(c.group.maps)
    ensures AfterRemoveReply(l, c, true).phase.Left?
            <==>
            var self := c.group.parties.selfContact; self.None? || self.value.handle !in Everyone(KeySets(c.group.maps))
  {
    SelfInIff(c);
  }

  lemma SelfInIff(c: Channel)
    requires AllNamed(c.group.maps)
    ensures SelfIn(c) <==> var self := c.group.parties.selfContact;
                           self.Some? && self.value.handle in Everyone(KeySets(c.group.maps))
  {
    var m := c.group.maps;
    NamedValues(m.members);
    NamedValues(m.localPending);
    NamedValues(m.remotePending);
    if c.group.parties.selfContact.Some? {
      var self := c.group.parties.selfContact.value;
      WithHandlesMember(m.members.Keys, self);
      WithHandlesMember(m.localPending.Keys, self);
      WithHandlesMember(m.remotePending.Keys, self);
    }
  }

  // ---------------------------------------------------------------- no signal is missed

  /** A channel being left is ready while it is valid, and an operation that waits has something to
      wait for. */
  predicate Attentive(s: System) {
    s.leave.Some? && s.channel.valid ==> s.channel.ready && (s.leave.value.phase.Waiting? ==> SelfIn(s.channel))
  }

  /** With every contact built, whoever is no longer shown was removed. */
  lemma GoneWereRemoved(m: Maps, w: Work, built: set<Handle>, h: Handle)
    requires Disjoint(KeySets(m)) && AllNamed(m) && Matches(w, m)
    requires w.current.Some? ==> ListsDisjoint(w.current.value)
    requires ToAdd(w) <= built && h in Everyone(KeySets(m))
    ensures AllNamed(AfterWork(m, w, built))
    ensures h in Everyone(KeySets(AfterWork(m, w, built))) || Contact(h) in EmissionFor(m, w, built).removed
  {
    if w.current.Some? {
      var d := w.current.value;
      AfterWorkIs(m, d, built);
      RemovalsAre(m, d, built);
      WorkIs(m, d);
      hide AfterWork, AfterRemovals, WorkFor;
      WithHandlesMember(SetOf(d.removed) * Everyone(KeySets(m)), Contact(h));
      if h !in SetOf(d.removed) {
        StaysUnlessRemoved(KeySets(m), d, built, h);
      }
    } else {
      NoWorkChangesNobody(m, built);
    }
  }

  lemma StaysUnlessRemoved(s: Sets, d: Delta, built: set<Handle>, h: Handle)
    requires Disjoint(s) && ListsDisjoint(d) && SetOf(d.added) - s.members <= built
    requires h in Everyone(s) && h !in SetOf(d.removed)
    ensures h in Everyone(ReplicaApply(s, d, built))
  {
  }

  lemma BuildKeepsAttentive(s: System, e: M.Event)
    requires Inv(s.channel) && Enabled(s.channel, e) && e.ContactsReply?
    requires Replica(s.channel.group) && WellBehaved(s.channel.group) && LooksUpEverything(s.channel, e)
    requires Step(s.channel, e).valid && IsReady(s.channel) && SelfIn(s.channel)
    requires Step(s.channel, e).group.parties.selfContact == s.channel.group.parties.selfContact
    ensures var n := Step(s.channel, e);
            && n.group.parties.selfContact.Some?
            && (SelfIn(n) || (Emits(s.channel, e).Some?
                              && n.group.parties.selfContact.value in Emits(s.channel, e).value.removed))
  {
    var g, n := s.channel.group, Step(s.channel, e);
    var self := g.parties.selfContact.value;
    BuildInFlight(s.channel);
    BusyBuild(s.channel);
    SelfInIff(s.channel);
    MapsAfterReply(s.channel, e);
    hide Inv, Step, Replica, WellBehaved, AfterWork, EmissionFor, KeySets, Disjoint, Matches, AllNamed, ListsDisjoint,
         SelfIn, ToAdd;
    GoneWereRemoved(g.maps, g.work, Built(e.reply), self.handle);
    SelfInIff(n);
  }

  lemma NextKeepsAttentive(s: System, h: Happening)
    requires Inv(s.channel) && CanHappen(s, h) && Attentive(s)
    requires Replica(s.channel.group) && WellBehaved(s.channel.group)
    requires h.OfChannel? ==> LooksUpEverything(s.channel, h.event)
    requires s.leave.Some? ==> Next(s, h).channel.group.parties.selfContact == s.channel.group.parties.selfContact
    ensures Attentive(Next(s, h))
  {
    hide Inv, Replica, WellBehaved, SelfIn, Step, Enabled, LooksUpEverything, Emits;
    if h.OfChannel? && s.leave.Some? {
      EventKeepsAttentive(s, h.event);
    }
  }

  lemma EventKeepsAttentive(s: System, e: M.Event)
    requires Inv(s.channel) && Enabled(s.channel, e) && s.leave.Some? && Attentive(s)
    requires Replica(s.channel.group) && WellBehaved(s.channel.group) && LooksUpEverything(s.channel, e)
    requires Step(s.channel, e).group.parties.selfContact == s.channel.group.parties.selfContact
    ensures Attentive(Next(s, OfChannel(e)))
  {
    hide Inv, Step, Replica, WellBehaved, Emits, SelfIn, Enabled, LooksUpEverything;
    NeverValidAgain(s.channel, e);
    if Step(s.channel, e).valid {
      StaysReady(s.channel, e);
      if s.leave.value.phase.Waiting? {
        if e.ContactsReply? {
          BuildKeepsAttentive(s, e);
        } else {
          SameMapsSameSelf(s.channel, e);
        }
      }
    }
  }

  lemma StaysReady(c: Channel, e: M.Event)
    requires Inv(c) && Enabled(c, e) && c.ready && Step(c, e).valid
    ensures Step(c, e).ready
  {
    StepKeeps(c, e);
    StepIsCareful(c, e);
    hide Step, GroupInv, Chain, FlagsAgree, Lookups;
  }

  lemma SameMapsSameSelf(c: Channel, e: M.Event)
    requires Inv(c) && Enabled(c, e) && !e.ContactsReply? && SelfIn(c)
    requires Step(c, e).group.parties.selfContact == c.group.parties.selfContact
    ensures SelfIn(Step(c, e))
  {
    StepIsCareful(c, e);
    hide Step, Inv;
  }

  /** The self contact does not change once leaving was requested, and every contact build returns
      all it asks for. */
  ghost predicate Undisturbed(run: seq<System>, events: seq<Happening>, i: nat)
    requires IsHistory(run, events) && i < |run|
  {
    forall j :: 0 <= j < i ==>
                  && (events[j].OfChannel? ==> LooksUpEverything(run[j].channel, events[j].event))
                  && (run[j].leave.Some? ==>
                        run[j + 1].channel.group.parties.selfContact == run[j].channel.group.parties.selfContact)
  }

  /** An operation still waiting on a valid channel has missed nothing: the self contact is shown. */
  lemma {:induction false} WaitingMeansShown(run: seq<System>, events: seq<Happening>, i: nat)
    requires IsHistory(run, events) && i < |run| && WellBehaved(run[i].channel.group) && Undisturbed(run, events, i)
    ensures Attentive(run[i])
    decreases i
  {
    hide Inv, Next, CanHappen, WellBehaved, Replica, Attentive;
    if i == 0 {
      NothingToLeave(run[0]);
    } else {
      FinishesAtMostOnce(run, events, i - 1);
      HappeningKeepsReplica(run[i - 1], events[i - 1]);
      HistoryIsSafe(run, events, i - 1);
      WaitingMeansShown(run, events, i - 1);
      NextKeepsAttentive(run[i - 1], events[i - 1]);
    }
  }

  lemma NothingToLeave(s: System)
    requires s.leave.None?
    ensures Attentive(s)
  {
  }

  // ---------------------------------------------------------------- the object

  class LeaveOperation {
    var finished: bool
    var isError: bool
    var watchingMembers: bool   // connected to groupMembersChanged

    ghost var leave: Leave

    /** What the operation's own fields say about how far leaving got. */
    ghost predicate Valid()
      reads this
    {
      && finished == IsFinished(leave) && isError == leave.phase.Failed?
      && (!finished ==> watchingMembers == leave.phase.Waiting?)
      && (!finished && leave.removing ==> leave.phase.Removing?)
    }

    constructor ()
      ensures Valid() && leave == Leave(Removing, true, false, false, false, false, 0)
    {
      finished, isError, watchingMembers := false, false, false;
      leave := Leave(Removing, true, false, false, false, false, 0);
    }

    /** Finishing twice is refused with a warning. */
    method Finish(ok: bool)
      requires Valid()
      modifies this
      ensures Valid() && finished
      ensures leave == if old(finished) then old(leave) else SetFinished(old(leave), if ok then Left else Failed)
    {
      if finished {
        return;
      }
      finished, isError := true, !ok;
      leave := SetFinished(leave, if ok then Left else Failed);
    }

    method OnChanInvalidated()
      requires Valid()
      modifies this
      ensures Valid() && leave == AfterInvalidation(old(leave))
    {
      leave := leave.(told := true);
      if finished {
        return;
      }
      Finish(true);
    }

    /** The reply to the removal request, with the channel's contacts at that moment. */
    method OnRemoveFinished(ok: bool, chan: Channel)
      requires Valid() && leave.removing
      modifies this
      ensures Valid() && leave == AfterRemoveReply(old(leave), chan, ok)
    {
      leave := leave.(removing := false);
      if finished {
        return;
      }
      if ok {
        var c := chan.group.parties.selfContact;
        var maps := chan.group.maps;
        if c.Some? && (c.value in maps.members.Values || c.value in maps.localPending.Values
                       || c.value in maps.remotePending.Values) {
          watchingMembers := true;
          leave := leave.(phase := Waiting);
        } else {
          Finish(true);
        }
        return;
      }
      leave := leave.(phase := Closing, closing := true, earlyClose := !chan.valid);
    }

    method OnMembersChanged(chan: Channel, removed: set<Contact>)
      requires Valid() && watchingMembers
      modifies this
      ensures Valid() && leave == AfterMembersChanged(old(leave), chan, removed)
    {
      if finished {
        return;
      }
      var c := chan.group.parties.selfContact;
      if c.Some? && c.value in removed {
        Finish(true);
      }
    }

    method OnCloseFinished(ok: bool)
      requires Valid()
      modifies this
      ensures Valid() && leave == AfterCloseReply(old(leave), ok)
    {
      leave := leave.(closing := false);
      if finished {
        return;
      }
      if !ok {
        Finish(false);
      } else {
        leave := leave.(closed := true);
        Finish(true);
      }
    }
  }
}
