/**
 A group whose service lacks the group properties.  The channel asks for its flags, members, local
 pending members and self handle one after the other, and takes no delta before the last reply.
 What the service announces in between is lost: this module says what a channel ends up with, and
 exactly when that is what the service has.
 */
module ChannelFallback {
  import opened Handles
  import opened GroupDelta
  import opened GroupReplica
  import opened ChannelMachine
  import opened ChannelInvariants
  import opened ChannelReadiness
  import opened ChannelHistory
  import opened ChannelConvergence

  /** How much of its membership the service has reported. */
  datatype Stage = NothingTold | MembersTold | AllTold

  /** What the service said and did: the sets it reported to GetAllMembers, the deltas it announced
      from then until it answered GetSelfHandle, how many of them before it reported the local
      pending members, and the deltas it announced later. */
  datatype Ledger = Ledger(stage: Stage, reported: Sets, unheard: seq<Delta>, early: nat, heard: seq<Delta>)

  const NO_LEDGER := Ledger(NothingTold, NOBODY, [], 0, [])

  /** The sets the replies describe when put together. */
  function Told(l: Ledger): Sets {
    if l.early <= |l.unheard| then
      Sets(l.reported.members, ApplyAll(l.reported, l.unheard[..l.early]).localPending, l.reported.remotePending)
    else l.reported
  }

  /** What the replies and the deltas after them describe. */
  function View(l: Ledger): Sets {
    ApplyAll(Told(l), l.heard)
  }

  /** A reply on its way behind some of the signals. */
  datatype Reply = Reply(event: Event, ahead: nat)

  datatype Fallback = Fallback(channel: Channel, sets: Sets, flags: Flags, wire: seq<Message>,
                               reply: Option<Reply>, ledger: Ledger)

  datatype Move =
    | Common(action: Action)
    | Send(event: Event)
    | TakeReply

  function Shadow(s: Fallback): System {
    System(s.channel, View(s.ledger), s.flags, s.wire)
  }

  // ---------------------------------------------------------------- the steps

  function AllMeans(all: AllMembers): Sets {
    Sets(SetOf(all.members), SetOf(all.localPending), SetOf(all.remotePending))
  }

  /** The replies a service gives: its present flags and sets.  Nobody reported as a member or remote
      pending has become local pending meanwhile. */
  predicate IsReport(s: Fallback, e: Event) {
    match e
    case FlagsReply(flags) => flags == Some(s.flags)
    case MembersReply(all) => all.Some? && AllMeans(all.value) == s.sets
    case LocalPendingReply(infos) =>
      infos.Some? ==>
        && SetOf(InfoHandles(infos.value)) == s.sets.localPending
        && s.sets.localPending !! s.ledger.reported.members + s.ledger.reported.remotePending
    case SelfHandleReply(_) => true
    case _ => false
  }

  /** What may happen next.  Messages arrive in the order they were sent; a delta is well formed for
      the service, and for what the channel was told once that is complete. */
  predicate CanMove(s: Fallback, m: Move) {
    match m
    case Common(Change(d, _)) =>
      WellFormed(s.sets, d) && !d.IsEmpty() && (s.ledger.stage.AllTold? ==> WellFormed(View(s.ledger), d))
    case Common(SendAnswer(_)) => false
    case Common(Deliver(known)) => (s.reply.Some? ==> s.reply.value.ahead > 0) && Possible(Shadow(s), Deliver(known))
    case Common(a) => Possible(Shadow(s), a)
    case Send(e) => s.reply.None? && CallOf(e).Some? && Enabled(s.channel, e) && IsReport(s, e)
    case TakeReply => s.reply.Some? && s.reply.value.ahead == 0 && Enabled(s.channel, s.reply.value.event)
  }

  function Announced(l: Ledger, d: Delta): Ledger {
    match l.stage
    case NothingTold => l
    case MembersTold => l.(unheard := l.unheard + [d])
    case AllTold => l.(heard := l.heard + [d])
  }

  function Reported(l: Ledger, e: Event, sets: Sets): Ledger {
    match e
    case MembersReply(_) => Ledger(MembersTold, sets, [], 0, [])
    case LocalPendingReply(infos) => if infos.Some? then l.(early := |l.unheard|) else l
    case SelfHandleReply(_) => l.(stage := AllTold)
    case _ => l
  }

  function Advanced(reply: Option<Reply>): Option<Reply> {
    if reply.Some? && reply.value.ahead > 0 then Some(reply.value.(ahead := reply.value.ahead - 1)) else reply
  }

  function Next(s: Fallback, m: Move): Fallback
    requires CanMove(s, m)
  {
    match m
    case Common(Change(d, both)) =>
      s.(sets := Apply(s.sets, d), wire := s.wire + Announcement(s.flags, d, both), ledger := Announced(s.ledger, d))
    case Common(Deliver(known)) =>
      s.(channel := Received(s.channel, s.wire[0], known), wire := s.wire[1..], reply := Advanced(s.reply))
    case Common(a) => var n := Act(Shadow(s), a); s.(channel := n.channel, flags := n.flags, wire := n.wire)
    case Send(e) => s.(reply := Some(Reply(e, |s.wire|)), ledger := Reported(s.ledger, e, s.sets))
    case TakeReply => s.(channel := Step(s.channel, s.reply.value.event), reply := None)
  }

  /** The channel has just asked for the group flags; signals sent earlier may still arrive. */
  predicate Begins(s: Fallback) {
    && Inv(s.channel) && s.channel.calls == [FallbackFlags] && s.channel.listening
    && !s.channel.group.history.skipped && s.channel.group.parties.selfHandle != 0
    && s.channel.group.initial.localPending == []
    && Disjoint(s.sets) && NoAnswer(s.wire)
    && s.reply.None? && s.ledger == NO_LEDGER
  }

  ghost predicate IsFallback(run: seq<Fallback>, moves: seq<Move>) {
    && |run| == |moves| + 1
    && Begins(run[0])
    && forall i :: 0 <= i < |moves| ==> CanMove(run[i], moves[i]) && run[i + 1] == Next(run[i], moves[i])
  }

  // ---------------------------------------------------------------- the invariant

  /** Listening to the signal in use, and following the flag changes on the wire, leads to the
      signal the service promises. */
  predicate Follows(detailed: bool, wire: seq<Message>, flags: Flags) {
    (DetailedAfterAll(detailed, wire) <==> Promises(flags)) && Tame(wire)
  }

  /** The ledger accounts for the service's sets. */
  predicate Balanced(l: Ledger, sets: Sets) {
    && Disjoint(sets)
    && (!l.stage.NothingTold? ==>
          && Disjoint(l.reported) && Disjoint(Told(l)) && l.early <= |l.unheard|
          && sets == ApplyAll(ApplyAll(l.reported, l.unheard), l.heard))
    && (!l.stage.AllTold? ==> l.heard == [])
  }

  /** The call in flight and the reply to it, if that is on its way. */
  predicate Asks(c: Channel, reply: Option<Reply>, wire: seq<Message>, flags: Flags, l: Ledger) {
    && |c.calls| == 1 && NoAnswer(wire)
    && (reply.Some? ==> reply.value.ahead <= |wire| && CallOf(reply.value.event) == Some(c.calls[0]))
    && match c.calls[0]
       case FallbackFlags => AsksFlags(c, reply, wire, flags, l)
       case FallbackMembers => Follows(c.group.usingDetailed, wire, flags) && AsksMembers(c, reply, l)
       case FallbackLocalPending => Follows(c.group.usingDetailed, wire, flags) && AsksLocalPending(c, reply, l)
       case FallbackSelfHandle =>
         && Follows(c.group.usingDetailed, wire, flags) && Means(c.group.initial, Told(l))
         && (if reply.None? then l.stage.MembersTold?
             else l.stage.AllTold? && AsksSelf(c, reply.value.ahead, wire, flags, l))
       case _ => false
  }

  predicate AsksFlags(c: Channel, reply: Option<Reply>, wire: seq<Message>, flags: Flags, l: Ledger) {
    && l.stage.NothingTold? && c.group.initial.localPending == []
    && (reply.Some? ==>
          && reply.value.event.FlagsReply? && reply.value.event.flags.Some? && reply.value.ahead <= |wire|
          && Follows(Promises(reply.value.event.flags.value), wire[reply.value.ahead..], flags))
  }

  predicate AsksMembers(c: Channel, reply: Option<Reply>, l: Ledger) {
    && c.group.initial.localPending == []
    && (if reply.None? then l.stage.NothingTold?
        else
          && reply.value.event.MembersReply? && reply.value.event.all.Some?
          && l.stage.MembersTold? && l.early == 0 && AllMeans(reply.value.event.all.value) == l.reported)
  }

  predicate AsksLocalPending(c: Channel, reply: Option<Reply>, l: Ledger) {
    && l.stage.MembersTold?
    && (if reply.None? then l.early == 0 && Means(c.group.initial, Told(l))
        else
          && reply.value.event.LocalPendingReply?
          && Means(WithInfos(c.group.initial, reply.value.event.infos), Told(l)))
  }

  function WithInfos(i: Initial, infos: Option<seq<LocalPendingInfo>>): Initial {
    if infos.Some? then i.(localPending := infos.value) else i
  }

  /** The deltas made up from the replies, and those behind the last reply, lead to the view. */
  predicate AsksSelf(c: Channel, ahead: nat, wire: seq<Message>, flags: Flags, l: Ledger) {
    && ahead <= |wire| && Disjoint(View(l))
    && LeadsTo(InitialDeltas(c.group.initial), DetailedAfterAll(c.group.usingDetailed, wire[..ahead]), wire[ahead..],
               View(l), flags)
  }

  predicate InStep(s: Fallback) {
    && Balanced(s.ledger, s.sets) && Healthy(s.channel)
    && (if s.channel.group.haveMembers then
          s.reply.None? && s.ledger.stage.AllTold? && Synchronised(Shadow(s))
        else Asks(s.channel, s.reply, s.wire, s.flags, s.ledger))
  }

  lemma BeginsInStep(s: Fallback)
    requires Begins(s)
    ensures InStep(s)
  {
    AnsweredCall(s.channel, FallbackFlags);
    assert Pipeline(s.channel)[0] == FallbackFlags;
    BlankIsHealthy(s.channel);
  }

  // ---------------------------------------------------------------- the ledger

  lemma AnnouncedBalances(l: Ledger, sets: Sets, d: Delta)
    requires Balanced(l, sets) && WellFormed(sets, d)
    ensures Balanced(Announced(l, d), Apply(sets, d))
    ensures l.early <= |l.unheard| ==> Told(Announced(l, d)) == Told(l)
    ensures l.stage.AllTold? ==> View(Announced(l, d)) == Apply(View(l), d)
  {
    ApplyKeepsDisjoint(sets, d);
    ApplyOneMore(l.reported, l.unheard, d);
    ApplyOneMore(ApplyAll(l.reported, l.unheard), l.heard, d);
    ApplyOneMore(Told(l), l.heard, d);
    if l.early <= |l.unheard| {
      assert (l.unheard + [d])[..l.early] == l.unheard[..l.early];
    }
  }

  lemma ReportBalances(s: Fallback, e: Event)
    requires Balanced(s.ledger, s.sets) && IsReport(s, e)
             && (e.MembersReply? || !s.ledger.stage.NothingTold? || e.FlagsReply?)
    requires !s.ledger.stage.AllTold?
    ensures Balanced(Reported(s.ledger, e, s.sets), s.sets)
    ensures e.LocalPendingReply? && e.infos.Some? ==>
              Told(Reported(s.ledger, e, s.sets)) == Told(s.ledger).(localPending := s.sets.localPending)
    ensures e.MembersReply? ==> Told(Reported(s.ledger, e, s.sets)) == s.sets
  {
    var l := s.ledger;
    assert l.unheard[..|l.unheard|] == l.unheard;
    var none: seq<Delta> := [];
    assert none[..0] == none;
  }

  // ---------------------------------------------------------------- the service's steps

  lemma FollowsMore(detailed: bool, wire: seq<Message>, flags: Flags, extra: seq<Message>, flags': Flags)
    requires Follows(detailed, wire, flags) && Follows(Promises(flags), extra, flags')
    ensures Follows(detailed, wire + extra, flags')
  {
    PendingConcat(detailed, wire, extra);
  }

  lemma AsksMore(c: Channel, reply: Option<Reply>, wire: seq<Message>, flags: Flags, l: Ledger,
                 extra: seq<Message>, flags': Flags, l': Ledger)
    requires Asks(c, reply, wire, flags, l) && Follows(Promises(flags), extra, flags')
    requires l' == l.(unheard := l'.unheard, heard := l'.heard) && Told(l') == Told(l)
    requires l.stage.AllTold? ==> Describes(extra, View(l), flags, View(l'), flags') && Disjoint(View(l'))
    ensures Asks(c, reply, wire + extra, flags', l')
  {
    hide Follows, LeadsTo, Describes, View, Told, Means, AllMeans, DetailedAfterAll;
    TameHasNoAnswer(extra, Promises(flags), flags');
    if !c.calls[0].FallbackFlags? {
      FollowsMore(c.group.usingDetailed, wire, flags, extra, flags');
    }
    if reply.Some? {
      var k := reply.value.ahead;
      assert (wire + extra)[k..] == wire[k..] + extra && (wire + extra)[..k] == wire[..k];
      if c.calls[0].FallbackFlags? {
        FollowsMore(Promises(reply.value.event.flags.value), wire[k..], flags, extra, flags');
      } else if c.calls[0].FallbackSelfHandle? {
        LeadsToMore(InitialDeltas(c.group.initial), DetailedAfterAll(c.group.usingDetailed, wire[..k]), wire[k..],
                    View(l), flags, extra, View(l'), flags');
      }
    }
  }

  lemma TameHasNoAnswer(extra: seq<Message>, detailed: bool, flags: Flags)
    requires Follows(detailed, extra, flags)
    ensures NoAnswer(extra)
  {
  }

  /** What announces a change describes it. */
  lemma AnnouncementDescribes(sets: Sets, flags: Flags, d: Delta, both: bool)
    requires WellFormed(sets, d) && !d.IsEmpty()
    ensures Describes(Announcement(flags, d, both), sets, flags, Apply(sets, d), flags)
    ensures Follows(Promises(flags), Announcement(flags, d, both), flags)
  {
    AnnouncedOnce(flags, d, both);
    assert [d][0] == d && [d][1..] == [];
    assert ApplyAll(sets, [d]) == ApplyAll(Apply(sets, d), []);
  }

  lemma NewFlagsDescribe(sets: Sets, flags: Flags, added: Flags, removed: Flags)
    requires added !! removed && added !! flags && removed <= flags
    ensures Describes([NewFlags(added, removed)], sets, flags, sets, (flags + added) - removed)
    ensures Follows(Promises(flags), [NewFlags(added, removed)], (flags + added) - removed)
  {
    var extra := [NewFlags(added, removed)];
    assert extra[1..] == [];
    assert Pending(Promises(flags), extra)
        == Taken(Promises(flags), extra[0]) + Pending(DetailedAfter(Promises(flags), extra[0]), []);
    assert DetailedAfterAll(Promises(flags), extra) == DetailedAfterAll(DetailedAfter(Promises(flags), extra[0]), []);
  }

  /** A change or a change of flags keeps a channel without members in step. */
  lemma ServiceKeeps(s: Fallback, a: Action)
    requires InStep(s) && !s.channel.group.haveMembers && CanMove(s, Common(a))
    requires a.Change? || a.ChangeFlags?
    ensures InStep(Next(s, Common(a)))
  {
    hide Asks, Follows, Describes, Healthy, Balanced, View, Told, Disjoint, WellFormed, Apply, Announcement;
    var l := s.ledger;
    match a
    case Change(d, both) =>
      AnnouncementFits(s, d, both);
      AsksMore(s.channel, s.reply, s.wire, s.flags, l, Announcement(s.flags, d, both), s.flags, Announced(l, d));
    case ChangeFlags(added, removed) =>
      if l.stage.AllTold? {
        ViewIsDisjointOnce(s);
      }
      NewFlagsDescribe(View(l), s.flags, added, removed);
      AsksMore(s.channel, s.reply, s.wire, s.flags, l, [NewFlags(added, removed)], (s.flags + added) - removed, l);
  }

  lemma ViewIsDisjointOnce(s: Fallback)
    requires InStep(s) && s.ledger.stage.AllTold?
    ensures Disjoint(View(s.ledger))
  {
  }

  lemma AnnouncementFits(s: Fallback, d: Delta, both: bool)
    requires InStep(s) && CanMove(s, Common(Change(d, both)))
    ensures Balanced(Announced(s.ledger, d), Apply(s.sets, d)) && Told(Announced(s.ledger, d)) == Told(s.ledger)
    ensures Follows(Promises(s.flags), Announcement(s.flags, d, both), s.flags)
    ensures s.ledger.stage.AllTold? ==>
              && Disjoint(View(Announced(s.ledger, d)))
              && Describes(Announcement(s.flags, d, both), View(s.ledger), s.flags, View(Announced(s.ledger, d)),
                           s.flags)
  {
    AnnouncedBalances(s.ledger, s.sets, d);
    AnnouncementDescribes(s.sets, s.flags, d, both);
    if s.ledger.stage.AllTold? {
      ViewIsDisjointOnce(s);
      AnnouncementDescribes(View(s.ledger), s.flags, d, both);
      ApplyKeepsDisjoint(View(s.ledger), d);
    }
  }

  // ---------------------------------------------------------------- the channel's steps

  /** Before the members are known, a signal changes no more than the flags. */
  lemma EarlySignalIs(c: Channel, m: Message, known: bool)
    requires Inv(c) && c.listening && !c.group.haveMembers && !m.Answer?
    ensures var n := Received(c, m, known);
            && n == c.(group := c.group.(flags := n.group.flags, usingDetailed := n.group.usingDetailed))
            && (Tame([m]) ==> n.group.usingDetailed == DetailedAfter(c.group.usingDetailed, m))
  {
    assert m in [m];
    assert FlagsAgree(c) && c.interfaces.group;
    hide Inv, ProcessMembersChanged;
    if m.NewFlags? {
      SetFlagsAgrees(c.group, ChangedFlags(c.group.flags, m.added, m.removed));
    }
  }

  lemma FollowsNext(detailed: bool, wire: seq<Message>, flags: Flags)
    requires Follows(detailed, wire, flags) && wire != []
    ensures Follows(DetailedAfter(detailed, wire[0]), wire[1..], flags)
    ensures Tame([wire[0]])
  {
    assert wire[0] in wire;
  }

  lemma AsksNext(c: Channel, reply: Option<Reply>, wire: seq<Message>, flags: Flags, l: Ledger, n: Channel)
    requires Asks(c, reply, wire, flags, l) && wire != [] && (reply.Some? ==> reply.value.ahead > 0)
    requires n.calls == c.calls && n.group.initial == c.group.initial
    requires !wire[0].Answer? && Tame([wire[0]]) ==>
             n.group.usingDetailed == DetailedAfter(c.group.usingDetailed, wire[0])
    ensures Asks(n, Advanced(reply), wire[1..], flags, l)
  {
    assert wire[0] in wire;
    if !c.calls[0].FallbackFlags? {
      FollowsNext(c.group.usingDetailed, wire, flags);
    }
    hide Follows, LeadsTo, View, Told, Means, AllMeans;
    if reply.Some? {
      var k := reply.value.ahead;
      assert wire[1..][k - 1..] == wire[k..] && wire[1..][..k - 1] == wire[..k][1..] && wire[..k][0] == wire[0];
    }
  }

  lemma DeliveryKeeps(s: Fallback, known: bool)
    requires InStep(s) && !s.channel.group.haveMembers && CanMove(s, Common(Deliver(known)))
    ensures InStep(Next(s, Common(Deliver(known))))
  {
    assert s.wire[0] in s.wire;
    HealthyBasics(s.channel);
    EarlySignalIs(s.channel, s.wire[0], known);
    EarlySignalHealthy(s.channel, s.wire[0], known);
    hide Asks, Healthy, Balanced, Received;
    AsksNext(s.channel, s.reply, s.wire, s.flags, s.ledger, Received(s.channel, s.wire[0], known));
  }

  /** Before the members are known, only the self handle changes, or the channel is closed. */
  lemma EarlyOtherIs(c: Channel, e: Event)
    requires Inv(c) && !c.group.haveMembers && IsOther(e) && Enabled(c, e)
    requires |c.calls| == 1 && !c.calls[0].ConferenceProperties? && !IsLate(Pipeline(c))
    ensures var n := Step(c, e);
            && n.calls == c.calls && n.group.haveMembers == c.group.haveMembers
            && n.group.initial == c.group.initial && n.group.usingDetailed == c.group.usingDetailed
  {
    assert c.calls == [c.calls[0]];
  }

  lemma OtherKeeps(s: Fallback, e: Event)
    requires InStep(s) && !s.channel.group.haveMembers && CanMove(s, Common(Other(e)))
    ensures InStep(Next(s, Common(Other(e))))
  {
    assert Pipeline(s.channel)[0] == s.channel.calls[0];
    HealthyBasics(s.channel);
    EarlyOtherIs(s.channel, e);
    hide Step, Healthy, Balanced, Follows, LeadsTo, View, Told, Means, AllMeans;
    OtherHealthy(s.channel, e);
  }

  /** Storing a reply's values and making the next call of the fallback. */
  lemma NextCall(c: Channel, call: Introspection, g: Group)
    requires Chain(c) && call in c.calls && (call.FallbackFlags? || call.FallbackMembers? || call.FallbackLocalPending?)
    ensures c.introspectQueue != []
    ensures ContinueIntrospection(Answered(c, call).(group := g))
         == c.(calls := [c.introspectQueue[0]], introspectQueue := c.introspectQueue[1..], group := g)
    ensures c.introspectQueue[0] == (match call
                                     case FallbackFlags => FallbackMembers
                                     case FallbackMembers => FallbackLocalPending
                                     case _ => FallbackSelfHandle)
  {
    AnsweredCall(c, call);
  }

  // ---------------------------------------------------------------- replies sent

  lemma SendKeeps(s: Fallback, e: Event)
    requires InStep(s) && CanMove(s, Send(e))
    ensures InStep(Next(s, Send(e)))
  {
    hide Healthy, Balanced, Follows, LeadsTo, View, Told, Means, AllMeans;
    NoMembersWhileAsking(s, e);
    SentBalances(s, e);
    match e
    case FlagsReply(flags) => FlagsSent(s.wire, s.flags);
    case LocalPendingReply(infos) => LocalPendingSent(s, infos);
    case SelfHandleReply(_) => SelfHandleSent(s, e);
    case MembersReply(_) =>
  }

  lemma NoMembersWhileAsking(s: Fallback, e: Event)
    requires InStep(s) && CanMove(s, Send(e))
    ensures !s.channel.group.haveMembers && s.channel.calls == [CallOf(e).value]
    ensures s.ledger.stage.NothingTold? <==> e.FlagsReply? || e.MembersReply?
    ensures !s.ledger.stage.AllTold?
  {
    AnsweredCall(s.channel, CallOf(e).value);
    assert Pipeline(s.channel)[0] == CallOf(e).value;
  }

  lemma SentBalances(s: Fallback, e: Event)
    requires Balanced(s.ledger, s.sets) && IsReport(s, e) && !s.ledger.stage.AllTold?
    requires s.ledger.stage.NothingTold? <==> e.FlagsReply? || e.MembersReply?
    ensures var l := Reported(s.ledger, e, s.sets);
            Balanced(l, s.sets) && (e.MembersReply? ==> AllMeans(e.all.value) == l.reported)
  {
    ReportBalances(s, e);
  }

  lemma FlagsSent(wire: seq<Message>, flags: Flags)
    ensures Follows(Promises(flags), wire[|wire|..], flags)
  {
  }

  lemma LocalPendingSent(s: Fallback, infos: Option<seq<LocalPendingInfo>>)
    requires Balanced(s.ledger, s.sets) && s.ledger.stage.MembersTold? && IsReport(s, LocalPendingReply(infos))
    requires Means(s.channel.group.initial, Told(s.ledger))
    ensures Means(WithInfos(s.channel.group.initial, infos), Told(Reported(s.ledger, LocalPendingReply(infos), s.sets)))
  {
    ReportBalances(s, LocalPendingReply(infos));
  }

  lemma SelfHandleSent(s: Fallback, e: Event)
    requires Balanced(s.ledger, s.sets) && s.ledger.stage.MembersTold? && e.SelfHandleReply?
    requires Means(s.channel.group.initial, Told(s.ledger)) && Follows(s.channel.group.usingDetailed, s.wire, s.flags)
    ensures var l := Reported(s.ledger, e, s.sets);
            && Told(l) == Told(s.ledger) && AsksSelf(s.channel, |s.wire|, s.wire, s.flags, l)
  {
    var i := s.channel.group.initial;
    InitialDeltasDescribe(i, Told(s.ledger));
    assert s.wire[..|s.wire|] == s.wire && s.wire[|s.wire|..] == [];
    assert InitialDeltas(i) + [] == InitialDeltas(i);
  }

  // ---------------------------------------------------------------- replies taken

  lemma HealthyReply(c: Channel, e: Event)
    requires Healthy(c) && Enabled(c, e) && CallOf(e).Some?
    requires Step(c, e).group.history.accepted == c.group.history.accepted
    requires Step(c, e).group.parties.selfHandle != 0 && Step(c, e).listening
    ensures Healthy(Step(c, e))
  {
    hide Step, Inv, Replica, CompleteReplica, ListenerAgrees;
    HealthyStep(c, e);
  }

  lemma FlagsReplyIs(c: Channel, flags: Flags)
    requires Chain(c) && FallbackFlags in c.calls && c.interfaces.group
    requires c.group.usingDetailed <==> FLAG_MEMBERS_CHANGED_DETAILED in c.group.flags
    ensures c.introspectQueue != []
    ensures GotGroupFlags(c, Some(flags))
         == c.(calls := [FallbackMembers], introspectQueue := c.introspectQueue[1..],
               group := c.group.(flags := flags - {FLAG_PROPERTIES}, usingDetailed := Promises(flags)))
  {
    SetFlagsAgrees(c.group, flags);
    hide ContinueIntrospection, SetFlags, Chain;
    NextCall(c, FallbackFlags, c.group.(flags := flags - {FLAG_PROPERTIES}, usingDetailed := Promises(flags)));
  }

  lemma FlagsTaken(s: Fallback)
    requires InStep(s) && CanMove(s, TakeReply) && s.reply.value.event.FlagsReply?
    ensures InStep(Next(s, TakeReply))
  {
    FallbackChannel(s);
    FlagsReplyIs(s.channel, s.reply.value.event.flags.value);
    hide InStep, Asks, Healthy, Chain, Inv, GotGroupFlags;
    FlagsAsk(s.channel, s.reply.value, s.wire, s.flags, s.ledger, Step(s.channel, s.reply.value.event));
    TakenKeeps(s);
  }

  lemma FlagsAsk(c: Channel, reply: Reply, wire: seq<Message>, flags: Flags, l: Ledger, n: Channel)
    requires Asks(c, Some(reply), wire, flags, l) && reply.event.FlagsReply? && reply.ahead == 0
    requires n.calls == [FallbackMembers] && n.group.initial == c.group.initial
    requires reply.event.flags.Some? && n.group.usingDetailed == Promises(reply.event.flags.value)
    ensures Asks(n, None, wire, flags, l)
  {
    assert wire[0..] == wire;
    hide Follows, LeadsTo, Told, View, Means;
  }

  /** A reply is taken well if the channel then asks for what comes next. */
  lemma TakenKeeps(s: Fallback)
    requires InStep(s) && CanMove(s, TakeReply) && !s.channel.group.haveMembers && CallOf(s.reply.value.event).Some?
    requires var n := Step(s.channel, s.reply.value.event);
             && !n.group.haveMembers && n.group.history.accepted == s.channel.group.history.accepted
             && n.group.parties.selfHandle != 0 && n.listening
             && Asks(n, None, s.wire, s.flags, s.ledger)
    ensures InStep(Next(s, TakeReply))
  {
    hide Step, Healthy, Asks, Balanced, Synchronised;
    HealthyReply(s.channel, s.reply.value.event);
  }

  lemma FallbackChannel(s: Fallback)
    requires InStep(s) && CanMove(s, TakeReply)
    ensures var c, e := s.channel, s.reply.value.event;
            && !c.group.haveMembers && Inv(c) && Chain(c) && c.interfaces.group && c.listening
            && (c.group.usingDetailed <==> FLAG_MEMBERS_CHANGED_DETAILED in c.group.flags)
            && CallOf(e) == Some(c.calls[0]) && c.calls == [c.calls[0]] && c.group.parties.selfHandle != 0
            && Asks(c, s.reply, s.wire, s.flags, s.ledger)
            && (e.FlagsReply? ==> e.flags.Some?)
            && (e.MembersReply? ==> e.all.Some? && c.group.initial.localPending == [])
  {
    HealthyBasics(s.channel);
    hide Follows, AsksSelf, Means, Healthy, AllMeans, Told, WithInfos, GroupInv, Readiness, Lookups, Alive;
  }

  lemma MembersReplyIs(c: Channel, all: AllMembers)
    requires Chain(c) && FallbackMembers in c.calls && c.group.initial.localPending == []
    ensures c.introspectQueue != []
    ensures GotAllMembers(c, Some(all))
         == c.(calls := [FallbackLocalPending], introspectQueue := c.introspectQueue[1..],
               group := c.group.(initial := Initial(all.members, BareInfos(all.localPending), all.remotePending)))
  {
    hide ContinueIntrospection, Chain, BareInfos;
    BareInfosMean(all.localPending);
    NextCall(c, FallbackMembers, c.group.(initial := Initial(all.members, BareInfos(all.localPending),
                                                             all.remotePending)));
  }

  lemma MembersTaken(s: Fallback)
    requires InStep(s) && CanMove(s, TakeReply) && s.reply.value.event.MembersReply?
    ensures InStep(Next(s, TakeReply))
  {
    FallbackChannel(s);
    MembersReplyIs(s.channel, s.reply.value.event.all.value);
    hide InStep, Asks, Healthy, Chain, Inv, GotAllMembers;
    MembersAsk(s.channel, s.reply.value, s.wire, s.flags, s.ledger, Step(s.channel, s.reply.value.event));
    TakenKeeps(s);
  }

  lemma MembersAsk(c: Channel, reply: Reply, wire: seq<Message>, flags: Flags, l: Ledger, n: Channel)
    requires Asks(c, Some(reply), wire, flags, l) && reply.event.MembersReply? && reply.event.all.Some?
    requires var all := reply.event.all.value;
             n.group.initial == Initial(all.members, BareInfos(all.localPending), all.remotePending)
    requires n.calls == [FallbackLocalPending] && n.group.usingDetailed == c.group.usingDetailed
    ensures Asks(n, None, wire, flags, l)
  {
    ToldAtFirst(l);
    BareInfosMean(reply.event.all.value.localPending);
    hide Follows, LeadsTo, Told, View, InfoHandles, BareInfos;
  }

  lemma BareInfosMean(hs: seq<Handle>)
    ensures InfoHandles(BareInfos(hs)) == hs
    ensures var none: seq<LocalPendingInfo> := []; none + BareInfos(hs) == BareInfos(hs)
  {
  }

  lemma ToldAtFirst(l: Ledger)
    requires l.early == 0
    ensures Told(l) == l.reported
  {
    assert l.unheard[..0] == [];
  }

  lemma LocalPendingReplyIs(c: Channel, infos: Option<seq<LocalPendingInfo>>)
    requires Chain(c) && FallbackLocalPending in c.calls
    ensures c.introspectQueue != []
    ensures GotLocalPending(c, infos)
         == c.(calls := [FallbackSelfHandle], introspectQueue := c.introspectQueue[1..],
               group := c.group.(initial := WithInfos(c.group.initial, infos)))
  {
    hide ContinueIntrospection, Chain;
    NextCall(c, FallbackLocalPending, c.group.(initial := WithInfos(c.group.initial, infos)));
  }

  lemma LocalPendingTaken(s: Fallback)
    requires InStep(s) && CanMove(s, TakeReply) && s.reply.value.event.LocalPendingReply?
    ensures InStep(Next(s, TakeReply))
  {
    FallbackChannel(s);
    LocalPendingReplyIs(s.channel, s.reply.value.event.infos);
    hide InStep, Asks, Healthy, Chain, Inv, GotLocalPending;
    LocalPendingAsks(s.channel, s.reply.value, s.wire, s.flags, s.ledger, Step(s.channel, s.reply.value.event));
    TakenKeeps(s);
  }

  lemma LocalPendingAsks(c: Channel, reply: Reply, wire: seq<Message>, flags: Flags, l: Ledger, n: Channel)
    requires Asks(c, Some(reply), wire, flags, l) && reply.event.LocalPendingReply?
    requires n.group.initial == WithInfos(c.group.initial, reply.event.infos)
    requires n.calls == [FallbackSelfHandle] && n.group.usingDetailed == c.group.usingDetailed
    ensures Asks(n, None, wire, flags, l)
  {
    hide Follows, LeadsTo, Told, View, Means, WithInfos;
  }

  /** The last reply: exactly the deltas made up from the replies are accepted. */
  lemma SelfHandleIs(c: Channel, handle: Option<Handle>)
    requires Inv(c) && c.listening && FallbackSelfHandle in c.calls && c.group.parties.selfHandle != 0
    ensures var n := GotSelfHandle(c, handle);
            && n.group.haveMembers && n.listening && n.group.parties.selfHandle != 0
            && n.group.usingDetailed == c.group.usingDetailed
            && n.group.history.accepted == InitialDeltas(c.group.initial)
  {
    NothingAccepted(c);
    var h := WithMembers(c, handle);
    assert h.group.history.accepted == [] + InitialDeltas(c.group.initial) == InitialDeltas(c.group.initial);
    assert h.group.parties.selfHandle != 0 && h.listening && h.group.haveMembers;
    SelfHandleLeads(c, handle);
    hide ProcessMembersChanged, ContinueIntrospection, Inv, InitialDeltas, GotSelfHandle, WithMembers;
    ProcessKeepsFacts(h);
    ContinueKeepsFacts(ProcessMembersChanged(h));
  }

  /** The channel with its members, before their deltas are looked at. */
  function WithMembers(c: Channel, handle: Option<Handle>): Channel
    requires c.calls != []
  {
    var parties := if handle.Some? then WithSelf(c.group.parties, handle.value) else c.group.parties;
    Answered(c, FallbackSelfHandle).(group := HaveInitialMembers(c.group.(parties := parties)))
  }

  lemma SelfHandleLeads(c: Channel, handle: Option<Handle>)
    requires c.calls != []
    ensures GotSelfHandle(c, handle) == ContinueIntrospection(ProcessMembersChanged(WithMembers(c, handle)))
  {
    hide ProcessMembersChanged, ContinueIntrospection, InitialDeltas;
  }

  lemma NothingAccepted(c: Channel)
    requires Inv(c) && FallbackSelfHandle in c.calls
    ensures c.calls != [] && c.group.history.accepted == []
  {
    AnsweredCall(c, FallbackSelfHandle);
    assert Pipeline(c)[0] == FallbackSelfHandle;
    assert Untouched(c.group);
  }

  lemma SelfHandleTaken(s: Fallback)
    requires InStep(s) && CanMove(s, TakeReply) && s.reply.value.event.SelfHandleReply?
    ensures InStep(Next(s, TakeReply))
  {
    LastReply(s);
    hide Step, Healthy, Balanced, View, LeadsTo;
    SelfHandleHealthy(s.channel, s.reply.value.event);
  }

  /** What is known when the last reply arrives. */
  lemma LastReply(s: Fallback)
    requires InStep(s) && CanMove(s, TakeReply) && s.reply.value.event.SelfHandleReply?
    ensures var c, ds := s.channel, InitialDeltas(s.channel.group.initial);
            && Healthy(c) && FallbackSelfHandle in c.calls && AllWellFormed(NOBODY, ds)
            && LeadsTo(ds, c.group.usingDetailed, s.wire, View(s.ledger), s.flags) && Disjoint(View(s.ledger))
            && s.ledger.stage.AllTold?
  {
    var c := s.channel;
    FallbackChannel(s);
    hide Healthy, Balanced, View, Told, Inv, InitialDeltas;
    assert s.wire[0..] == s.wire && s.wire[..0] == [];
    assert LeadsTo(InitialDeltas(c.group.initial), c.group.usingDetailed, s.wire, View(s.ledger), s.flags);
    ApplyAllConcat(NOBODY, InitialDeltas(c.group.initial), Pending(c.group.usingDetailed, s.wire));
  }

  lemma SelfHandleHealthy(c: Channel, e: Event)
    requires Healthy(c) && Enabled(c, e) && e.SelfHandleReply?
    requires AllWellFormed(NOBODY, InitialDeltas(c.group.initial))
    ensures var n := Step(c, e);
            && Healthy(n) && n.group.haveMembers && n.group.usingDetailed == c.group.usingDetailed
            && n.group.history.accepted == InitialDeltas(c.group.initial)
  {
    HealthyBasics(c);
    SelfHandleIs(c, e.handle);
    assert Step(c, e) == GotSelfHandle(c, e.handle);
    hide Step, GotSelfHandle, Inv, Healthy, InitialDeltas, AllWellFormed;
    HealthyStep(c, e);
  }

  // ---------------------------------------------------------------- every move

  lemma MembersStay(s: System, a: Action)
    requires Synchronised(s) && Possible(s, a) && s.channel.group.haveMembers
    ensures Act(s, a).channel.group.haveMembers && Healthy(Act(s, a).channel)
  {
    ActSynchronises(s, a);
    HealthyBasics(s.channel);
    hide Inv, Received, Step, Healthy, Apply, Announcement;
    match a
    case Deliver(known) =>
      assert s.wire[0] in s.wire && Tame(s.wire);
      SignalFacts(s.channel, s.wire[0], known);
    case Other(e) => OtherEvent(s.channel, e);
    case _ =>
  }

  /** Once it has its members, the channel follows the deltas it hears. */
  lemma MembersFollow(s: Fallback, a: Action)
    requires InStep(s) && s.channel.group.haveMembers && CanMove(s, Common(a))
    ensures InStep(Next(s, Common(a)))
  {
    ActSynchronises(Shadow(s), a);
    MembersStay(Shadow(s), a);
    if a.Change? {
      AnnouncedBalances(s.ledger, s.sets, a.delta);
    }
    hide Synchronised, Balanced, Announcement, Received, Step, Healthy, Apply, View;
    assert Shadow(Next(s, Common(a))) == Act(Shadow(s), a);
  }

  lemma NextKeeps(s: Fallback, m: Move)
    requires InStep(s) && CanMove(s, m)
    ensures InStep(Next(s, m))
  {
    hide InStep, Next;
    match m
    case Send(e) => SendKeeps(s, e);
    case TakeReply => TakingKeeps(s);
    case Common(a) =>
      if s.channel.group.haveMembers {
        MembersFollow(s, a);
      } else {
        match a
        case Deliver(known) => DeliveryKeeps(s, known);
        case Other(e) => OtherKeeps(s, e);
        case _ => ServiceKeeps(s, a);
      }
  }

  lemma TakingKeeps(s: Fallback)
    requires InStep(s) && CanMove(s, TakeReply)
    ensures InStep(Next(s, TakeReply))
  {
    FallbackChannel(s);
    hide Next, Healthy, Inv, Follows;
    match s.reply.value.event
    case FlagsReply(_) => FlagsTaken(s);
    case MembersReply(_) => MembersTaken(s);
    case LocalPendingReply(_) => LocalPendingTaken(s);
    case SelfHandleReply(_) => SelfHandleTaken(s);
    case _ => assert false;
  }

  // ---------------------------------------------------------------- the results

  lemma {:induction false} FallbackKeeps(run: seq<Fallback>, moves: seq<Move>, i: nat)
    requires IsFallback(run, moves) && i <= |moves|
    ensures InStep(run[i])
  {
    hide InStep, Next, CanMove, Begins;
    if i == 0 {
      BeginsInStep(run[0]);
    } else {
      FallbackKeeps(run, moves, i - 1);
      NextKeeps(run[i - 1], moves[i - 1]);
    }
  }

  /** At rest the lists are what the replies and the deltas after them describe, while the service
      has what all its deltas since GetAllMembers make of what it reported then. */
  lemma FallbackEndsAt(run: seq<Fallback>, moves: seq<Move>, i: nat)
    requires IsFallback(run, moves) && i <= |moves| && Quiescent(Shadow(run[i]))
    ensures var s, l := run[i], run[i].ledger;
            && KeySets(s.channel.group.maps) == ApplyAll(Told(l), l.heard)
            && s.sets == ApplyAll(ApplyAll(l.reported, l.unheard), l.heard)
  {
    FallbackKeeps(run, moves, i);
    hide Synchronised, Healthy, Asks;
    QuiescentAgrees(Shadow(run[i]));
  }

  /** At rest the lists are the service's exactly if, for every handle, the replies put it where the
      unheard deltas did, or a delta heard later names it. */
  lemma FallbackAgreesIff(run: seq<Fallback>, moves: seq<Move>, i: nat)
    requires IsFallback(run, moves) && i <= |moves| && Quiescent(Shadow(run[i]))
    ensures var s, l := run[i], run[i].ledger;
            KeySets(s.channel.group.maps) == s.sets
            <==> forall h :: SamePlace(Told(l), ApplyAll(l.reported, l.unheard), h) || IsNamed(l.heard, h)
  {
    FallbackEndsAt(run, moves, i);
    var l := run[i].ledger;
    hide *;
    EqualAfterIff(Told(l), ApplyAll(l.reported, l.unheard), l.heard);
  }

  /** With nothing heard later, and no delta before the local pending members were reported, the
      lists are the service's exactly if the unheard deltas compose to nothing. */
  lemma UnheardMustCancel(run: seq<Fallback>, moves: seq<Move>, i: nat)
    requires IsFallback(run, moves) && i <= |moves| && Quiescent(Shadow(run[i]))
    requires run[i].ledger.heard == [] && run[i].ledger.early == 0
    ensures var s, l := run[i], run[i].ledger;
            KeySets(s.channel.group.maps) == s.sets <==> ApplyAll(l.reported, l.unheard) == l.reported
  {
    FallbackEndsAt(run, moves, i);
    ToldAtFirst(run[i].ledger);
  }

  /** A delta that arrives before the reply to GetSelfHandle leaves no trace. */
  lemma FallbackIgnoresDeltas(c: Channel, d: Delta, actorKnown: bool)
    requires Inv(c) && FallbackSelfHandle in c.calls
    ensures OnMembersChanged(c, d, actorKnown) == c && OnMembersChangedDetailed(c, d, actorKnown) == c
  {
    AnsweredCall(c, FallbackSelfHandle);
  }
}
