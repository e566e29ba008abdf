/**
 The conference side of a channel: channels merged into it, and the queue of channels that left and
 whose departure is signalled once its actor's contact is known.
 */
module ConferenceRemoval {
  import opened Handles

  type Path = string

  /** A channel object, as handed out by the channel factory for a path. */
  datatype Proxy = Proxy(id: nat)

  /** A ChannelRemoved signal: the path, and the actor if its details name one. */
  datatype Departure = Departure(path: Path, actor: Option<Handle>)

  /** The conferenceChannelRemoved signal. */
  datatype Gone = Gone(path: Path, channel: Proxy, actor: Option<Contact>)

  /** What became of a departure: signalled, or skipped because its channel was gone already. */
  datatype Outcome = Outcome(departure: Departure, signal: Option<Gone>)

  datatype Conference = Conference(
    channels: map<Path, Proxy>,
    originals: map<Handle, Proxy>,
    queue: seq<Departure>,
    building: bool,
    lookups: seq<Handle>,        // actor lookups awaiting their reply
    joined: seq<Path>,           // every insertion into channels, in order
    announced: seq<Departure>,   // every departure ever queued
    meant: seq<Proxy>,           // for each of them, the channel of that path when it was queued
    done: seq<Outcome>)          // every departure ever dequeued

  const NO_CONFERENCE := Conference(map[], map[], [], false, [], [], [], [], [])

  // ---------------------------------------------------------------- joining

  function Join(c: Conference, path: Path, channel: Proxy): Conference {
    if path in c.channels then c
    else c.(channels := c.channels[path := channel], joined := c.joined + [path])
  }

  function JoinEach(c: Conference, found: seq<(Path, Proxy)>): Conference
    decreases |found|
  {
    if found == [] then c else
      var rest, last := found[..|found| - 1], found[|found| - 1];
      Join(JoinEach(c, rest), last.0, last.1)
  }

  function WithOriginals(m: map<Handle, Proxy>, found: seq<(Handle, Proxy)>): map<Handle, Proxy>
    decreases |found|
  {
    if found == [] then m else
      var rest, last := found[..|found| - 1], found[|found| - 1];
      WithOriginals(m, rest)[last.0 := last.1]
  }

  /** The reply to GetAll on the conference interface. */
  function GotProperties(c: Conference, found: seq<(Path, Proxy)>, originals: seq<(Handle, Proxy)>): Conference {
    var c1 := JoinEach(c, found);
    c1.(originals := WithOriginals(c1.originals, originals))
  }

  function OnMerged(c: Conference, path: Path, handle: Handle, channel: Proxy): Conference {
    if path in c.channels then c
    else
      var c1 := Join(c, path, channel);
      if handle != 0 then c1.(originals := c1.originals[handle := channel]) else c1
  }

  // ---------------------------------------------------------------- leaving

  function Without(m: map<Handle, Proxy>, channel: Proxy): (r: map<Handle, Proxy>)
    ensures r.Keys <= m.Keys
    ensures forall h :: h in m ==> (h in r <==> m[h] != channel)
    ensures forall h :: h in r ==> r[h] == m[h]
  {
    m - set h | h in m && m[h] == channel
  }

  /** Take out the channel at the head of the queue and signal its departure. */
  function Depart(c: Conference, actor: Option<Contact>): Conference
    requires c.queue != [] && c.queue[0].path in c.channels
  {
    var d := c.queue[0];
    var channel := c.channels[d.path];
    c.(queue := c.queue[1..],
       channels := c.channels - {d.path},
       originals := Without(c.originals, channel),
       done := c.done + [Outcome(d, Some(Gone(d.path, channel, actor)))],
       building := false)
  }

  function Skip(c: Conference): Conference
    requires c.queue != []
  {
    c.(queue := c.queue[1..], done := c.done + [Outcome(c.queue[0], None)])
  }

  function Process(c: Conference): Conference
    decreases |c.queue|
  {
    if c.building || c.queue == [] then c
    else if c.queue[0].path !in c.channels then Process(Skip(c))
    else if c.queue[0].actor.Some? then c.(building := true, lookups := c.lookups + [c.queue[0].actor.value])
    else Process(Depart(c, None))
  }

  function Announce(c: Conference, d: Departure): Conference
    requires d.path in c.channels
  {
    c.(queue := c.queue + [d], announced := c.announced + [d], meant := c.meant + [c.channels[d.path]])
  }

  function OnRemoved(c: Conference, d: Departure): Conference {
    if d.path !in c.channels then c
    else Process(Announce(c, d))
  }

  function GotActor(c: Conference, actor: Option<Contact>): Conference
    requires c.lookups != [] && c.queue != [] && c.queue[0].path in c.channels
  {
    Process(Depart(c.(lookups := c.lookups[1..]), actor))
  }

  // ---------------------------------------------------------------- runs

  datatype Event =
    | Properties(found: seq<(Path, Proxy)>, originals: seq<(Handle, Proxy)>)
    | Merged(path: Path, handle: Handle, channel: Proxy)
    | Removed(departure: Departure)
    | ActorReply(contact: Option<Contact>)

  predicate Enabled(c: Conference, e: Event) {
    e.ActorReply? ==> c.lookups != []
  }

  /** Taking a departure out of an empty queue, or a channel that is not there, is undefined: then
      any state may follow. */
  predicate CanFollow(c: Conference, e: Event, n: Conference) {
    match e
    case Properties(found, originals) => n == GotProperties(c, found, originals)
    case Merged(path, handle, channel) => n == OnMerged(c, path, handle, channel)
    case Removed(d) => n == OnRemoved(c, d)
    case ActorReply(contact) =>
      c.lookups != [] && c.queue != [] && c.queue[0].path in c.channels ==> n == GotActor(c, contact)
  }

  ghost predicate IsRun(run: seq<Conference>, events: seq<Event>) {
    && |run| == |events| + 1
    && run[0] == NO_CONFERENCE
    && forall i :: 0 <= i < |events| ==> Enabled(run[i], events[i]) && CanFollow(run[i], events[i], run[i + 1])
  }

  // ---------------------------------------------------------------- what every event keeps

  function Departures(done: seq<Outcome>): (ds: seq<Departure>)
    ensures |ds| == |done|
  {
    seq(|done|, i requires 0 <= i < |done| => done[i].departure)
  }

  /** The paths whose departure was signalled, in order. */
  function Signalled(done: seq<Outcome>): seq<Path>
    decreases |done|
  {
    if done == [] then [] else
      Signalled(done[..|done| - 1])
      + (if done[|done| - 1].signal.Some? then [done[|done| - 1].signal.value.path] else [])
  }

  function Count(s: seq<Path>, path: Path): nat {
    multiset(s)[path]
  }

  predicate InFlight(c: Conference) {
    && c.building && c.queue != [] && c.queue[0].path in c.channels
    && c.queue[0].actor.Some? && c.lookups == [c.queue[0].actor.value]
  }

  predicate Resting(c: Conference) {
    !c.building && c.queue == [] && c.lookups == []
  }

  /** Departures are dealt with first in, first out. */
  predicate InOrder(c: Conference) {
    && c.announced == Departures(c.done) + c.queue
    && |c.meant| == |c.announced|
  }

  /** Every channel that joined is still there, or its departure was signalled, once. */
  ghost predicate Conserved(c: Conference) {
    forall p: Path :: Count(Signalled(c.done), p) + (if p in c.channels then 1 else 0) == Count(c.joined, p)
  }

  ghost predicate Ledger(c: Conference) {
    InOrder(c) && Conserved(c)
  }

  ghost predicate Inv(c: Conference) {
    (InFlight(c) || Resting(c)) && Ledger(c)
  }

  lemma JoinKeeps(c: Conference, path: Path, channel: Proxy)
    requires Ledger(c)
    ensures Ledger(Join(c, path, channel))
    ensures c.channels.Keys <= Join(c, path, channel).channels.Keys
  {
    hide Signalled, Departures;
    if path !in c.channels {
      assert multiset(c.joined + [path]) == multiset(c.joined) + multiset{path};
    }
  }

  lemma {:induction false} JoinEachKeeps(c: Conference, found: seq<(Path, Proxy)>)
    requires Ledger(c)
    ensures var n := JoinEach(c, found);
            && Ledger(n) && c.channels.Keys <= n.channels.Keys
            && n == c.(channels := n.channels, joined := n.joined)
    decreases |found|
  {
    hide Ledger;
    if found == [] {
    } else {
      var rest, last := found[..|found| - 1], found[|found| - 1];
      JoinEachKeeps(c, rest);
      JoinKeeps(JoinEach(c, rest), last.0, last.1);
    }
  }

  lemma SkipKeeps(c: Conference)
    requires Ledger(c) && c.queue != [] && c.queue[0].path !in c.channels
    ensures Ledger(Skip(c))
  {
    hide Departures, Signalled;
    DoneOneMore(c.done, Outcome(c.queue[0], None));
    HeadMoves(c, Outcome(c.queue[0], None));
    assert Signalled(c.done) + [] == Signalled(c.done);
  }

  lemma DepartKeeps(c: Conference, actor: Option<Contact>)
    requires Ledger(c) && c.queue != [] && c.queue[0].path in c.channels
    ensures Ledger(Depart(c, actor))
  {
    hide Departures, Signalled, Without;
    var path := c.queue[0].path;
    var o := Outcome(c.queue[0], Some(Gone(path, c.channels[path], actor)));
    DoneOneMore(c.done, o);
    HeadMoves(c, o);
    assert Conserved(Depart(c, actor)) by {
      assert multiset(Signalled(c.done) + [path]) == multiset(Signalled(c.done)) + multiset{path};
    }
  }

  lemma HeadMoves(c: Conference, o: Outcome)
    requires c.queue != [] && o.departure == c.queue[0]
    ensures Departures(c.done) + c.queue == Departures(c.done + [o]) + c.queue[1..]
  {
    DoneOneMore(c.done, o);
    assert [c.queue[0]] + c.queue[1..] == c.queue;
    assert Departures(c.done) + ([c.queue[0]] + c.queue[1..]) == (Departures(c.done) + [c.queue[0]]) + c.queue[1..];
  }

  lemma DoneOneMore(done: seq<Outcome>, o: Outcome)
    ensures Departures(done + [o]) == Departures(done) + [o.departure]
    ensures Signalled(done + [o]) == Signalled(done) + (if o.signal.Some? then [o.signal.value.path] else [])
  {
    assert (done + [o])[..|done|] == done;
  }

  /** Looking at the queue empties it or leaves one lookup in flight, for a channel that is there. */
  lemma {:induction false} ProcessSettles(c: Conference)
    requires !c.building && c.lookups == [] && Ledger(c)
    ensures Inv(Process(c))
    decreases |c.queue|
  {
    hide Ledger;
    if c.queue == [] {
    } else if c.queue[0].path !in c.channels {
      SkipKeeps(c);
      ProcessSettles(Skip(c));
    } else if c.queue[0].actor.None? {
      DepartKeeps(c, None);
      ProcessSettles(Depart(c, None));
    } else {
      LedgerIgnoresLookups(c, true, [c.queue[0].actor.value]);
    }
  }

  lemma LedgerIgnoresLookups(c: Conference, building: bool, lookups: seq<Handle>)
    requires Ledger(c)
    ensures Ledger(c.(building := building, lookups := lookups))
  {
  }

  lemma AnnouncementKeeps(c: Conference, d: Departure)
    requires Inv(c)
    ensures Inv(OnRemoved(c, d))
  {
    if d.path in c.channels {
      var q := Announce(c, d);
      assert Ledger(q) by {
        assert Departures(c.done) + c.queue + [d] == Departures(c.done) + (c.queue + [d]);
      }
      hide Ledger;
      if !c.building {
        ProcessSettles(q);
      }
    }
  }

  lemma ReplyKeeps(c: Conference, contact: Option<Contact>)
    requires InFlight(c) && Ledger(c)
    ensures Inv(GotActor(c, contact))
  {
    var a := c.(lookups := c.lookups[1..]);
    LedgerIgnoresLookups(c, c.building, c.lookups[1..]);
    hide Ledger;
    DepartKeeps(a, contact);
    ProcessSettles(Depart(a, contact));
  }

  lemma MergedKeeps(c: Conference, path: Path, handle: Handle, channel: Proxy)
    requires Inv(c)
    ensures Inv(OnMerged(c, path, handle, channel))
  {
    JoinKeeps(c, path, channel);
    LedgerIgnoresOriginals(Join(c, path, channel), Join(c, path, channel).originals[handle := channel]);
    hide Ledger;
  }

  lemma LedgerIgnoresOriginals(c: Conference, originals: map<Handle, Proxy>)
    requires Ledger(c)
    ensures Ledger(c.(originals := originals))
  {
  }

  lemma PropertiesKeep(c: Conference, found: seq<(Path, Proxy)>, originals: seq<(Handle, Proxy)>)
    requires Inv(c)
    ensures Inv(GotProperties(c, found, originals))
  {
    JoinEachKeeps(c, found);
    var n := JoinEach(c, found);
    LedgerIgnoresOriginals(n, WithOriginals(n.originals, originals));
    hide Ledger;
  }

  lemma StepKeeps(c: Conference, e: Event, n: Conference)
    requires Inv(c) && Enabled(c, e) && CanFollow(c, e, n)
    ensures Inv(n)
  {
    hide Ledger, Process, Depart, Join, JoinEach;
    match e
    case Properties(found, originals) =>
      PropertiesKeep(c, found, originals);
    case Merged(path, handle, channel) =>
      MergedKeeps(c, path, handle, channel);
    case Removed(d) =>
      AnnouncementKeeps(c, d);
    case ActorReply(contact) =>
      ReplyKeeps(c, contact);
  }

  /** Every state of every run: at most one actor lookup is in flight and its channel is there;
      departures are handled in order; every channel that joined is there or was signalled once. */
  lemma {:induction false} RunKeeps(run: seq<Conference>, events: seq<Event>, i: nat)
    requires IsRun(run, events) && i < |run|
    ensures Inv(run[i])
  {
    if i == 0 {
    } else {
      RunKeeps(run, events, i - 1);
      StepKeeps(run[i - 1], events[i - 1], run[i]);
    }
  }

  lemma SignalledAtMostOnce(run: seq<Conference>, events: seq<Event>, i: nat, path: Path)
    requires IsRun(run, events) && i < |run|
    requires Count(run[i].joined, path) <= 1
    ensures Count(Signalled(run[i].done), path) <= 1
    ensures path in run[i].joined && path !in run[i].channels ==> Count(Signalled(run[i].done), path) == 1
  {
    RunKeeps(run, events, i);
    assert path in run[i].joined ==> multiset(run[i].joined)[path] > 0;
  }

  // ---------------------------------------------------------------- original channels

  /** Original channels are channels of the conference. */
  predicate OriginalsPresent(c: Conference) {
    forall h :: h in c.originals ==> c.originals[h] in c.channels.Values
  }

  lemma DepartKeepsOriginals(c: Conference, actor: Option<Contact>)
    requires c.queue != [] && c.queue[0].path in c.channels
    ensures c.channels[c.queue[0].path] !in Depart(c, actor).originals.Values
    ensures OriginalsPresent(c) ==> OriginalsPresent(Depart(c, actor))
  {
    var n := Depart(c, actor);
    if OriginalsPresent(c) {
      forall h | h in n.originals ensures n.originals[h] in n.channels.Values {
        var p :| p in c.channels && c.channels[p] == c.originals[h];
        assert p in n.channels && n.channels[p] == n.originals[h];
      }
    }
  }

  lemma {:induction false} ProcessKeepsOriginals(c: Conference)
    requires OriginalsPresent(c)
    ensures OriginalsPresent(Process(c))
    decreases |c.queue|
  {
    if c.building || c.queue == [] {
    } else if c.queue[0].path !in c.channels {
      ProcessKeepsOriginals(Skip(c));
    } else if c.queue[0].actor.None? {
      DepartKeepsOriginals(c, None);
      ProcessKeepsOriginals(Depart(c, None));
    }
  }

  /** Only the reply to GetAll can bring in an original channel that is not there; otherwise no
      entry for a removed channel survives. */
  lemma StepKeepsOriginals(c: Conference, e: Event, n: Conference)
    requires Inv(c) && Enabled(c, e) && CanFollow(c, e, n) && OriginalsPresent(c)
    requires e.Properties? ==> forall k :: 0 <= k < |e.originals| ==> e.originals[k].1 in n.channels.Values
    ensures OriginalsPresent(n)
  {
    hide Ledger, Process, Join;
    match e
    case Properties(found, originals) =>
      JoinEachKeeps(c, found);
      JoinEachKeepsChannels(c, found);
      AllPresent(JoinEach(c, found).originals, originals, n.channels.Values);
    case Merged(path, handle, channel) =>
      if path !in c.channels {
        ValuesGrow(c.channels, path, channel);
        JoinIs(c, path, channel);
        assert n.channels[path] == channel;
      }
    case Removed(d) =>
      if d.path in c.channels {
        ProcessKeepsOriginals(Announce(c, d));
      }
    case ActorReply(contact) =>
      var a := c.(lookups := c.lookups[1..]);
      DepartKeepsOriginals(a, contact);
      ProcessKeepsOriginals(Depart(a, contact));
  }

  lemma JoinIs(c: Conference, path: Path, channel: Proxy)
    requires path !in c.channels
    ensures Join(c, path, channel) == c.(channels := c.channels[path := channel], joined := c.joined + [path])
  {
  }

  lemma ValuesGrow(m: map<Path, Proxy>, path: Path, channel: Proxy)
    requires path !in m
    ensures m.Values <= m[path := channel].Values
  {
    forall v | v in m.Values ensures v in m[path := channel].Values {
      var p :| p in m && m[p] == v;
      assert p in m[path := channel] && m[path := channel][p] == v;
    }
  }

  lemma {:induction false} JoinEachKeepsChannels(c: Conference, found: seq<(Path, Proxy)>)
    ensures c.channels.Values <= JoinEach(c, found).channels.Values
    decreases |found|
  {
    if found == [] {
    } else {
      var rest, last := found[..|found| - 1], found[|found| - 1];
      JoinEachKeepsChannels(c, rest);
      if last.0 !in JoinEach(c, rest).channels {
        ValuesGrow(JoinEach(c, rest).channels, last.0, last.1);
      }
    }
  }

  lemma {:induction false} AllPresent(m: map<Handle, Proxy>, found: seq<(Handle, Proxy)>, present: set<Proxy>)
    requires forall h :: h in m ==> m[h] in present
    requires forall k :: 0 <= k < |found| ==> found[k].1 in present
    ensures forall h :: h in WithOriginals(m, found) ==> WithOriginals(m, found)[h] in present
    decreases |found|
  {
    if found == [] {
    } else {
      AllPresent(m, found[..|found| - 1], present);
    }
  }

  lemma {:induction false} RunKeepsOriginals(run: seq<Conference>, events: seq<Event>, i: nat)
    requires IsRun(run, events) && i < |run|
    requires forall j, k :: 0 <= j < |events| && events[j].Properties? && 0 <= k < |events[j].originals| ==>
               events[j].originals[k].1 in run[j + 1].channels.Values
    ensures OriginalsPresent(run[i])
  {
    if i == 0 {
    } else {
      RunKeepsOriginals(run, events, i - 1);
      RunKeeps(run, events, i - 1);
      StepKeepsOriginals(run[i - 1], events[i - 1], run[i]);
    }
  }

  // ---------------------------------------------------------------- channels that come back

  /** If the channel of a waiting departure is there, it is the one the departure was announced for. */
  predicate Fresh(c: Conference)
    requires InOrder(c)
  {
    forall k :: 0 <= k < |c.queue| && c.queue[k].path in c.channels ==>
                  c.channels[c.queue[k].path] == c.meant[|c.done| + k]
  }

  /** Every departure signalled so far took out the channel it was announced for. */
  predicate TookTheirOwn(c: Conference)
    requires InOrder(c)
  {
    forall k :: 0 <= k < |c.done| && c.done[k].signal.Some? ==> c.done[k].signal.value.channel == c.meant[k]
  }

  /** A channel that joins is the one its waiting departures were announced for, if there are any. */
  predicate IsExpected(c: Conference, path: Path, channel: Proxy)
    requires InOrder(c)
  {
    path in c.channels
    || forall k :: 0 <= k < |c.queue| && c.queue[k].path == path ==> c.meant[|c.done| + k] == channel
  }

  predicate JoinsExpected(c: Conference, e: Event)
    requires InOrder(c)
  {
    && (e.Merged? ==> IsExpected(c, e.path, e.channel))
    && (e.Properties? ==> forall k :: 0 <= k < |e.found| ==> IsExpected(c, e.found[k].0, e.found[k].1))
  }

  /** Duplicates and all, departures stay fresh exactly if the channel that joins is not already
      awaited by a departure of another channel of that path. */
  lemma JoinStaysFreshIff(c: Conference, path: Path, handle: Handle, channel: Proxy)
    requires InOrder(c) && Fresh(c)
    ensures var n := OnMerged(c, path, handle, channel);
            InOrder(n) && (Fresh(n) <==> IsExpected(c, path, channel))
  {
    hide Departures;
    var n := OnMerged(c, path, handle, channel);
    if path !in c.channels {
      if k :| 0 <= k < |c.queue| && c.queue[k].path == path && c.meant[|c.done| + k] != channel {
        assert n.queue[k].path in n.channels && n.channels[n.queue[k].path] != n.meant[|n.done| + k];
      }
    }
  }

  lemma SkipStaysFresh(c: Conference)
    requires Ledger(c) && Fresh(c) && TookTheirOwn(c) && c.queue != [] && c.queue[0].path !in c.channels
    ensures Ledger(Skip(c)) && Fresh(Skip(c)) && TookTheirOwn(Skip(c))
  {
    SkipKeeps(c);
    hide Departures, Conserved;
    var n := Skip(c);
    forall k | 0 <= k < |n.queue| && n.queue[k].path in n.channels
      ensures n.channels[n.queue[k].path] == n.meant[|n.done| + k]
    {
      assert n.queue[k] == c.queue[k + 1];
    }
  }

  /** A fresh departure takes out its own channel. */
  lemma DepartStaysFresh(c: Conference, actor: Option<Contact>)
    requires Ledger(c) && Fresh(c) && TookTheirOwn(c) && c.queue != [] && c.queue[0].path in c.channels
    ensures var n := Depart(c, actor); Ledger(n) && Fresh(n) && TookTheirOwn(n)
  {
    DepartKeeps(c, actor);
    hide Departures, Conserved, Without;
    var n := Depart(c, actor);
    forall k | 0 <= k < |n.queue| && n.queue[k].path in n.channels
      ensures n.channels[n.queue[k].path] == n.meant[|n.done| + k]
    {
      assert n.queue[k] == c.queue[k + 1];
    }
    forall k | 0 <= k < |n.done| && n.done[k].signal.Some? ensures n.done[k].signal.value.channel == n.meant[k] {
      if k == |c.done| {
        assert c.channels[c.queue[0].path] == c.meant[|c.done| + 0];
      }
    }
  }

  lemma {:induction false} ProcessStaysFresh(c: Conference)
    requires Ledger(c) && Fresh(c) && TookTheirOwn(c)
    ensures InOrder(Process(c)) && Fresh(Process(c)) && TookTheirOwn(Process(c))
    decreases |c.queue|
  {
    hide Ledger, Fresh, TookTheirOwn, Skip, Depart;
    if c.building || c.queue == [] {
    } else if c.queue[0].path !in c.channels {
      SkipStaysFresh(c);
      SkipShortens(c);
      ProcessStaysFresh(Skip(c));
    } else if c.queue[0].actor.None? {
      DepartStaysFresh(c, None);
      SkipShortens(c);
      ProcessStaysFresh(Depart(c, None));
    } else {
      LookupsStayFresh(c, true, c.lookups + [c.queue[0].actor.value]);
    }
    LedgerIsInOrder(c);
  }

  lemma LedgerIsInOrder(c: Conference)
    ensures Ledger(c) ==> InOrder(c)
  {
  }

  lemma SkipShortens(c: Conference)
    requires c.queue != []
    ensures |Skip(c).queue| < |c.queue|
    ensures c.queue[0].path in c.channels ==> |Depart(c, None).queue| < |c.queue|
  {
  }

  /** The lookups in flight play no part in this. */
  lemma LookupsStayFresh(c: Conference, building: bool, lookups: seq<Handle>)
    requires Ledger(c) && Fresh(c) && TookTheirOwn(c)
    ensures var n := c.(building := building, lookups := lookups); Ledger(n) && Fresh(n) && TookTheirOwn(n)
  {
    hide Departures;
  }

  lemma JoinStaysFresh(c: Conference, path: Path, channel: Proxy)
    requires Ledger(c) && Fresh(c) && TookTheirOwn(c) && IsExpected(c, path, channel)
    ensures var n := Join(c, path, channel); Ledger(n) && Fresh(n) && TookTheirOwn(n)
    ensures forall p, x :: IsExpected(c, p, x) ==> IsExpected(Join(c, path, channel), p, x)
  {
    JoinKeeps(c, path, channel);
    JoinStaysFreshIff(c, path, 0, channel);
    assert OnMerged(c, path, 0, channel) == Join(c, path, channel);
    hide Departures, Conserved;
  }

  lemma {:induction false} JoinEachStaysFresh(c: Conference, found: seq<(Path, Proxy)>)
    requires Ledger(c) && Fresh(c) && TookTheirOwn(c)
    requires forall k :: 0 <= k < |found| ==> IsExpected(c, found[k].0, found[k].1)
    ensures var n := JoinEach(c, found); Ledger(n) && Fresh(n) && TookTheirOwn(n)
    ensures forall p, x :: IsExpected(c, p, x) ==> IsExpected(JoinEach(c, found), p, x)
    decreases |found|
  {
    hide Ledger, Fresh, TookTheirOwn, IsExpected, Join;
    LedgerIsInOrder(c);
    if found == [] {
    } else {
      var rest, last := found[..|found| - 1], found[|found| - 1];
      JoinEachStaysFresh(c, rest);
      LedgerIsInOrder(JoinEach(c, rest));
      JoinStaysFresh(JoinEach(c, rest), last.0, last.1);
      LedgerIsInOrder(Join(JoinEach(c, rest), last.0, last.1));
    }
  }

  lemma AnnouncementIsFresh(c: Conference, d: Departure)
    requires Ledger(c) && Fresh(c) && TookTheirOwn(c) && d.path in c.channels
    ensures var n := Announce(c, d); Ledger(n) && Fresh(n) && TookTheirOwn(n)
  {
    assert Departures(c.done) + c.queue + [d] == Departures(c.done) + (c.queue + [d]);
    hide Departures;
  }

  lemma OriginalsStayFresh(c: Conference, originals: map<Handle, Proxy>)
    requires Ledger(c) && Fresh(c) && TookTheirOwn(c)
    ensures var n := c.(originals := originals); Ledger(n) && Fresh(n) && TookTheirOwn(n)
  {
    hide Departures;
  }

  lemma MergedIs(c: Conference, path: Path, handle: Handle, channel: Proxy)
    ensures var m := Join(c, path, channel);
            OnMerged(c, path, handle, channel)
            == if path in c.channels || handle == 0 then m else m.(originals := m.originals[handle := channel])
  {
  }

  lemma StepStaysFresh(c: Conference, e: Event, n: Conference)
    requires Inv(c) && Fresh(c) && TookTheirOwn(c) && Enabled(c, e) && CanFollow(c, e, n) && JoinsExpected(c, e)
    ensures InOrder(n) && Fresh(n) && TookTheirOwn(n)
  {
    hide Ledger, Fresh, TookTheirOwn, Process, JoinEach, Join, IsExpected, Announce, Depart, OnMerged;
    LedgerIsInOrder(c);
    LedgerIsInOrder(n);
    match e
    case Properties(found, originals) =>
      JoinEachStaysFresh(c, found);
      var m := JoinEach(c, found);
      OriginalsStayFresh(m, WithOriginals(m.originals, originals));
    case Merged(path, handle, channel) =>
      JoinStaysFresh(c, path, channel);
      var m := Join(c, path, channel);
      OriginalsStayFresh(m, m.originals[handle := channel]);
      MergedIs(c, path, handle, channel);
    case Removed(d) =>
      if d.path in c.channels {
        AnnouncementIsFresh(c, d);
        ProcessStaysFresh(Announce(c, d));
      }
    case ActorReply(contact) =>
      LookupsStayFresh(c, c.building, c.lookups[1..]);
      DepartStaysFresh(c.(lookups := c.lookups[1..]), contact);
      ProcessStaysFresh(Depart(c.(lookups := c.lookups[1..]), contact));
  }

  /** What joins is always the channel its waiting departures were announced for. */
  ghost predicate NothingUnexpected(run: seq<Conference>, events: seq<Event>)
    requires IsRun(run, events)
  {
    forall j :: 0 <= j < |events| && InOrder(run[j]) ==> JoinsExpected(run[j], events[j])
  }

  lemma {:induction false} RunStaysFresh(run: seq<Conference>, events: seq<Event>, i: nat)
    requires IsRun(run, events) && NothingUnexpected(run, events) && i < |run|
    ensures InOrder(run[i]) && Fresh(run[i]) && TookTheirOwn(run[i])
  {
    if i == 0 {
    } else {
      RunStaysFresh(run, events, i - 1);
      RunKeeps(run, events, i - 1);
      hide Inv, Fresh, TookTheirOwn, JoinsExpected, CanFollow, Enabled, InOrder;
      StepStaysFresh(run[i - 1], events[i - 1], run[i]);
    }
  }

  /** In such a run the k-th departure announced, if it is signalled at all, takes out the channel
      that its path stood for when it was announced. */
  lemma DeparturesTakeOutTheirOwn(run: seq<Conference>, events: seq<Event>, i: nat, k: nat)
    requires IsRun(run, events) && NothingUnexpected(run, events) && i < |run|
    requires k < |run[i].done| && run[i].done[k].signal.Some?
    ensures k < |run[i].announced| == |run[i].meant| && run[i].done[k].departure == run[i].announced[k]
    ensures run[i].done[k].signal.value.channel == run[i].meant[k]
  {
    RunStaysFresh(run, events, i);
    assert Departures(run[i].done)[k] == run[i].announced[k];
  }

  const WAITING := [Merged("a", 0, Proxy(1)), Merged("b", 0, Proxy(2)), Removed(Departure("a", Some(5))),
                    Removed(Departure("b", Some(5))), Removed(Departure("a", None)), ActorReply(None)]
  const REJOINING := WAITING + [Merged("a", 0, Proxy(3)), ActorReply(None)]

  /** A run that leaves a departure of "a" waiting behind one of "b", with "a" gone already. */
  lemma DepartureLeftWaiting() returns (run: seq<Conference>)
    ensures IsRun(run, WAITING) && |run| == 7
    ensures run[6].queue == [Departure("b", Some(5)), Departure("a", None)] && run[6].channels == map["b" := Proxy(2)]
    ensures |run[6].done| == 1 && |run[6].meant| == 3 && run[6].meant[2] == Proxy(1) && run[6].building
  {
    var c1 := OnMerged(NO_CONFERENCE, "a", 0, Proxy(1));
    var c2 := OnMerged(c1, "b", 0, Proxy(2));
    var c3 := OnRemoved(c2, Departure("a", Some(5)));
    var c4 := OnRemoved(c3, Departure("b", Some(5)));
    var c5 := OnRemoved(c4, Departure("a", None));
    var d := Depart(c5.(lookups := []), None);
    assert d.queue == [Departure("b", Some(5)), Departure("a", None)] && d.channels == map["b" := Proxy(2)];
    var c6 := GotActor(c5, None);
    assert c6 == Process(d);
    run := [NO_CONFERENCE, c1, c2, c3, c4, c5, c6];
    hide Process, OnMerged, OnRemoved, GotActor;
  }

  /** The same run going on: "a" joins again as another channel, and the old departure takes out
      that one. */
  lemma StaleDepartureTakesOutNewChannel() returns (run: seq<Conference>)
    ensures IsRun(run, REJOINING) && |run| == 9
    ensures run[7].channels == map["b" := Proxy(2), "a" := Proxy(3)] && run[8].channels == map[]
    ensures |run[8].done| == 3 && run[8].done[2].signal == Some(Gone("a", Proxy(3), None))
    ensures |run[8].meant| == 3 && run[8].meant[2] == Proxy(1)
  {
    run := DepartureLeftWaiting();
    RunKeeps(run, WAITING, 6);
    var c6 := run[6];
    var c7 := OnMerged(c6, "a", 0, Proxy(3));
    DepartsBoth(c7);
    var c8 := GotActor(c7, None);
    hide Process, OnMerged, OnRemoved, GotActor;
    assert forall i :: 0 <= i < 6 ==> REJOINING[i] == WAITING[i];
    run := run + [c7, c8];
  }

  lemma DepartsBoth(c: Conference)
    requires c.queue == [Departure("b", Some(5)), Departure("a", None)] && c.lookups != []
    requires c.channels == map["b" := Proxy(2), "a" := Proxy(3)] && |c.done| == 1
    ensures var n := GotActor(c, None);
            && n.channels == map[] && n.meant == c.meant
            && |n.done| == 3 && n.done[2].signal == Some(Gone("a", Proxy(3), None))
  {
    var d := Depart(c.(lookups := c.lookups[1..]), None);
    assert d.queue == [Departure("a", None)] && d.channels == map["a" := Proxy(3)];
    var n := Depart(d, None);
    assert n.queue == [] && n.channels == map[];
    assert Process(d) == Process(n) == n;
  }

  // ---------------------------------------------------------------- the object

  /** The conference fields of the channel's private object. */
  class ConferencePrivate {
    var conferenceChannels: map<Path, Proxy>
    var conferenceOriginalChannels: map<Handle, Proxy>
    var conferenceChannelRemovedQueue: seq<Departure>
    var buildingConferenceChannelRemovedActorContact: bool

    ghost var lookups: seq<Handle>
    ghost var joined: seq<Path>
    ghost var announced: seq<Departure>
    ghost var meant: seq<Proxy>
    ghost var done: seq<Outcome>

    ghost function State(): Conference
      reads this
    {
      Conference(conferenceChannels, conferenceOriginalChannels, conferenceChannelRemovedQueue,
                 buildingConferenceChannelRemovedActorContact, lookups, joined, announced, meant, done)
    }

    constructor ()
      ensures State() == NO_CONFERENCE
    {
      conferenceChannels, conferenceOriginalChannels, conferenceChannelRemovedQueue := map[], map[], [];
      buildingConferenceChannelRemovedActorContact := false;
      lookups, joined, announced, meant, done := [], [], [], [], [];
    }

    method GotConferenceProperties(channels: seq<(Path, Proxy)>, originals: seq<(Handle, Proxy)>)
      modifies this
      ensures State() == GotProperties(old(State()), channels, originals)
    {
      ghost var c := State();
      for i := 0 to |channels|
        invariant State() == JoinEach(c, channels[..i])
      {
        assert channels[..i + 1][..i] == channels[..i];
        if channels[i].0 !in conferenceChannels {
          conferenceChannels := conferenceChannels[channels[i].0 := channels[i].1];
          joined := joined + [channels[i].0];
        }
      }
      assert channels[..|channels|] == channels;

      ghost var c1 := State();
      for i := 0 to |originals|
        invariant State() == c1.(originals := WithOriginals(c1.originals, originals[..i]))
      {
        assert originals[..i + 1][..i] == originals[..i];
        conferenceOriginalChannels := conferenceOriginalChannels[originals[i].0 := originals[i].1];
      }
      assert originals[..|originals|] == originals;
    }

    method OnConferenceChannelMerged(path: Path, channelSpecificHandle: Handle, channel: Proxy)
      modifies this
      ensures State() == OnMerged(old(State()), path, channelSpecificHandle, channel)
    {
      if path in conferenceChannels {
        return;
      }
      conferenceChannels := conferenceChannels[path := channel];
      joined := joined + [path];
      if channelSpecificHandle != 0 {
        conferenceOriginalChannels := conferenceOriginalChannels[channelSpecificHandle := channel];
      }
    }

    method OnConferenceChannelRemoved(departure: Departure)
      modifies this
      ensures State() == OnRemoved(old(State()), departure)
    {
      hide Process;
      if departure.path !in conferenceChannels {
        return;
      }
      conferenceChannelRemovedQueue := conferenceChannelRemovedQueue + [departure];
      announced, meant := announced + [departure], meant + [conferenceChannels[departure.path]];
      ProcessConferenceChannelRemoved();
    }

    method ProcessConferenceChannelRemoved()
      modifies this
      ensures State() == Process(old(State()))
      decreases |conferenceChannelRemovedQueue|, 1
    {
      if buildingConferenceChannelRemovedActorContact || conferenceChannelRemovedQueue == [] {
        return;
      }
      var info := conferenceChannelRemovedQueue[0];
      if info.path !in conferenceChannels {
        conferenceChannelRemovedQueue := conferenceChannelRemovedQueue[1..];
        done := done + [Outcome(info, None)];
        assert State() == Skip(old(State()));
        ProcessConferenceChannelRemoved();
        return;
      }
      ProcessDepartsAnyway(State());
      buildingConferenceChannelRemovedActorContact := true;
      if info.actor.Some? {
        lookups := lookups + [info.actor.value];
      } else {
        GotConferenceChannelRemovedActorContact(None);
      }
    }

    /** The reply to the actor lookup in flight, whose channel is still there. */
    method ActorLookupFinished(actor: Option<Contact>)
      requires Inv(State()) && lookups != []
      modifies this
      ensures State() == GotActor(old(State()), actor)
    {
      hide Process, Depart;
      lookups := lookups[1..];
      GotConferenceChannelRemovedActorContact(actor);
    }

    /** Called by the actor lookup, or at once when the departure names no actor. */
    method GotConferenceChannelRemovedActorContact(actor: Option<Contact>)
      requires conferenceChannelRemovedQueue != [] && conferenceChannelRemovedQueue[0].path in conferenceChannels
      modifies this
      ensures State() == Process(Depart(old(State()), actor))
      decreases |conferenceChannelRemovedQueue|, 0
    {
      hide Process;
      var info := conferenceChannelRemovedQueue[0];
      conferenceChannelRemovedQueue := conferenceChannelRemovedQueue[1..];
      var channel := conferenceChannels[info.path];
      conferenceChannels := conferenceChannels - {info.path};
      done := done + [Outcome(info, Some(Gone(info.path, channel, actor)))];
      EraseOriginals(channel);
      buildingConferenceChannelRemovedActorContact := false;
      assert State() == Depart(old(State()), actor);
      ProcessConferenceChannelRemoved();
    }

    /** The erasing loop over the original channels. */
    method EraseOriginals(channel: Proxy)
      modifies `conferenceOriginalChannels
      ensures conferenceOriginalChannels == Without(old(conferenceOriginalChannels), channel)
    {
      ghost var m := conferenceOriginalChannels;
      var rest := conferenceOriginalChannels.Keys;
      while rest != {}
        invariant rest <= conferenceOriginalChannels.Keys <= m.Keys
        invariant forall h :: h in m ==> (h in conferenceOriginalChannels <==> h in rest || m[h] != channel)
        invariant forall h :: h in conferenceOriginalChannels ==> conferenceOriginalChannels[h] == m[h]
        decreases |rest|
      {
        var h :| h in rest;
        rest := rest - {h};
        if conferenceOriginalChannels[h] == channel {
          conferenceOriginalChannels := conferenceOriginalChannels - {h};
        }
      }
    }
  }

  lemma ProcessDepartsAnyway(c: Conference)
    requires !c.building && c.queue != [] && c.queue[0].path in c.channels
    ensures c.queue[0].actor.None? ==> Process(c) == Process(Depart(c.(building := true), None))
  {
    assert Depart(c.(building := true), None) == Depart(c, None);
  }
}
