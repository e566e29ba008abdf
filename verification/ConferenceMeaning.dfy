/**
 What a conference holds, read off the events alone: each path and each original handle on its own,
 every departure at once.  The queue of departures that wait for their actors comes to the same.
 */
module ConferenceMeaning {
  import opened Handles
  import opened ConferenceRemoval

  /** The first channel listed for a path. */
  function FirstFound(found: seq<(Path, Proxy)>, path: Path): Option<Proxy>
    decreases |found|
  {
    if found == [] then None
    else if found[0].0 == path then Some(found[0].1)
    else FirstFound(found[1..], path)
  }

  /** The last channel listed for a handle. */
  function LastFound(found: seq<(Handle, Proxy)>, handle: Handle): Option<Proxy>
    decreases |found|
  {
    if found == [] then None
    else if found[|found| - 1].0 == handle then Some(found[|found| - 1].1)
    else LastFound(found[..|found| - 1], handle)
  }

  function Or<T>(a: Option<T>, b: Option<T>): Option<T> {
    if a.Some? then a else b
  }

  /** The channel that is in the conference under a path. */
  function ChannelAt(events: seq<Event>, path: Path): Option<Proxy>
    decreases |events|
  {
    if events == [] then None else
      var x := ChannelAt(events[..|events| - 1], path);
      match events[|events| - 1]
      case Merged(p, _, channel) => if p == path then Or(x, Some(channel)) else x
      case Properties(found, _) => Or(x, FirstFound(found, path))
      case Removed(d) => if d.path == path then None else x
      case ActorReply(_) => x
  }

  /** The original channel of a handle: set when its channel joins or is listed, and gone with it. */
  function OriginalAt(events: seq<Event>, handle: Handle): Option<Proxy>
    decreases |events|
  {
    if events == [] then None else
      var before := events[..|events| - 1];
      var o := OriginalAt(before, handle);
      match events[|events| - 1]
      case Merged(p, h, channel) => if h == handle && h != 0 && ChannelAt(before, p).None? then Some(channel) else o
      case Properties(_, originals) => Or(LastFound(originals, handle), o)
      case Removed(d) => if o == ChannelAt(before, d.path) then None else o
      case ActorReply(_) => o
  }

  // ---------------------------------------------------------------- the conference's tables

  function At<K, V>(m: map<K, V>, k: K): Option<V> {
    if k in m then Some(m[k]) else None
  }

  /** A departure of the path is waiting. */
  predicate IsWaiting(c: Conference, path: Path) {
    exists k :: 0 <= k < |c.queue| && c.queue[k].path == path
  }

  /** The channel has a departure waiting. */
  predicate IsLeaving(c: Conference, channel: Proxy) {
    exists k :: 0 <= k < |c.queue| && c.queue[k].path in c.channels && c.channels[c.queue[k].path] == channel
  }

  /** A path with a waiting departure is gone already as far as the events go. */
  predicate ShowsChannel(c: Conference, path: Path, x: Option<Proxy>) {
    if IsWaiting(c, path) then x.None? else At(c.channels, path) == x
  }

  predicate ShowsOriginal(c: Conference, handle: Handle, o: Option<Proxy>) {
    if o.Some? then At(c.originals, handle) == o && !IsLeaving(c, o.value)
    else handle in c.originals ==> IsLeaving(c, c.originals[handle])
  }

  ghost predicate Shows(c: Conference, events: seq<Event>) {
    && (forall path :: ShowsChannel(c, path, ChannelAt(events, path)))
    && (forall handle :: ShowsOriginal(c, handle, OriginalAt(events, handle)))
  }

  /** What an event brings in has neither the path nor the channel object of a waiting departure. */
  predicate IsApart(c: Conference, e: Event) {
    match e
    case Merged(path, _, channel) => !IsWaiting(c, path) && !IsLeaving(c, channel)
    case Properties(found, originals) =>
      && (forall k :: 0 <= k < |found| ==> !IsWaiting(c, found[k].0))
      && (forall k :: 0 <= k < |originals| ==> !IsLeaving(c, originals[k].1))
    case _ => true
  }

  // ---------------------------------------------------------------- dealing with departures

  lemma SkipShows(c: Conference, events: seq<Event>)
    requires Shows(c, events) && c.queue != [] && c.queue[0].path !in c.channels
    ensures Shows(Skip(c), events)
  {
    var n := Skip(c);
    forall path ensures ShowsChannel(n, path, ChannelAt(events, path)) {
      assert ShowsChannel(c, path, ChannelAt(events, path));
      RestWaits(c, n, path);
    }
    forall handle ensures ShowsOriginal(n, handle, OriginalAt(events, handle)) {
      assert ShowsOriginal(c, handle, OriginalAt(events, handle));
      forall x ensures IsLeaving(n, x) <==> IsLeaving(c, x) {
        SkipLeaves(c, x);
      }
    }
  }

  lemma RestWaits(c: Conference, n: Conference, path: Path)
    requires c.queue != [] && n.queue == c.queue[1..]
    ensures IsWaiting(c, path) <==> path == c.queue[0].path || IsWaiting(n, path)
  {
    if IsWaiting(c, path) && path != c.queue[0].path {
      var k :| 0 <= k < |c.queue| && c.queue[k].path == path;
      assert n.queue[k - 1] == c.queue[k];
    }
    if IsWaiting(n, path) {
      var k :| 0 <= k < |n.queue| && n.queue[k].path == path;
      assert c.queue[k + 1] == n.queue[k];
    }
  }

  lemma SkipLeaves(c: Conference, x: Proxy)
    requires c.queue != [] && c.queue[0].path !in c.channels
    ensures IsLeaving(Skip(c), x) <==> IsLeaving(c, x)
  {
    var n := Skip(c);
    if IsLeaving(c, x) {
      var k :| 0 <= k < |c.queue| && c.queue[k].path in c.channels && c.channels[c.queue[k].path] == x;
      assert n.queue[k - 1] == c.queue[k];
    }
    if IsLeaving(n, x) {
      var k :| 0 <= k < |n.queue| && n.queue[k].path in n.channels && n.channels[n.queue[k].path] == x;
      assert c.queue[k + 1] == n.queue[k];
    }
  }

  lemma DepartLeaves(c: Conference, actor: Option<Contact>, x: Proxy)
    requires c.queue != [] && c.queue[0].path in c.channels
    ensures IsLeaving(Depart(c, actor), x) ==> IsLeaving(c, x)
    ensures IsLeaving(c, x) && x != c.channels[c.queue[0].path] ==> IsLeaving(Depart(c, actor), x)
  {
    var n := Depart(c, actor);
    if IsLeaving(c, x) && x != c.channels[c.queue[0].path] {
      var k :| 0 <= k < |c.queue| && c.queue[k].path in c.channels && c.channels[c.queue[k].path] == x;
      assert n.queue[k - 1] == c.queue[k];
    }
    if IsLeaving(n, x) {
      var k :| 0 <= k < |n.queue| && n.queue[k].path in n.channels && n.channels[n.queue[k].path] == x;
      assert c.queue[k + 1] == n.queue[k];
    }
  }

  lemma DepartShows(c: Conference, actor: Option<Contact>, events: seq<Event>)
    requires Shows(c, events) && c.queue != [] && c.queue[0].path in c.channels
    ensures Shows(Depart(c, actor), events)
  {
    var n := Depart(c, actor);
    assert c.queue[0].path in c.channels;
    forall path ensures ShowsChannel(n, path, ChannelAt(events, path)) {
      assert ShowsChannel(c, path, ChannelAt(events, path));
      RestWaits(c, n, path);
    }
    forall handle ensures ShowsOriginal(n, handle, OriginalAt(events, handle)) {
      DepartShowsOriginal(c, actor, handle, OriginalAt(events, handle));
    }
  }

  lemma DepartShowsOriginal(c: Conference, actor: Option<Contact>, handle: Handle, o: Option<Proxy>)
    requires ShowsOriginal(c, handle, o) && c.queue != [] && c.queue[0].path in c.channels
    ensures ShowsOriginal(Depart(c, actor), handle, o)
  {
    var gone := c.channels[c.queue[0].path];
    assert IsLeaving(c, gone) by {
      assert c.queue[0].path in c.channels;
    }
    if o.Some? {
      DepartLeaves(c, actor, o.value);
    } else if handle in c.originals {
      DepartLeaves(c, actor, c.originals[handle]);
    }
    hide IsLeaving;
  }

  lemma {:induction false} ProcessShows(c: Conference, events: seq<Event>)
    requires Shows(c, events)
    ensures Shows(Process(c), events)
    decreases |c.queue|
  {
    hide Shows, Skip, Depart;
    if c.building || c.queue == [] {
    } else if c.queue[0].path !in c.channels {
      SkipShows(c, events);
      SkipShortens(c);
      ProcessShows(Skip(c), events);
    } else if c.queue[0].actor.None? {
      DepartShows(c, None, events);
      SkipShortens(c);
      ProcessShows(Depart(c, None), events);
    } else {
      LookupsAreAside(c, true, c.lookups + [c.queue[0].actor.value], events);
    }
  }

  lemma LookupsAreAside(c: Conference, building: bool, lookups: seq<Handle>, events: seq<Event>)
    requires Shows(c, events)
    ensures Shows(c.(building := building, lookups := lookups), events)
  {
    var n := c.(building := building, lookups := lookups);
    forall path ensures ShowsChannel(n, path, ChannelAt(events, path)) {
      assert ShowsChannel(c, path, ChannelAt(events, path));
    }
    forall handle ensures ShowsOriginal(n, handle, OriginalAt(events, handle)) {
      assert ShowsOriginal(c, handle, OriginalAt(events, handle));
    }
  }

  // ---------------------------------------------------------------- the events

  lemma MergedShows(c: Conference, events: seq<Event>, path: Path, handle: Handle, channel: Proxy)
    requires Shows(c, events) && IsApart(c, Merged(path, handle, channel))
    ensures Shows(OnMerged(c, path, handle, channel), events + [Merged(path, handle, channel)])
  {
    var e, n := Merged(path, handle, channel), OnMerged(c, path, handle, channel);
    assert (events + [e])[..|events|] == events;
    assert ShowsChannel(c, path, ChannelAt(events, path));
    JoinLeaves(c, path, channel);
    forall p ensures ShowsChannel(n, p, ChannelAt(events + [e], p)) {
      assert ShowsChannel(c, p, ChannelAt(events, p));
      assert IsWaiting(n, p) == IsWaiting(c, p);
    }
    forall h ensures ShowsOriginal(n, h, OriginalAt(events + [e], h)) {
      assert ShowsOriginal(c, h, OriginalAt(events, h));
      forall x ensures IsLeaving(n, x) == IsLeaving(c, x) {
        assert IsLeaving(n, x) == IsLeaving(Join(c, path, channel), x);
      }
    }
  }

  /** A channel that joins under a path nobody leaves changes nothing about who leaves. */
  lemma JoinLeaves(c: Conference, path: Path, channel: Proxy)
    requires !IsWaiting(c, path)
    ensures forall x :: IsLeaving(Join(c, path, channel), x) == IsLeaving(c, x)
    ensures forall p :: IsWaiting(Join(c, path, channel), p) == IsWaiting(c, p)
  {
    var n := Join(c, path, channel);
    forall x ensures IsLeaving(n, x) == IsLeaving(c, x) {
      if IsLeaving(n, x) {
        var k :| 0 <= k < |n.queue| && n.queue[k].path in n.channels && n.channels[n.queue[k].path] == x;
        assert c.queue[k].path != path;
        assert c.queue[k].path in c.channels && c.channels[c.queue[k].path] == x;
      }
      if IsLeaving(c, x) {
        var k :| 0 <= k < |c.queue| && c.queue[k].path in c.channels && c.channels[c.queue[k].path] == x;
        assert n.queue[k].path in n.channels && n.channels[n.queue[k].path] == x;
      }
    }
  }

  lemma {:induction false} FirstFoundSnoc(found: seq<(Path, Proxy)>, last: (Path, Proxy), path: Path)
    ensures FirstFound(found + [last], path)
         == Or(FirstFound(found, path), if last.0 == path then Some(last.1) else None)
    decreases |found|
  {
    if found == [] {
      assert ([last])[1..] == [];
    } else {
      assert (found + [last])[0] == found[0] && (found + [last])[1..] == found[1..] + [last];
      FirstFoundSnoc(found[1..], last, path);
    }
  }

  /** Of a list, the first channel of each path not there already joins. */
  lemma {:induction false} JoinEachIs(c: Conference, found: seq<(Path, Proxy)>, path: Path)
    ensures At(JoinEach(c, found).channels, path) == Or(At(c.channels, path), FirstFound(found, path))
    decreases |found|
  {
    if found == [] {
    } else {
      var rest, last := found[..|found| - 1], found[|found| - 1];
      JoinEachIs(c, rest, path);
      assert found == rest + [last];
      FirstFoundSnoc(rest, last, path);
    }
  }

  lemma {:induction false} JoinEachLeaves(c: Conference, found: seq<(Path, Proxy)>)
    requires forall k :: 0 <= k < |found| ==> !IsWaiting(c, found[k].0)
    ensures var n := JoinEach(c, found);
            && n.queue == c.queue && n.originals == c.originals
            && (forall x :: IsLeaving(n, x) == IsLeaving(c, x)) && (forall p :: IsWaiting(n, p) == IsWaiting(c, p))
    decreases |found|
  {
    hide IsLeaving, IsWaiting;
    if found == [] {
    } else {
      var rest, last := found[..|found| - 1], found[|found| - 1];
      JoinEachLeaves(c, rest);
      JoinLeaves(JoinEach(c, rest), last.0, last.1);
    }
  }

  /** Of the original channels listed, the last of each handle counts. */
  lemma {:induction false} WithOriginalsIs(m: map<Handle, Proxy>, found: seq<(Handle, Proxy)>, handle: Handle)
    ensures At(WithOriginals(m, found), handle) == Or(LastFound(found, handle), At(m, handle))
    decreases |found|
  {
    if found == [] {
    } else {
      WithOriginalsIs(m, found[..|found| - 1], handle);
    }
  }

  lemma {:induction false} LastFoundIsListed(found: seq<(Handle, Proxy)>, handle: Handle)
    ensures LastFound(found, handle).Some? ==>
              exists k :: 0 <= k < |found| && found[k].1 == LastFound(found, handle).value
    decreases |found|
  {
    if found != [] && found[|found| - 1].0 != handle {
      LastFoundIsListed(found[..|found| - 1], handle);
      if LastFound(found, handle).Some? {
        var rest := found[..|found| - 1];
        var k :| 0 <= k < |rest| && rest[k].1 == LastFound(rest, handle).value;
        assert found[k] == rest[k];
      }
    }
  }

  lemma PropertiesShow(c: Conference, events: seq<Event>, found: seq<(Path, Proxy)>, originals: seq<(Handle, Proxy)>)
    requires Shows(c, events) && IsApart(c, Properties(found, originals))
    ensures Shows(GotProperties(c, found, originals), events + [Properties(found, originals)])
  {
    var e, m, n := Properties(found, originals), JoinEach(c, found), GotProperties(c, found, originals);
    assert (events + [e])[..|events|] == events;
    JoinEachLeaves(c, found);
    hide JoinEach, WithOriginals;
    forall x ensures IsLeaving(n, x) == IsLeaving(c, x) {
      assert IsLeaving(n, x) == IsLeaving(m, x);
    }
    forall p ensures ShowsChannel(n, p, ChannelAt(events + [e], p)) {
      assert ShowsChannel(c, p, ChannelAt(events, p));
      assert IsWaiting(n, p) == IsWaiting(m, p) == IsWaiting(c, p);
      JoinEachIs(c, found, p);
      if IsWaiting(c, p) {
        NotFound(c, found, p);
      }
    }
    forall h ensures ShowsOriginal(n, h, OriginalAt(events + [e], h)) {
      assert ShowsOriginal(c, h, OriginalAt(events, h));
      WithOriginalsIs(c.originals, originals, h);
      LastFoundIsListed(originals, h);
      hide IsLeaving;
    }
  }

  lemma {:induction false} NotFound(c: Conference, found: seq<(Path, Proxy)>, path: Path)
    requires IsWaiting(c, path) && forall k :: 0 <= k < |found| ==> !IsWaiting(c, found[k].0)
    ensures FirstFound(found, path).None?
    decreases |found|
  {
    hide IsWaiting;
    if found != [] {
      forall k | 0 <= k < |found[1..]| ensures !IsWaiting(c, found[1..][k].0) {
        assert found[1..][k] == found[k + 1];
      }
      NotFound(c, found[1..], path);
    }
  }

  lemma AnnouncementShows(c: Conference, events: seq<Event>, d: Departure)
    requires Shows(c, events) && d.path in c.channels
    ensures Shows(Announce(c, d), events + [Removed(d)])
  {
    var e, n := Removed(d), Announce(c, d);
    assert (events + [e])[..|events|] == events;
    var gone := c.channels[d.path];
    assert n.queue[|c.queue|] == d;
    forall x ensures IsLeaving(n, x) <==> IsLeaving(c, x) || x == gone {
      AnnouncementLeaves(c, d, x);
    }
    forall p ensures ShowsChannel(n, p, ChannelAt(events + [e], p)) {
      assert ShowsChannel(c, p, ChannelAt(events, p));
      AnnouncementWaits(c, d, p);
    }
    assert ShowsChannel(c, d.path, ChannelAt(events, d.path));
    assert IsWaiting(c, d.path) ==> IsLeaving(c, gone);
    forall h ensures ShowsOriginal(n, h, OriginalAt(events + [e], h)) {
      assert ShowsOriginal(c, h, OriginalAt(events, h));
      hide IsLeaving, IsWaiting;
    }
  }

  lemma AnnouncementWaits(c: Conference, d: Departure, p: Path)
    requires d.path in c.channels
    ensures IsWaiting(Announce(c, d), p) <==> IsWaiting(c, p) || p == d.path
  {
    var n := Announce(c, d);
    assert n.queue[|c.queue|] == d;
    if IsWaiting(c, p) {
      var k :| 0 <= k < |c.queue| && c.queue[k].path == p;
      assert n.queue[k] == c.queue[k];
    }
  }

  lemma AnnouncementLeaves(c: Conference, d: Departure, x: Proxy)
    requires d.path in c.channels
    ensures IsLeaving(Announce(c, d), x) <==> IsLeaving(c, x) || x == c.channels[d.path]
  {
    var n := Announce(c, d);
    assert n.queue[|c.queue|] == d;
    if IsLeaving(c, x) {
      var k :| 0 <= k < |c.queue| && c.queue[k].path in c.channels && c.channels[c.queue[k].path] == x;
      assert n.queue[k] == c.queue[k];
    }
  }

  lemma RemovalShows(c: Conference, events: seq<Event>, d: Departure)
    requires Shows(c, events)
    ensures Shows(OnRemoved(c, d), events + [Removed(d)])
  {
    if d.path in c.channels {
      AnnouncementShows(c, events, d);
      hide Shows, Announce;
      ProcessShows(Announce(c, d), events + [Removed(d)]);
    } else {
      UnknownIsGone(c, events, d);
    }
  }

  lemma UnknownIsGone(c: Conference, events: seq<Event>, d: Departure)
    requires Shows(c, events) && d.path !in c.channels
    ensures Shows(c, events + [Removed(d)])
  {
    var e := Removed(d);
    assert (events + [e])[..|events|] == events;
    assert ShowsChannel(c, d.path, ChannelAt(events, d.path));
    forall p ensures ShowsChannel(c, p, ChannelAt(events + [e], p)) {
      assert ShowsChannel(c, p, ChannelAt(events, p));
    }
    forall h ensures ShowsOriginal(c, h, OriginalAt(events + [e], h)) {
      assert ShowsOriginal(c, h, OriginalAt(events, h));
    }
  }

  lemma ReplyShows(c: Conference, events: seq<Event>, contact: Option<Contact>)
    requires InFlight(c) && Shows(c, events)
    ensures Shows(GotActor(c, contact), events + [ActorReply(contact)])
  {
    ReplyIsAside(c, events, contact);
    var es, a := events + [ActorReply(contact)], c.(lookups := c.lookups[1..]);
    LookupsAreAside(c, c.building, c.lookups[1..], es);
    hide Shows, Process;
    DepartShows(a, contact, es);
    ProcessShows(Depart(a, contact), es);
  }

  lemma ReplyIsAside(c: Conference, events: seq<Event>, contact: Option<Contact>)
    requires Shows(c, events)
    ensures Shows(c, events + [ActorReply(contact)])
  {
    var e := ActorReply(contact);
    assert (events + [e])[..|events|] == events;
    forall p ensures ShowsChannel(c, p, ChannelAt(events + [e], p)) {
      assert ShowsChannel(c, p, ChannelAt(events, p));
    }
    forall h ensures ShowsOriginal(c, h, OriginalAt(events + [e], h)) {
      assert ShowsOriginal(c, h, OriginalAt(events, h));
    }
  }

  lemma StepShows(c: Conference, events: seq<Event>, e: Event, n: Conference)
    requires Inv(c) && Shows(c, events) && Enabled(c, e) && CanFollow(c, e, n) && IsApart(c, e)
    ensures Shows(n, events + [e])
  {
    hide Shows, Ledger, IsApart, OnMerged, GotProperties, OnRemoved, GotActor;
    match e
    case Merged(path, handle, channel) => MergedShows(c, events, path, handle, channel);
    case Properties(found, originals) => PropertiesShow(c, events, found, originals);
    case Removed(d) => RemovalShows(c, events, d);
    case ActorReply(contact) => ReplyShows(c, events, contact);
  }

  // ---------------------------------------------------------------- the results

  ghost predicate AllApart(run: seq<Conference>, events: seq<Event>)
    requires IsRun(run, events)
  {
    forall j :: 0 <= j < |events| ==> IsApart(run[j], events[j])
  }

  /** As long as nothing comes back before its departure is dealt with: a path with no departure
      waiting is in the conference exactly as the events say, with that very channel, and original
      channels are those the events say, apart from those of channels about to go. */
  lemma {:induction false} ShowsWhatHappened(run: seq<Conference>, events: seq<Event>, i: nat)
    requires IsRun(run, events) && AllApart(run, events) && i < |run|
    ensures Shows(run[i], events[..i])
  {
    hide Shows, Inv, CanFollow, Enabled, IsApart;
    if i == 0 {
      assert events[..0] == [];
      NobodyYet();
    } else {
      ShowsWhatHappened(run, events, i - 1);
      RunKeeps(run, events, i - 1);
      StepShows(run[i - 1], events[..i - 1], events[i - 1], run[i]);
      assert events[..i - 1] + [events[i - 1]] == events[..i];
    }
  }

  lemma NobodyYet()
    ensures Shows(NO_CONFERENCE, [])
  {
    forall p ensures ShowsChannel(NO_CONFERENCE, p, ChannelAt([], p)) {
    }
    forall h ensures ShowsOriginal(NO_CONFERENCE, h, OriginalAt([], h)) {
    }
  }

  /** At rest, channels and original channels are exactly those the events say. */
  lemma RestsWithWhatHappened(run: seq<Conference>, events: seq<Event>, i: nat, path: Path, handle: Handle)
    requires IsRun(run, events) && AllApart(run, events) && i < |run| && run[i].queue == []
    ensures At(run[i].channels, path) == ChannelAt(events[..i], path)
    ensures At(run[i].originals, handle) == OriginalAt(events[..i], handle)
  {
    ShowsWhatHappened(run, events, i);
    assert ShowsChannel(run[i], path, ChannelAt(events[..i], path));
    assert ShowsOriginal(run[i], handle, OriginalAt(events[..i], handle));
  }

  // ---------------------------------------------------------------- one signal for each channel

  /** An event brings in a channel under a path. */
  predicate Brings(e: Event, path: Path) {
    match e
    case Merged(p, _, _) => p == path
    case Properties(found, _) => FirstFound(found, path).Some?
    case _ => false
  }

  /** How often a channel joined under a path: an event brought one while there was none. */
  ghost function Joins(run: seq<Conference>, events: seq<Event>, i: nat, path: Path): nat
    requires i < |run| == |events| + 1
  {
    if i == 0 then 0 else
      Joins(run, events, i - 1, path)
      + if path !in run[i - 1].channels && Brings(events[i - 1], path) then 1 else 0
  }

  lemma {:induction false} JoinEachCounts(c: Conference, found: seq<(Path, Proxy)>, path: Path)
    ensures Count(JoinEach(c, found).joined, path)
         == Count(c.joined, path) + if path !in c.channels && FirstFound(found, path).Some? then 1 else 0
    decreases |found|
  {
    if found == [] {
    } else {
      var rest, last := found[..|found| - 1], found[|found| - 1];
      JoinEachCounts(c, rest, path);
      JoinEachIs(c, rest, path);
      assert found == rest + [last];
      FirstFoundSnoc(rest, last, path);
      JoinCounts(JoinEach(c, rest), last.0, last.1, path);
    }
  }

  lemma JoinCounts(c: Conference, path: Path, channel: Proxy, p: Path)
    ensures Count(Join(c, path, channel).joined, p)
         == Count(c.joined, p) + if path !in c.channels && path == p then 1 else 0
  {
    assert multiset(c.joined + [path]) == multiset(c.joined) + multiset{path};
  }

  lemma {:induction false} ProcessFrame(c: Conference)
    ensures Process(c).joined == c.joined && Process(c).announced == c.announced
    decreases |c.queue|
  {
    if c.building || c.queue == [] {
    } else if c.queue[0].path !in c.channels {
      ProcessFrame(Skip(c));
    } else if c.queue[0].actor.None? {
      ProcessFrame(Depart(c, None));
    }
  }

  lemma StepCounts(c: Conference, e: Event, n: Conference, path: Path)
    requires Inv(c) && Enabled(c, e) && CanFollow(c, e, n)
    ensures Count(n.joined, path)
         == Count(c.joined, path) + if path !in c.channels && Brings(e, path) then 1 else 0
  {
    hide Ledger, Process, JoinEach, Count;
    match e
    case Merged(p, handle, channel) => JoinCounts(c, p, channel, path);
    case Properties(found, originals) => JoinEachCounts(c, found, path);
    case Removed(d) =>
      if d.path in c.channels {
        ProcessFrame(Announce(c, d));
      }
    case ActorReply(contact) => ProcessFrame(Depart(c.(lookups := c.lookups[1..]), contact));
  }

  /** Every time a channel joins, going by the events, it is there still or its departure was signalled:
      one signal for each join that is over. */
  lemma {:induction false} EachJoinEndsOnce(run: seq<Conference>, events: seq<Event>, i: nat, path: Path)
    requires IsRun(run, events) && i < |run|
    ensures Count(run[i].joined, path) == Joins(run, events, i, path)
    ensures Count(Signalled(run[i].done), path) + (if path in run[i].channels then 1 else 0)
         == Joins(run, events, i, path)
  {
    hide Inv, CanFollow, Enabled, Brings;
    RunKeeps(run, events, i);
    LedgerConserves(run[i], path);
    if i == 0 {
    } else {
      EachJoinEndsOnce(run, events, i - 1, path);
      RunKeeps(run, events, i - 1);
      StepCounts(run[i - 1], events[i - 1], run[i], path);
    }
  }

  lemma LedgerConserves(c: Conference, path: Path)
    requires Inv(c)
    ensures Count(Signalled(c.done), path) + (if path in c.channels then 1 else 0) == Count(c.joined, path)
  {
    assert Conserved(c);
  }

  // ---------------------------------------------------------------- the actors in the signals

  /** The actors signalled for departures that name one, in order. */
  function Actors(done: seq<Outcome>): seq<Option<Contact>>
    decreases |done|
  {
    if done == [] then [] else
      var last := done[|done| - 1];
      Actors(done[..|done| - 1])
      + if last.signal.Some? && last.departure.actor.Some? then [last.signal.value.actor] else []
  }

  /** What the actor lookups reported, in order. */
  function Replies(events: seq<Event>): seq<Option<Contact>>
    decreases |events|
  {
    if events == [] then [] else
      var last := events[|events| - 1];
      Replies(events[..|events| - 1]) + if last.ActorReply? then [last.contact] else []
  }

  /** Signals tell of their own departures, with an actor only if one was named and found. */
  predicate TellsTheTruth(done: seq<Outcome>, replies: seq<Option<Contact>>) {
    && Actors(done) == replies
    && forall k :: 0 <= k < |done| && done[k].signal.Some? ==>
                     && done[k].signal.value.path == done[k].departure.path
                     && (done[k].departure.actor.None? ==> done[k].signal.value.actor.None?)
  }

  lemma ToldOneMore(done: seq<Outcome>, replies: seq<Option<Contact>>, o: Outcome)
    requires TellsTheTruth(done, replies)
    requires o.signal.Some? ==>
               o.signal.value.path == o.departure.path && (o.departure.actor.None? ==> o.signal.value.actor.None?)
    ensures TellsTheTruth(done + [o], replies + if o.signal.Some? && o.departure.actor.Some?
                                                then [o.signal.value.actor] else [])
  {
    assert (done + [o])[..|done|] == done;
  }

  lemma {:induction false} ProcessTells(c: Conference, replies: seq<Option<Contact>>)
    requires TellsTheTruth(c.done, replies)
    ensures TellsTheTruth(Process(c).done, replies)
    decreases |c.queue|
  {
    hide TellsTheTruth;
    assert replies + [] == replies;
    if c.building || c.queue == [] {
    } else if c.queue[0].path !in c.channels {
      ToldOneMore(c.done, replies, Outcome(c.queue[0], None));
      ProcessTells(Skip(c), replies);
    } else if c.queue[0].actor.None? {
      var d := c.queue[0];
      ToldOneMore(c.done, replies, Outcome(d, Some(Gone(d.path, c.channels[d.path], None))));
      ProcessTells(Depart(c, None), replies);
    }
  }

  lemma ReplyTells(c: Conference, replies: seq<Option<Contact>>, contact: Option<Contact>)
    requires InFlight(c) && TellsTheTruth(c.done, replies)
    ensures TellsTheTruth(GotActor(c, contact).done, replies + [contact])
  {
    var a, d := c.(lookups := c.lookups[1..]), c.queue[0];
    hide TellsTheTruth, Process;
    ToldOneMore(c.done, replies, Outcome(d, Some(Gone(d.path, c.channels[d.path], contact))));
    ProcessTells(Depart(a, contact), replies + [contact]);
  }

  lemma {:induction false} JoinEachTells(c: Conference, found: seq<(Path, Proxy)>)
    ensures JoinEach(c, found).done == c.done && JoinEach(c, found).announced == c.announced
    decreases |found|
  {
    if found != [] {
      JoinEachTells(c, found[..|found| - 1]);
    }
  }

  /** The actor lookups' contacts are signalled with the departures that named an actor, in order, and
      no other signal names one. */
  lemma {:induction false} SignalsTellTheTruth(run: seq<Conference>, events: seq<Event>, i: nat)
    requires IsRun(run, events) && i < |run|
    ensures TellsTheTruth(run[i].done, Replies(events[..i]))
  {
    if i == 0 {
      assert events[..0] == [];
    } else {
      SignalsTellTheTruth(run, events, i - 1);
      RunKeeps(run, events, i - 1);
      assert events[..i][..i - 1] == events[..i - 1];
      var c, e, replies := run[i - 1], events[i - 1], Replies(events[..i - 1]);
      assert replies + [] == replies;
      hide TellsTheTruth, Ledger, Process, JoinEach, GotActor, InFlight;
      TellingGoesOn(c, e, run[i], replies);
    }
  }

  lemma TellingGoesOn(c: Conference, e: Event, n: Conference, replies: seq<Option<Contact>>)
    requires Inv(c) && Enabled(c, e) && CanFollow(c, e, n) && TellsTheTruth(c.done, replies)
    ensures TellsTheTruth(n.done, if e.ActorReply? then replies + [e.contact] else replies)
  {
    hide Ledger, Process, JoinEach, TellsTheTruth, GotActor;
    match e
    case Merged(p, handle, channel) =>
    case Properties(found, originals) => JoinEachTells(c, found);
    case Removed(d) =>
      if d.path in c.channels {
        ProcessTells(Announce(c, d), replies);
      }
    case ActorReply(contact) => ReplyTells(c, replies, contact);
  }

  /** The departures of channels that were there, in order. */
  ghost function Announcements(run: seq<Conference>, events: seq<Event>, i: nat): seq<Departure>
    requires i < |run| == |events| + 1
  {
    if i == 0 then [] else
      Announcements(run, events, i - 1)
      + if events[i - 1].Removed? && events[i - 1].departure.path in run[i - 1].channels
        then [events[i - 1].departure] else []
  }

  /** Every departure of a channel that was there is dealt with in turn, and no other. */
  lemma {:induction false} AnnouncedAre(run: seq<Conference>, events: seq<Event>, i: nat)
    requires IsRun(run, events) && i < |run|
    ensures Departures(run[i].done) + run[i].queue == Announcements(run, events, i)
  {
    hide Conserved, CanFollow, Enabled, InFlight, Resting;
    RunKeeps(run, events, i);
    if i == 0 {
    } else {
      AnnouncedAre(run, events, i - 1);
      RunKeeps(run, events, i - 1);
      AnnouncementStep(run[i - 1], events[i - 1], run[i]);
    }
  }

  lemma AnnouncementStep(c: Conference, e: Event, n: Conference)
    requires Inv(c) && Enabled(c, e) && CanFollow(c, e, n)
    ensures n.announced
         == c.announced + if e.Removed? && e.departure.path in c.channels then [e.departure] else []
  {
    hide Ledger, Process, JoinEach;
    match e
    case Merged(p, handle, channel) =>
    case Properties(found, originals) => JoinEachTells(c, found);
    case Removed(d) =>
      if d.path in c.channels {
        ProcessFrame(Announce(c, d));
      }
    case ActorReply(contact) => ProcessFrame(Depart(c.(lookups := c.lookups[1..]), contact));
  }
}
