/**
 What an account's connection is meant to be, read off the events alone: the Connection entries the
 service sent are served strictly in turn, each build taking the next result.  The queue that goes on
 while builds are under way comes to the same.
 */
module ConnectionInTurn {
  import opened Handles
  import opened AccountConnection

  /** A Connection entry that stands for no connection. */
  predicate IsNone(entry: Path) {
    entry == "/" || entry == ""
  }

  /** What serving entries in turn comes to: the connection, the entries left waiting for the build of
      the first of them, and results nobody waits for. */
  datatype Served = Served(connection: Option<Connection>, waiting: seq<Path>, spare: seq<Option<Connection>>)

  function Serve(c: Option<Connection>, entries: seq<Path>, results: seq<Option<Connection>>): Served
    decreases |entries|
  {
    if entries == [] then Served(c, [], results)
    else if IsNone(entries[0]) then Serve(None, entries[1..], results)
    else if c.Some? && c.value.path == entries[0] then Serve(c, entries[1..], results)
    else if results == [] then Served(c, entries, [])
    else Serve(results[0], entries[1..], results[1..])
  }

  /** The Connection entry an event brings, if any. */
  function EntryOf(e: Event): seq<Path> {
    match e
    case Changed(Some(path)) => [path]
    case MainReply(true, Some(path)) => [path]
    case _ => []
  }

  function Entries(events: seq<Event>): seq<Path>
    decreases |events|
  {
    if events == [] then [] else Entries(events[..|events| - 1]) + EntryOf(events[|events| - 1])
  }

  /** The results of builds, in order. */
  function Results(events: seq<Event>): seq<Option<Connection>>
    decreases |events|
  {
    if events == [] then [] else
      var last := events[|events| - 1];
      Results(events[..|events| - 1]) + if last.BuildResult? then [last.result] else []
  }

  function Meant(events: seq<Event>): Served {
    Serve(None, Entries(events), Results(events))
  }

  /** The queue holds the waiting entries, with the empty path for those that mean no connection. */
  predicate Queues(queue: seq<Path>, waiting: seq<Path>) {
    && |queue| == |waiting|
    && forall k :: 0 <= k < |queue| ==> queue[k] == if IsNone(waiting[k]) then NO_PATH else waiting[k]
  }

  /** The account is where serving in turn has got to, and builds the path it waits for. */
  predicate IsAt(a: Account, s: Served) {
    && a.connection == s.connection && Queues(a.queue, s.waiting) && s.spare == []
    && a.builds == (if s.waiting == [] then [] else [s.waiting[0]])
    && (s.waiting != [] ==> !IsNone(s.waiting[0]))
  }

  // ---------------------------------------------------------------- going on from where one is

  lemma {:induction false} OneMoreEntry(c: Option<Connection>, entries: seq<Path>,
                                        results: seq<Option<Connection>>, x: Path)
    requires Serve(c, entries, results).spare == []
    ensures var s := Serve(c, entries, results);
            Serve(c, entries + [x], results)
            == if s.waiting == [] then Serve(s.connection, [x], []) else Served(s.connection, s.waiting + [x], [])
    decreases |entries|
  {
    if entries == [] {
      assert entries + [x] == [x];
    } else {
      assert (entries + [x])[0] == entries[0] && (entries + [x])[1..] == entries[1..] + [x];
      if IsNone(entries[0]) {
        OneMoreEntry(None, entries[1..], results, x);
      } else if c.Some? && c.value.path == entries[0] {
        OneMoreEntry(c, entries[1..], results, x);
      } else if results != [] {
        OneMoreEntry(results[0], entries[1..], results[1..], x);
      }
    }
  }

  lemma {:induction false} OneMoreResult(c: Option<Connection>, entries: seq<Path>, results: seq<Option<Connection>>,
                                         r: Option<Connection>)
    requires Serve(c, entries, results).spare == [] && Serve(c, entries, results).waiting != []
    ensures Serve(c, entries, results + [r]) == Serve(r, Serve(c, entries, results).waiting[1..], [])
    decreases |entries|
  {
    if IsNone(entries[0]) {
      OneMoreResult(None, entries[1..], results, r);
    } else if c.Some? && c.value.path == entries[0] {
      OneMoreResult(c, entries[1..], results, r);
    } else if results == [] {
      assert (results + [r])[1..] == [];
    } else {
      assert (results + [r])[0] == results[0] && (results + [r])[1..] == results[1..] + [r];
      OneMoreResult(results[0], entries[1..], results[1..], r);
    }
  }

  /** Working through the queue serves the entries it holds. */
  lemma {:induction false} ProcessServes(a: Account, waiting: seq<Path>)
    requires a.builds == [] && Queues(a.queue, waiting)
    ensures IsAt(Process(a), Serve(a.connection, waiting, []))
    decreases |a.queue|
  {
    if a.queue == [] {
    } else {
      var rest := waiting[1..];
      assert waiting[0] in waiting;
      if a.queue[0] == NO_PATH {
        ProcessServes(Dequeue(WithConnection(a, None), Dropped), rest);
      } else if a.connection.Some? && a.connection.value.path == a.queue[0] {
        ProcessServes(Dequeue(a, AlreadyThere), rest);
      }
    }
  }

  // ---------------------------------------------------------------- one event

  lemma AnnounceServes(a: Account, s: Served, x: Path)
    requires IsAt(a, s)
    ensures IsAt(Announce(a, x), if s.waiting == [] then Serve(s.connection, [x], [])
                                 else Served(s.connection, s.waiting + [x], []))
  {
    hide Process;
    var q := a.(queue := a.queue + [Normal(x)], announced := a.announced + [Normal(x)]);
    if s.waiting == [] {
      assert q.queue == [Normal(x)];
      ProcessServes(q, [x]);
    } else {
      assert (s.waiting + [x])[0] == s.waiting[0];
    }
  }

  lemma UpdateServes(a: Account, events: seq<Event>, e: Event, path: Option<Path>)
    requires IsAt(a, Meant(events)) && EntryOf(e) == (if path.Some? then [path.value] else []) && !e.BuildResult?
    ensures IsAt(Update(a, path), Meant(events + [e]))
  {
    assert (events + [e])[..|events|] == events;
    var es, rs := Entries(events), Results(events);
    assert Results(events + [e]) == rs + [] == rs;
    hide Announce, Serve, IsAt;
    if path.Some? {
      SpareIsEmpty(a, Meant(events));
      OneMoreEntry(None, es, rs, path.value);
      AnnounceServes(a, Meant(events), path.value);
    } else {
      assert es + [] == es;
    }
  }

  lemma SpareIsEmpty(a: Account, s: Served)
    requires IsAt(a, s)
    ensures a.connection == s.connection && s.spare == [] && (a.queue == [] <==> s.waiting == [])
  {
  }

  lemma ResultServes(a: Account, events: seq<Event>, result: Option<Connection>)
    requires IsAt(a, Meant(events)) && a.queue != [] && a.builds != []
    ensures IsAt(AfterBuild(a, result), Meant(events + [BuildResult(result)]))
  {
    var e := BuildResult(result);
    assert (events + [e])[..|events|] == events;
    var es, rs, s := Entries(events), Results(events), Meant(events);
    assert Entries(events + [e]) == es + [] == es && Results(events + [e]) == rs + [result];
    OneMoreResult(None, es, rs, result);
    var b := WithConnection(a.(builds := a.builds[1..]), result);
    var d := Dequeue(b, if result.Some? then Built(result.value) else Failed);
    hide Process, Serve;
    assert Queues(d.queue, s.waiting[1..]);
    ProcessServes(d, s.waiting[1..]);
  }

  lemma StepServes(a: Account, events: seq<Event>, e: Event, n: Account)
    requires Inv(a) && IsAt(a, Meant(events)) && Enabled(a, e) && CanFollow(a, e, n)
    ensures IsAt(n, Meant(events + [e]))
  {
    hide Meant, Update, AfterBuild;
    match e
    case Changed(path) => UpdateServes(a, events, e, path);
    case BuildResult(result) => ResultServes(a, events, result);
    case MainReply(ok, path) =>
      CoreIsAside(a, a.(asked := false), Meant(events));
      if ok {
        UpdateServes(a.(asked := false), events, e, path);
        var u := Update(a.(asked := false), path);
        CoreIsAside(u, n, Meant(events + [e]));
      } else {
        UpdateServes(a.(asked := false), events, e, None);
        assert Update(a.(asked := false), None) == a.(asked := false) by {
          NoUpdate(a.(asked := false));
        }
        CoreIsAside(a.(asked := false), n, Meant(events + [e]));
      }
  }

  lemma NoUpdate(a: Account)
    ensures Update(a, None) == a
  {
  }

  lemma CoreIsAside(a: Account, n: Account, s: Served)
    requires IsAt(a, s)
    requires n == a.(asked := n.asked, mayFinishCore := n.mayFinishCore, coreFinished := n.coreFinished,
                     reports := n.reports)
    ensures IsAt(n, s)
  {
  }

  // ---------------------------------------------------------------- the results

  /** Whatever arrives while builds are under way: the connection is what serving all the entries so
      far in turn gives, the queue holds those still waiting, and the build outstanding is the first of
      them, which does stand for a connection. */
  lemma {:induction false} ServedInTurn(run: seq<Account>, events: seq<Event>, i: nat)
    requires IsRun(run, events) && i < |run|
    ensures IsAt(run[i], Meant(events[..i]))
  {
    hide IsAt, Meant, CanFollow, Enabled, Inv;
    if i == 0 {
      assert events[..0] == [];
      NothingServed();
    } else {
      ServedInTurn(run, events, i - 1);
      RunKeeps(run, events, i - 1);
      StepServes(run[i - 1], events[..i - 1], events[i - 1], run[i]);
      assert events[..i - 1] + [events[i - 1]] == events[..i];
    }
  }

  lemma NothingServed()
    ensures IsAt(NEW_ACCOUNT, Meant([]))
  {
  }

  /** When everything is served, the last entry decides: it meant no connection, or the connection is
      there, or the last build failed. */
  lemma {:induction false} LastEntryDecides(c: Option<Connection>, entries: seq<Path>, results: seq<Option<Connection>>)
    requires entries != [] && Serve(c, entries, results).waiting == [] && Serve(c, entries, results).spare == []
    ensures var last, s := entries[|entries| - 1], Serve(c, entries, results);
            && (IsNone(last) ==> s.connection.None?)
            && (!IsNone(last) && s.connection.None? ==> results != [] && results[|results| - 1].None?)
    decreases |entries|
  {
    if |entries| == 1 {
    } else if IsNone(entries[0]) {
      LastEntryDecides(None, entries[1..], results);
    } else if c.Some? && c.value.path == entries[0] {
      LastEntryDecides(c, entries[1..], results);
    } else if results != [] {
      LastEntryDecides(results[0], entries[1..], results[1..]);
    }
  }

  lemma {:induction false} AnnouncedAre(run: seq<Account>, events: seq<Event>, i: nat)
    requires IsRun(run, events) && i < |run|
    ensures Queues(run[i].announced, Entries(events[..i]))
  {
    hide Inv, CanFollow, Enabled, EntryOf;
    if i == 0 {
      assert events[..0] == [];
    } else {
      AnnouncedAre(run, events, i - 1);
      RunKeeps(run, events, i - 1);
      assert events[..i][..i - 1] == events[..i - 1];
      AnnouncedGrows(run[i - 1], events[i - 1], run[i]);
    }
  }

  lemma AnnouncedGrows(a: Account, e: Event, n: Account)
    requires Inv(a) && Enabled(a, e) && CanFollow(a, e, n)
    ensures |EntryOf(e)| <= 1 && |n.announced| == |a.announced| + |EntryOf(e)| && a.announced <= n.announced
    ensures EntryOf(e) != [] ==> n.announced[|a.announced|] == if IsNone(EntryOf(e)[0]) then NO_PATH else EntryOf(e)[0]
  {
    match e
    case Changed(path) => AnnouncesIt(a, path);
    case MainReply(ok, path) => AnnouncesIt(a.(asked := false), path);
    case BuildResult(result) => BuildAnnouncesNothing(a, result);
  }

  lemma AnnouncesIt(a: Account, path: Option<Path>)
    ensures Update(a, path).announced == a.announced + if path.Some? then [Normal(path.value)] else []
  {
    if path.Some? {
      ProcessFrame(a.(queue := a.queue + [Normal(path.value)], announced := a.announced + [Normal(path.value)]));
    }
  }

  lemma BuildAnnouncesNothing(a: Account, result: Option<Connection>)
    requires a.queue != [] && a.builds != []
    ensures AfterBuild(a, result).announced == a.announced
  {
    var b := WithConnection(a.(builds := a.builds[1..]), result);
    ProcessFrame(Dequeue(b, if result.Some? then Built(result.value) else Failed));
  }

  lemma {:induction false} ProcessFrame(a: Account)
    ensures Frame(a, Process(a))
    decreases |a.queue|
  {
    if a.queue == [] {
    } else if a.queue[0] == NO_PATH {
      ProcessFrame(Dequeue(WithConnection(a, None), Dropped));
    } else if a.connection.Some? && a.connection.value.path == a.queue[0] {
      ProcessFrame(Dequeue(a, AlreadyThere));
    }
  }

  /** With the queue empty, the last Connection entry decides: "/" or the empty string mean no
      connection; otherwise the connection has that very path, or its build, the last one, failed. */
  lemma DrainedConnection(run: seq<Account>, events: seq<Event>, i: nat)
    requires IsRun(run, events) && i < |run|
    requires run[i].queue == [] && Entries(events[..i]) != []
    ensures var c, entries, results := run[i].connection, Entries(events[..i]), Results(events[..i]);
            var last := entries[|entries| - 1];
            if IsNone(last) then c.None?
            else if c.Some? then c.value.path == last
            else results != [] && results[|results| - 1].None?
  {
    hide Inv, Serve, CanFollow, Enabled, IsAt;
    ServedInTurn(run, events, i);
    SpareIsEmpty(run[i], Meant(events[..i]));
    LastEntryDecides(None, Entries(events[..i]), Results(events[..i]));
    AnnouncedAre(run, events, i);
    if run[i].connection.Some? {
      RunKeeps(run, events, i);
      LastDone(run[i]);
    }
  }

  lemma LastDone(a: Account)
    requires Inv(a) && a.queue == [] && a.announced != [] && a.connection.Some?
    ensures a.connection.value.path == a.announced[|a.announced| - 1]
  {
    assert Paths(a.done) + [] == Paths(a.done);
  }

  // ---------------------------------------------------------------- readiness

  /** What the reply to GetAll was, once it came. */
  function Replied(events: seq<Event>): Option<bool>
    decreases |events|
  {
    if events == [] then None
    else if events[|events| - 1].MainReply? then Some(events[|events| - 1].ok)
    else Replied(events[..|events| - 1])
  }

  /** At some moment since the properties were received, no entry was waiting. */
  predicate ServedSinceReply(events: seq<Event>)
    decreases |events|
  {
    events != [] &&
    (ServedSinceReply(events[..|events| - 1]) || (Replied(events) == Some(true) && Meant(events).waiting == []))
  }

  /** FeatureCore is reported failed as soon as the properties cannot be had, and successful as soon
      as they were received and no Connection entry is waiting; never both, and never again. */
  lemma {:induction false} ReportsAre(run: seq<Account>, events: seq<Event>, i: nat)
    requires IsRun(run, events) && i < |run|
    ensures run[i].reports == (match Replied(events[..i])
                               case None => []
                               case Some(false) => [false]
                               case Some(true) => if ServedSinceReply(events[..i]) then [true] else [])
    ensures run[i].asked <==> Replied(events[..i]).None?
    ensures run[i].coreFinished <==> ServedSinceReply(events[..i])
    ensures run[i].mayFinishCore <==> Replied(events[..i]) == Some(true)
  {
    hide Meant, IsAt;
    RunKeeps(run, events, i);
    if i == 0 {
      assert events[..0] == [];
    } else {
      var before, e := events[..i - 1], events[i - 1];
      assert events[..i][..i - 1] == before && events[..i][i - 1] == e;
      ReportsAre(run, events, i - 1);
      RunKeeps(run, events, i - 1);
      ServedInTurn(run, events, i);
      SpareIsEmpty(run[i], Meant(events[..i]));
      CoreStep(run[i - 1], e, run[i]);
    }
    hide Discipline, Settled, Announced, CanFollow, Enabled;
  }

  lemma CoreStep(a: Account, e: Event, n: Account)
    requires Inv(a) && Enabled(a, e) && CanFollow(a, e, n)
    ensures n.asked == (a.asked && !e.MainReply?) && n.mayFinishCore == (a.mayFinishCore || (e.MainReply? && e.ok))
    ensures n.coreFinished == (a.coreFinished || (n.mayFinishCore && n.queue == []))
  {
    hide Settled, Announced, Update;
    match e
    case Changed(path) =>
      UpdateFrame(a, path);
    case MainReply(ok, path) =>
      UpdateFrame(a.(asked := false), path);
    case BuildResult(result) =>
      var b := WithConnection(a.(builds := a.builds[1..]), result);
      hide Process;
      ProcessFrame(Dequeue(b, if result.Some? then Built(result.value) else Failed));
  }

  lemma UpdateFrame(a: Account, path: Option<Path>)
    ensures Frame(a.(announced := Update(a, path).announced), Update(a, path))
    ensures a.queue != [] ==> Update(a, path).queue != []
  {
    hide Process;
    if path.Some? {
      ProcessFrame(a.(queue := a.queue + [Normal(path.value)], announced := a.announced + [Normal(path.value)]));
    }
  }
}
