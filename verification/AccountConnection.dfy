/**
 An account's connection: the queue of object paths announced for it, built one at a time, and the
 completion of FeatureCore that waits for them.
 */
module AccountConnection {
  import opened Handles

  type Path = string

  const NO_PATH: Path := ""

  /** A connection object; the factory may hand out different objects for one path over time. */
  datatype Connection = Connection(path: Path, id: nat)

  /** What became of an announced path. */
  datatype Outcome = Dropped | AlreadyThere | Failed | Built(connection: Connection)

  datatype Done = Done(path: Path, outcome: Outcome)

  datatype Account = Account(
    queue: seq<Path>,
    connection: Option<Connection>,
    builds: seq<Path>,               // connection builds awaiting their result
    mayFinishCore: bool,
    coreFinished: bool,
    asked: bool,                     // the account's properties were asked for and not yet received
    reports: seq<bool>,              // every report of FeatureCore: success or failure
    announced: seq<Path>,            // every path ever announced
    done: seq<Done>,                 // every path ever dequeued
    emitted: seq<Option<Connection>>,// every connectionChanged signal
    notified: seq<Path>)             // every notification of the connection's object path

  const NEW_ACCOUNT := Account([], None, [], false, false, true, [], [], [], [], [])

  /** The path of a connection, or none. */
  function PathOf(c: Option<Connection>): Path {
    if c.Some? then c.value.path else NO_PATH
  }

  function WithConnection(a: Account, c: Option<Connection>): Account {
    a.(connection := c,
       emitted := if c != a.connection then a.emitted + [c] else a.emitted,
       notified := if c.None? && a.connection.None? then a.notified
                   else if c.None? || PathOf(c) != PathOf(a.connection) then a.notified + [PathOf(c)]
                   else a.notified)
  }

  function Dequeue(a: Account, o: Outcome): Account
    requires a.queue != []
  {
    a.(queue := a.queue[1..], done := a.done + [Done(a.queue[0], o)])
  }

  /** Work through the queue up to the first path that needs a build. */
  function Process(a: Account): Account
    decreases |a.queue|
  {
    if a.queue == [] then a
    else if a.queue[0] == NO_PATH then Process(Dequeue(WithConnection(a, None), Dropped))
    else if a.connection.Some? && a.connection.value.path == a.queue[0] then Process(Dequeue(a, AlreadyThere))
    else a.(builds := a.builds + [a.queue[0]])
  }

  /** A path as announced; the service says "no connection" with a slash. */
  function Normal(path: Path): Path {
    if path == "/" then NO_PATH else path
  }

  function Announce(a: Account, path: Path): Account {
    var n := a.(queue := a.queue + [Normal(path)], announced := a.announced + [Normal(path)]);
    if |n.queue| == 1 then Process(n) else n
  }

  /** A property change; only its Connection entry matters here. */
  function Update(a: Account, path: Option<Path>): Account {
    if path.Some? then Announce(a, path.value) else a
  }

  function Finish(a: Account): Account {
    a.(coreFinished := true, reports := a.reports + [true])
  }

  /** The reply to GetAll on the account, with its Connection entry, or an error. */
  function AfterMainProperties(a: Account, ok: bool, path: Option<Path>): Account {
    var n := a.(asked := false);
    if !ok then n.(reports := n.reports + [false])
    else
      var u := Update(n, path).(mayFinishCore := true);
      if u.queue == [] then Finish(u) else u
  }

  function AfterBuild(a: Account, result: Option<Connection>): Account
    requires a.queue != [] && a.builds != []
  {
    var b := WithConnection(a.(builds := a.builds[1..]), result);
    var n := Process(Dequeue(b, if result.Some? then Built(result.value) else Failed));
    if n.queue == [] && !n.coreFinished && n.mayFinishCore then Finish(n) else n
  }

  // ---------------------------------------------------------------- runs

  datatype Event =
    | Changed(path: Option<Path>)
    | MainReply(ok: bool, connection: Option<Path>)
    | BuildResult(result: Option<Connection>)

  /** A build results in a connection object for the path it was asked for. */
  predicate Enabled(a: Account, e: Event) {
    match e
    case Changed(_) => true
    case MainReply(_, _) => a.asked
    case BuildResult(result) => a.builds != [] && (result.Some? ==> result.value.path == a.builds[0])
  }

  /** Dequeuing from an empty queue is undefined: then any state may follow. */
  predicate CanFollow(a: Account, e: Event, n: Account) {
    match e
    case Changed(path) => n == Update(a, path)
    case MainReply(ok, path) => n == AfterMainProperties(a, ok, path)
    case BuildResult(result) => a.builds != [] && a.queue != [] ==> n == AfterBuild(a, result)
  }

  ghost predicate IsRun(run: seq<Account>, events: seq<Event>) {
    && |run| == |events| + 1
    && run[0] == NEW_ACCOUNT
    && forall i :: 0 <= i < |events| ==> Enabled(run[i], events[i]) && CanFollow(run[i], events[i], run[i + 1])
  }

  // ---------------------------------------------------------------- what every event keeps

  function Paths(done: seq<Done>): (paths: seq<Path>)
    ensures |paths| == |done|
  {
    seq(|done|, i requires 0 <= i < |done| => done[i].path)
  }

  /** One build is outstanding, for the head of the queue, which names another connection. */
  predicate Discipline(a: Account) {
    if a.queue == [] then a.builds == []
    else a.builds == [a.queue[0]] && a.queue[0] != NO_PATH && a.queue[0] != PathOf(a.connection)
  }

  /** The connection is the one the last path dealt with stands for. */
  predicate Settled(a: Account) {
    && a.announced == Paths(a.done) + a.queue
    && (a.done == [] ==> a.connection.None?)
    && (a.done != [] ==>
          match a.done[|a.done| - 1].outcome
          case Dropped => a.connection.None? && a.done[|a.done| - 1].path == NO_PATH
          case Failed => a.connection.None?
          case Built(c) => a.connection == Some(c) && c.path == a.done[|a.done| - 1].path
          case AlreadyThere => a.connection.Some? && a.connection.value.path == a.done[|a.done| - 1].path)
    && (a.connection.Some? ==> a.connection.value.path != NO_PATH)
  }

  /** Whoever follows the signals knows the connection and its path, and hears only changes. */
  predicate Announced(a: Account) {
    && a.connection == (if a.emitted == [] then None else a.emitted[|a.emitted| - 1])
    && PathOf(a.connection) == (if a.notified == [] then NO_PATH else a.notified[|a.notified| - 1])
    && (forall i :: 0 < i < |a.emitted| ==> a.emitted[i] != a.emitted[i - 1])
    && (forall i :: 0 < i < |a.notified| ==> a.notified[i] != a.notified[i - 1])
  }

  /** FeatureCore is reported once; until then a build or the account's properties are awaited. */
  predicate Core(a: Account) {
    && a.reports == (if a.asked then [] else if a.coreFinished then [true] else if a.mayFinishCore then [] else [false])
    && (a.asked ==> !a.coreFinished && !a.mayFinishCore)
    && (a.coreFinished ==> a.mayFinishCore)
    && (a.mayFinishCore && !a.coreFinished ==> a.builds != [])
  }

  predicate Inv(a: Account) {
    Discipline(a) && Settled(a) && Announced(a) && Core(a)
  }

  lemma DequeueSettles(a: Account, o: Outcome)
    requires a.queue != [] && a.announced == Paths(a.done) + a.queue
    ensures Dequeue(a, o).announced == Paths(Dequeue(a, o).done) + Dequeue(a, o).queue
  {
    assert Paths(a.done + [Done(a.queue[0], o)]) == Paths(a.done) + [a.queue[0]];
    assert [a.queue[0]] + a.queue[1..] == a.queue;
    assert Paths(a.done) + ([a.queue[0]] + a.queue[1..]) == (Paths(a.done) + [a.queue[0]]) + a.queue[1..];
  }

  lemma DequeueAnnounces(a: Account, o: Outcome)
    requires a.queue != [] && Announced(a)
    ensures Announced(Dequeue(a, o))
  {
  }

  lemma WithConnectionAnnounces(a: Account, c: Option<Connection>)
    requires Announced(a)
    requires c.Some? ==> c.value.path != NO_PATH
    requires a.connection.Some? ==> a.connection.value.path != NO_PATH
    ensures Announced(WithConnection(a, c))
  {
    var n := WithConnection(a, c);
    if c != a.connection {
      assert n.emitted == a.emitted + [c];
      assert forall i :: 0 < i < |n.emitted| ==> n.emitted[i] != n.emitted[i - 1];
    }
    if PathOf(c) != PathOf(a.connection) {
      assert n.notified == a.notified + [PathOf(c)];
      assert forall i :: 0 < i < |n.notified| ==> n.notified[i] != n.notified[i - 1];
    }
  }

  lemma DropKeeps(a: Account)
    requires Settled(a) && Announced(a) && a.queue != [] && a.queue[0] == NO_PATH
    ensures var n := Dequeue(WithConnection(a, None), Dropped);
            && Settled(n) && Announced(n) && Frame(a, n) && |n.queue| < |a.queue| && n.builds == a.builds
  {
    WithConnectionAnnounces(a, None);
    DequeueSettles(WithConnection(a, None), Dropped);
    DequeueAnnounces(WithConnection(a, None), Dropped);
    hide Paths, Announced;
  }

  lemma AlreadyThereKeeps(a: Account)
    requires Settled(a) && Announced(a) && a.queue != []
    requires a.connection.Some? && a.connection.value.path == a.queue[0]
    ensures var n := Dequeue(a, AlreadyThere);
            && Settled(n) && Announced(n) && Frame(a, n) && |n.queue| < |a.queue| && n.builds == a.builds
  {
    DequeueSettles(a, AlreadyThere);
    hide Paths;
  }

  /** Only the queue and the connection change. */
  predicate Frame(a: Account, n: Account) {
    n == a.(queue := n.queue, connection := n.connection, builds := n.builds, done := n.done,
            emitted := n.emitted, notified := n.notified)
  }

  lemma ConnectionIsNotQueued(a: Account, c: Option<Connection>)
    ensures WithConnection(a, c).queue == a.queue
  {
  }

  lemma BuildsDoNotSettle(a: Account, builds: seq<Path>)
    requires Settled(a) && Announced(a)
    ensures Settled(a.(builds := builds)) && Announced(a.(builds := builds))
  {
  }

  /** Working through the queue ends with the queue empty or one build outstanding. */
  lemma {:induction false} ProcessSettles(a: Account)
    requires a.builds == [] && Settled(a) && Announced(a)
    ensures var n := Process(a); Discipline(n) && Settled(n) && Announced(n) && Frame(a, n)
    decreases |a.queue|
  {
    hide Settled, Announced, WithConnection;
    if a.queue == [] {
    } else if a.queue[0] == NO_PATH {
      ConnectionIsNotQueued(a, None);
      DropKeeps(a);
      ProcessSettles(Dequeue(WithConnection(a, None), Dropped));
    } else if a.connection.Some? && a.connection.value.path == a.queue[0] {
      AlreadyThereKeeps(a);
      ProcessSettles(Dequeue(a, AlreadyThere));
    } else {
      BuildsDoNotSettle(a, [a.queue[0]]);
    }
  }

  lemma AnnouncementKeeps(a: Account, path: Path)
    requires Discipline(a) && Settled(a) && Announced(a)
    ensures var n := Announce(a, path);
            && Discipline(n) && Settled(n) && Announced(n)
            && Frame(a.(announced := n.announced), n)
  {
    var q := a.(queue := a.queue + [Normal(path)], announced := a.announced + [Normal(path)]);
    assert Paths(a.done) + a.queue + [Normal(path)] == Paths(a.done) + (a.queue + [Normal(path)]);
    assert Settled(q) && Announced(q);
    if |q.queue| == 1 {
      hide Process;
      ProcessSettles(q);
    }
  }

  lemma UpdateKeeps(a: Account, path: Option<Path>)
    requires Discipline(a) && Settled(a) && Announced(a)
    ensures var n := Update(a, path);
            && Discipline(n) && Settled(n) && Announced(n)
            && Frame(a.(announced := n.announced), n)
            && (a.queue != [] ==> n.queue != [] && n.builds == a.builds)
  {
    if path.Some? {
      AnnouncementKeeps(a, path.value);
    }
  }

  /** At most one report is added, and success only with nothing left to deal with. */
  predicate ReportsInTime(a: Account, n: Account) {
    && a.reports <= n.reports
    && (a.reports == [] && n.reports == [true] ==> n.queue == [] && n.builds == [])
  }

  /** Reporting FeatureCore leaves the connection and its queue alone. */
  lemma ReplicaIgnoresCore(a: Account, n: Account)
    requires n == a.(mayFinishCore := n.mayFinishCore, coreFinished := n.coreFinished, asked := n.asked,
                     reports := n.reports)
    ensures Discipline(n) == Discipline(a) && Settled(n) == Settled(a) && Announced(n) == Announced(a)
  {
  }

  lemma ReplicaIgnoresBuilds(a: Account, builds: seq<Path>)
    requires Settled(a) && Announced(a)
    ensures Settled(a.(builds := builds)) && Announced(a.(builds := builds))
  {
  }

  lemma MainReplyKeeps(a: Account, ok: bool, path: Option<Path>)
    requires Inv(a) && a.asked
    ensures Inv(AfterMainProperties(a, ok, path))
  {
    var n := a.(asked := false);
    ReplicaIgnoresCore(a, n);
    ReplicaIgnoresCore(a, n.(reports := n.reports + [false]));
    if ok {
      UpdateKeeps(n, path);
      var u := Update(n, path).(mayFinishCore := true);
      hide Update, Settled, Announced;
      ReplicaIgnoresCore(Update(n, path), u);
      ReplicaIgnoresCore(u, Finish(u));
    }
  }

  lemma MainReplyInTime(a: Account, ok: bool, path: Option<Path>)
    requires Inv(a) && a.asked
    ensures ReportsInTime(a, AfterMainProperties(a, ok, path))
  {
    if ok {
      var n := a.(asked := false);
      ReplicaIgnoresCore(a, n);
      UpdateKeeps(n, path);
      hide Update, Settled, Announced;
      var u := Update(n, path);
      assert Discipline(u) && u.reports == [];
    } else {
      assert !AfterMainProperties(a, ok, path).reports[0];
    }
  }

  lemma BuiltSettles(a: Account, result: Option<Connection>)
    requires Settled(a) && Announced(a) && a.queue != [] && a.queue[0] != NO_PATH
    requires result.Some? ==> result.value.path == a.queue[0]
    ensures var n := Dequeue(WithConnection(a, result), if result.Some? then Built(result.value) else Failed);
            Settled(n) && Announced(n) && Frame(a, n) && n.builds == a.builds
  {
    var o := if result.Some? then Built(result.value) else Failed;
    BuiltIsLast(a, result);
    WithConnectionAnnounces(a, result);
    hide Paths, Announced, Settled;
    DequeueAnnounces(WithConnection(a, result), o);
  }

  lemma BuiltIsLast(a: Account, result: Option<Connection>)
    requires Settled(a) && a.queue != [] && a.queue[0] != NO_PATH
    requires result.Some? ==> result.value.path == a.queue[0]
    ensures Settled(Dequeue(WithConnection(a, result), if result.Some? then Built(result.value) else Failed))
  {
    hide Paths;
    DequeueSettles(WithConnection(a, result), if result.Some? then Built(result.value) else Failed);
  }

  lemma BuiltKeeps(a: Account, result: Option<Connection>)
    requires Inv(a) && a.queue != []
    requires result.Some? ==> result.value.path == a.builds[0]
    ensures Inv(AfterBuild(a, result)) && ReportsInTime(a, AfterBuild(a, result))
  {
    hide Settled, Announced, Process;
    var b := a.(builds := a.builds[1..]);
    ReplicaIgnoresBuilds(a, a.builds[1..]);
    BuiltSettles(b, result);
    var d := Dequeue(WithConnection(b, result), if result.Some? then Built(result.value) else Failed);
    assert d.builds == [];
    hide WithConnection;
    ProcessSettles(d);
    ReplicaIgnoresCore(Process(d), Finish(Process(d)));
  }

  lemma StepKeeps(a: Account, e: Event, n: Account)
    requires Inv(a) && Enabled(a, e) && CanFollow(a, e, n)
    ensures Inv(n)
  {
    match e
    case Changed(path) =>
      UpdateKeeps(a, path);
      hide Update;
    case MainReply(ok, path) =>
      hide Inv, AfterMainProperties;
      MainReplyKeeps(a, ok, path);
    case BuildResult(result) =>
      BuiltKeeps(a, result);
      hide AfterBuild;
  }

  lemma {:induction false} RunKeeps(run: seq<Account>, events: seq<Event>, i: nat)
    requires IsRun(run, events) && i < |run|
    ensures Inv(run[i])
  {
    hide Inv, CanFollow, Enabled;
    if i == 0 {
      StartsSettled();
    } else {
      RunKeeps(run, events, i - 1);
      StepKeeps(run[i - 1], events[i - 1], run[i]);
    }
  }

  lemma StartsSettled()
    ensures Inv(NEW_ACCOUNT)
  {
  }

  /** Success is reported only with every announced path dealt with and no build outstanding, and
      nothing is reported after it. */
  lemma ReportedInTime(run: seq<Account>, events: seq<Event>, i: nat)
    requires IsRun(run, events) && i < |events|
    ensures |run[i + 1].reports| <= 1 && ReportsInTime(run[i], run[i + 1])
  {
    RunKeeps(run, events, i);
    RunKeeps(run, events, i + 1);
    var a, e := run[i], events[i];
    hide Settled, Announced, Update, AfterMainProperties, AfterBuild;
    match e
    case Changed(path) => UpdateKeeps(a, path);
    case MainReply(ok, path) => MainReplyInTime(a, ok, path);
    case BuildResult(result) => BuiltKeeps(a, result);
  }

  // ---------------------------------------------------------------- the object

  class AccountPrivate {
    var connObjPathQueue: seq<Path>
    var connection: Option<Connection>
    var mayFinishCore: bool
    var coreFinished: bool

    ghost var builds: seq<Path>
    ghost var asked: bool
    ghost var reports: seq<bool>
    ghost var announced: seq<Path>
    ghost var done: seq<Done>
    ghost var emitted: seq<Option<Connection>>
    ghost var notified: seq<Path>

    ghost function State(): Account
      reads this
    {
      Account(connObjPathQueue, connection, builds, mayFinishCore, coreFinished, asked, reports, announced, done,
              emitted, notified)
    }

    constructor ()
      ensures State() == NEW_ACCOUNT
    {
      connObjPathQueue, connection, mayFinishCore, coreFinished := [], None, false, false;
      builds, asked, reports, announced, done, emitted, notified := [], true, [], [], [], [], [];
    }

    method UpdateProperties(path: Option<Path>)
      modifies this
      ensures State() == Update(old(State()), path)
    {
      hide Process;
      if path.Some? {
        var p := path.value;
        if p == "/" {
          p := NO_PATH;
        }
        connObjPathQueue := connObjPathQueue + [p];
        announced := announced + [p];
        if |connObjPathQueue| == 1 {
          var _ := ProcessConnQueue();
        }
      }
    }

    /** Returns whether the whole queue could be dealt with. */
    method ProcessConnQueue() returns (drained: bool)
      modifies this
      ensures State() == Process(old(State()))
      ensures drained == (connObjPathQueue == [])
    {
      ghost var a := State();
      while connObjPathQueue != []
        invariant Process(State()) == Process(a)
        decreases |connObjPathQueue|
      {
        ghost var before := State();
        var path := connObjPathQueue[0];
        if path == NO_PATH {
          if connection.Some? {
            connection := None;
            emitted, notified := emitted + [connection], notified + [NO_PATH];
          }
          connObjPathQueue, done := connObjPathQueue[1..], done + [Done(path, Dropped)];
          assert State() == Dequeue(WithConnection(before, None), Dropped);
        } else {
          if connection.Some? && connection.value.path == path {
            connObjPathQueue, done := connObjPathQueue[1..], done + [Done(path, AlreadyThere)];
            continue;
          }
          builds := builds + [path];
          return false;
        }
      }
      return true;
    }

    method GotMainProperties(ok: bool, path: Option<Path>)
      modifies this
      ensures State() == AfterMainProperties(old(State()), ok, path)
    {
      hide Update;
      asked := false;
      if ok {
        UpdateProperties(path);
        mayFinishCore := true;
        if connObjPathQueue == [] {
          coreFinished := true;
          reports := reports + [true];
        }
      } else {
        reports := reports + [false];
      }
    }

    /** Take the result of a build and tell of every change. */
    method SetConnection(result: Option<Connection>)
      modifies `connection, `emitted, `notified
      ensures State() == WithConnection(old(State()), result)
    {
      if result.None? {
        if connection.Some? {
          connection := None;
          emitted, notified := emitted + [connection], notified + [NO_PATH];
        }
      } else {
        var prevConn := connection;
        connection := result;
        if prevConn != connection {
          emitted := emitted + [connection];
        }
        if PathOf(prevConn) != PathOf(connection) {
          notified := notified + [PathOf(connection)];
        }
      }
    }

    method OnConnectionBuilt(result: Option<Connection>)
      requires connObjPathQueue != [] && builds != []
      modifies this
      ensures State() == AfterBuild(old(State()), result)
    {
      hide Process, WithConnection, Dequeue;
      TakeBuilt(result);
      var drained := ProcessConnQueue();
      if drained && !coreFinished && mayFinishCore {
        coreFinished := true;
        reports := reports + [true];
      }
    }

    /** The connection is the one built, if any, and the path it was built for is dealt with. */
    method TakeBuilt(result: Option<Connection>)
      requires connObjPathQueue != [] && builds != []
      modifies `builds, `connection, `emitted, `notified, `done, `connObjPathQueue
      ensures var b := WithConnection(old(State()).(builds := old(builds)[1..]), result);
              State() == Dequeue(b, if result.Some? then Built(result.value) else Failed)
    {
      hide WithConnection;
      builds := builds[1..];
      SetConnection(result);
      done := done + [Done(connObjPathQueue[0], if result.Some? then Built(result.value) else Failed)];
      connObjPathQueue := connObjPathQueue[1..];
    }
  }
}
