/**
 What becomes of each account, read off the events alone: every path goes its own way, whatever
 happens to the others.  The account manager's tables are exactly this.
 */
module AccountLife {
  import opened Handles
  import opened AccountManager

  /** Unknown, being made ready, ready, or given up after a failure. */
  datatype Status = Absent | Pending(account: Account) | Complete(account: Account) | GivenUp

  /** The first account object listed for a path. */
  function FirstListed(found: seq<Account>, path: Path): Option<Account>
    decreases |found|
  {
    if found == [] then None
    else if found[0].path == path then Some(found[0])
    else FirstListed(found[1..], path)
  }

  /** An account the manager does not have, or has given up, is made ready. */
  function Added(s: Status, account: Option<Account>): Status {
    if account.Some? && (s.Absent? || s.GivenUp?) then Pending(account.value) else s
  }

  /** The service's list was received. */
  predicate GotList(events: seq<Event>)
    decreases |events|
  {
    events != [] &&
    ((events[|events| - 1].MainReply? && events[|events| - 1].reply.Some?) || GotList(events[..|events| - 1]))
  }

  /** What the events say of one path.  Until the list is received, news of single accounts do not
      count. */
  function StatusAfter(events: seq<Event>, path: Path): Status
    decreases |events|
  {
    if events == [] then Absent else
      var before := events[..|events| - 1];
      var s := StatusAfter(before, path);
      match events[|events| - 1]
      case MainReply(Some(listing)) => Added(s, FirstListed(listing.valid + listing.invalid, path))
      case ValidityChanged(account) =>
        if GotList(before) && account.path == path then Added(s, Some(account)) else s
      case Removed(gone) => if GotList(before) && gone == path then Absent else s
      case Finished(account, ok) =>
        if account.path != path || !s.Pending? then s else if ok then Complete(account) else GivenUp
      case _ => s
  }

  /** The service has an account, going by what it told: its list, and the news since. */
  predicate ServiceHas(events: seq<Event>, path: Path)
    decreases |events|
  {
    events != [] &&
    var before := events[..|events| - 1];
    match events[|events| - 1]
    case MainReply(Some(listing)) =>
      (exists a :: a in listing.valid + listing.invalid && a.path == path) || ServiceHas(before, path)
    case ValidityChanged(account) => (GotList(before) && account.path == path) || ServiceHas(before, path)
    case Removed(gone) => ServiceHas(before, path) && !(GotList(before) && gone == path)
    case _ => ServiceHas(before, path)
  }

  lemma {:induction false} FirstListedIff(found: seq<Account>, path: Path)
    ensures FirstListed(found, path).Some? <==> exists a :: a in found && a.path == path
    ensures FirstListed(found, path).Some? ==> FirstListed(found, path).value.path == path
    decreases |found|
  {
    if found != [] {
      FirstListedIff(found[1..], path);
      assert forall a :: a in found <==> a == found[0] || a in found[1..];
    }
  }

  /** An account is absent exactly if the service does not have it. */
  lemma {:induction false} AbsentIff(events: seq<Event>, path: Path)
    ensures StatusAfter(events, path).Absent? <==> !ServiceHas(events, path)
    decreases |events|
  {
    if events == [] {
    } else {
      AbsentIff(events[..|events| - 1], path);
      match events[|events| - 1]
      case MainReply(Some(listing)) => FirstListedIff(listing.valid + listing.invalid, path);
      case _ =>
    }
  }

  // ---------------------------------------------------------------- the manager's tables

  /** What the manager knows of a path. */
  predicate Shows(m: Manager, path: Path, s: Status) {
    && (path in m.incomplete <==> s.Pending?) && (s.Pending? ==> m.incomplete[path] == s.account)
    && (path in m.accounts <==> s.Complete?) && (s.Complete? ==> m.accounts[path] == s.account)
    && (path in m.failed <==> s.GivenUp?)
    && (path in m.wanted <==> !s.Absent?)
  }

  lemma AddShows(m: Manager, account: Account, path: Path, s: Status)
    requires Shows(m, path, s)
    ensures AddAccount(m, account).gotInitial == m.gotInitial
    ensures Shows(AddAccount(m, account), path, if account.path == path then Added(s, Some(account)) else s)
  {
  }

  lemma {:induction false} FirstListedSnoc(found: seq<Account>, last: Account, path: Path)
    ensures FirstListed(found + [last], path)
         == if FirstListed(found, path).Some? then FirstListed(found, path)
            else if last.path == path then Some(last) else None
    decreases |found|
  {
    if found == [] {
      assert [last][1..] == [];
    } else {
      assert (found + [last])[0] == found[0] && (found + [last])[1..] == found[1..] + [last];
      FirstListedSnoc(found[1..], last, path);
    }
  }

  /** A list is added account by account: each path ends up as the list alone says. */
  lemma {:induction false} AddEachShows(m: Manager, found: seq<Account>, path: Path, s: Status)
    requires Shows(m, path, s)
    ensures Shows(AddEach(m, found), path, Added(s, FirstListed(found, path)))
    decreases |found|
  {
    if found == [] {
    } else {
      var rest, last := found[..|found| - 1], found[|found| - 1];
      AddEachShows(m, rest, path, s);
      AddShows(AddEach(m, rest), last, path, Added(s, FirstListed(rest, path)));
      assert found == rest + [last];
      FirstListedSnoc(rest, last, path);
      hide Shows, AddAccount;
    }
  }

  /** Checking for completion does not touch the tables. */
  lemma CheckShows(m: Manager, path: Path, s: Status)
    requires Shows(m, path, s)
    ensures CheckIntrospection(m).gotInitial == m.gotInitial && Shows(CheckIntrospection(m), path, s)
  {
  }

  lemma FinishedShows(m: Manager, account: Account, ok: bool, path: Path, s: Status)
    requires Shows(m, path, s)
    ensures AfterReady(m, account, ok).gotInitial == m.gotInitial
    ensures Shows(AfterReady(m, account, ok), path,
                  if account.path != path || !s.Pending? then s else if ok then Complete(account) else GivenUp)
  {
    hide CheckIntrospection;
    var n := Without(m, account);
    if !ok || account.path !in m.incomplete {
      var f := n.(failed := if account.path in m.incomplete then n.failed + {account.path} else n.failed);
      CheckShows(f, path, if account.path != path || !s.Pending? then s else GivenUp);
    } else {
      CheckShows(Enter(n, account), path, if account.path != path || !s.Pending? then s else Complete(account));
    }
  }

  lemma StepShows(m: Manager, events: seq<Event>, e: Event, path: Path)
    requires Enabled(m, e) && m.gotInitial == GotList(events) && Shows(m, path, StatusAfter(events, path))
    ensures var n := Step(m, e);
            n.gotInitial == GotList(events + [e]) && Shows(n, path, StatusAfter(events + [e], path))
  {
    assert (events + [e])[..|events|] == events;
    var s := StatusAfter(events, path);
    hide Shows, AddAccount, AfterReady, AfterMainProperties, FirstListed;
    match e
    case MainReply(reply) => MainReplyShows(m, reply, path, s);
    case Finished(account, ok) => FinishedShows(m, account, ok, path, s);
    case ValidityChanged(account) => AddShows(m, account, path, s);
    case Removed(gone) => RemovalShows(m, gone, path, s);
    case TimerFired => RetryShows(m, path, s);
  }

  lemma MainReplyShows(m: Manager, reply: Option<Listing>, path: Path, s: Status)
    requires Shows(m, path, s)
    ensures var n := AfterMainProperties(m, reply);
            && n.gotInitial == (m.gotInitial || reply.Some?)
            && Shows(n, path, if reply.Some? then Added(s, FirstListed(reply.value.valid + reply.value.invalid, path))
                              else s)
  {
    hide AddEach, FirstListed;
    if reply.Some? {
      var n := m.(asking := false, gotInitial := true);
      AddEachShows(n, reply.value.All(), path, s);
      AddEachFrame(n, reply.value.All());
      CheckShows(AddEach(n, reply.value.All()), path, Added(s, FirstListed(reply.value.All(), path)));
    }
  }

  lemma RemovalShows(m: Manager, gone: Path, path: Path, s: Status)
    requires Shows(m, path, s)
    ensures AfterRemoval(m, gone).gotInitial == m.gotInitial
    ensures Shows(AfterRemoval(m, gone), path, if m.gotInitial && gone == path then Absent else s)
  {
  }

  lemma RetryShows(m: Manager, path: Path, s: Status)
    requires Shows(m, path, s)
    ensures Shows(Retry(m), path, s)
  {
  }

  /** Adding accounts touches neither readiness nor the calls. */
  lemma {:induction false} AddEachFrame(m: Manager, found: seq<Account>)
    ensures var n := AddEach(m, found); n.gotInitial == m.gotInitial && n.ready == m.ready && n.retries == m.retries
    decreases |found|
  {
    if found == [] {
    } else {
      AddEachFrame(m, found[..|found| - 1]);
    }
  }

  /** The life of an account: in every run, whatever happens to other accounts, the manager has each
      path exactly as the events say, with that very account object. */
  lemma {:induction false} LifeOfAccount(run: seq<Manager>, events: seq<Event>, i: nat, path: Path)
    requires IsRun(run, events) && i < |run|
    ensures run[i].gotInitial == GotList(events[..i])
    ensures Shows(run[i], path, StatusAfter(events[..i], path))
  {
    hide Step, Enabled, Shows, StatusAfter, GotList;
    if i == 0 {
      assert events[..0] == [];
      NothingYet(path);
    } else {
      LifeOfAccount(run, events, i - 1, path);
      StepShows(run[i - 1], events[..i - 1], events[i - 1], path);
      assert events[..i - 1] + [events[i - 1]] == events[..i];
    }
  }

  lemma NothingYet(path: Path)
    ensures Shows(NEW_MANAGER, path, StatusAfter([], path)) && !GotList([])
  {
  }

  // ---------------------------------------------------------------- readiness

  ghost predicate NonePending(events: seq<Event>) {
    forall path :: !StatusAfter(events, path).Pending?
  }

  /** The list was received, and after it or after some finished operation no account was pending. */
  ghost predicate ReadyAfter(events: seq<Event>)
    decreases |events|
  {
    events != [] &&
    (ReadyAfter(events[..|events| - 1])
     || (NonePending(events) && match events[|events| - 1]
                                case MainReply(reply) => reply.Some?
                                case Finished(_, _) => true
                                case _ => false))
  }

  lemma NonePendingIff(m: Manager, events: seq<Event>)
    requires forall path :: Shows(m, path, StatusAfter(events, path))
    ensures m.incomplete == map[] <==> NonePending(events)
  {
    if m.incomplete == map[] {
      forall path ensures !StatusAfter(events, path).Pending? {
        assert Shows(m, path, StatusAfter(events, path));
      }
    } else {
      var path :| path in m.incomplete;
      assert Shows(m, path, StatusAfter(events, path));
      assert StatusAfter(events, path).Pending?;
    }
  }

  /** FeatureCore is ready exactly if the list was received and, then or later, an operation's end left
      no account pending: not before, and not later than that. */
  lemma {:induction false} ReadyIff(run: seq<Manager>, events: seq<Event>, i: nat)
    requires IsRun(run, events) && i < |run|
    ensures run[i].ready <==> ReadyAfter(events[..i])
  {
    hide Enabled, Shows;
    if i == 0 {
      assert events[..0] == [];
    } else {
      ReadyIff(run, events, i - 1);
      var e, before := events[i - 1], events[..i - 1];
      assert before + [e] == events[..i] && events[..i][..i - 1] == before;
      forall path ensures Shows(run[i], path, StatusAfter(events[..i], path)) {
        LifeOfAccount(run, events, i, path);
      }
      NonePendingIff(run[i], events[..i]);
      ReadyStep(run[i - 1], e);
      hide Step, NonePending;
    }
  }

  lemma ReadyStep(m: Manager, e: Event)
    requires Enabled(m, e)
    ensures var n := Step(m, e);
            n.ready <==> m.ready || (n.incomplete == map[] && match e
                                                              case MainReply(reply) => reply.Some?
                                                              case Finished(_, _) => true
                                                              case _ => false)
  {
    match e
    case MainReply(reply) =>
      if reply.Some? {
        AddEachFrame(m.(asking := false, gotInitial := true), reply.value.All());
        hide AddEach;
      }
    case _ =>
  }

  // ---------------------------------------------------------------- the results

  /** Once every ready operation has finished, FeatureCore is ready and the complete accounts are those
      the service has, by its list and its news, less those given up. */
  lemma SettledAccounts(run: seq<Manager>, events: seq<Event>, i: nat, path: Path)
    requires IsRun(run, events) && i < |run|
    requires GotList(events[..i]) && run[i].operations == multiset{}
    ensures run[i].ready && run[i].incomplete == map[]
    ensures path in run[i].accounts
            <==> ServiceHas(events[..i], path) && !StatusAfter(events[..i], path).GivenUp?
  {
    LifeOfAccount(run, events, i, path);
    AbsentIff(events[..i], path);
    RunKeeps(run, events, i);
    NothingOperated(run[i]);
    hide Inv, StatusAfter, ServiceHas;
  }

  lemma NothingOperated(m: Manager)
    requires Inv(m) && m.gotInitial && m.operations == multiset{}
    ensures m.ready && m.incomplete == map[]
  {
    assert forall p :: p !in m.incomplete;
    assert m.incomplete == map[];
  }

  /** How often the service failed to give its list. */
  function Failures(events: seq<Event>): nat
    decreases |events|
  {
    if events == [] then 0 else
      Failures(events[..|events| - 1])
      + if events[|events| - 1].MainReply? && events[|events| - 1].reply.None? then 1 else 0
  }

  /** Until the list is received: six failures are reported, and fewer leave a call or a timer. */
  predicate CallsAddUp(m: Manager) {
    && m.retries <= MAX_REINTROSPECTION_RETRIES + 1
    && (!m.gotInitial ==>
          && (m.reports == [false] <==> m.retries == MAX_REINTROSPECTION_RETRIES + 1)
          && (m.reports == [] <==> m.asking || m.resting)
          && m.asked == m.retries + if m.asking then 1 else 0)
  }

  /** The list is asked for again after each of the first five failures, and given up exactly after the
      sixth, when failure is reported. */
  lemma {:induction false} GivesUpAfterSix(run: seq<Manager>, events: seq<Event>, i: nat)
    requires IsRun(run, events) && i < |run|
    ensures run[i].retries == Failures(events[..i]) && CallsAddUp(run[i])
  {
    hide Step, Enabled, Inv, CallsAddUp;
    if i == 0 {
      assert events[..0] == [];
      NothingFailedYet();
    } else {
      GivesUpAfterSix(run, events, i - 1);
      RunKeeps(run, events, i - 1);
      assert events[..i][..i - 1] == events[..i - 1];
      RetryStep(run[i - 1], events[i - 1]);
    }
  }

  lemma NothingFailedYet()
    ensures CallsAddUp(NEW_MANAGER) && Failures([]) == 0 == NEW_MANAGER.retries
  {
  }

  lemma RetryStep(m: Manager, e: Event)
    requires Inv(m) && Enabled(m, e) && CallsAddUp(m)
    ensures Step(m, e).retries == m.retries + if e.MainReply? && e.reply.None? then 1 else 0
    ensures CallsAddUp(Step(m, e))
  {
    assert !m.gotInitial ==> m.operations == multiset{};
    hide Tables, Accounted, Logged;
    if e.MainReply? && e.reply.Some? {
      hide AddEach;
      AddEachFrame(m.(asking := false, gotInitial := true), e.reply.value.All());
    }
  }
}
