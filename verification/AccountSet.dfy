/**
 A filtered view of the account manager's accounts, kept up to date by the manager's and the
 accounts' own signals.
 */
module AccountSet {
  import opened Handles
  import AM = AccountManager

  type Path = AM.Path
  type Account = AM.Account

  datatype Signal = Added(account: Account) | Gone(account: Account)

  datatype View = View(
    wrappers: map<Path, Account>,
    accounts: map<Path, Account>,
    initial: set<Account>,       // the accounts when the set was created
    emitted: seq<Signal>)        // the signals emitted since

  // ---------------------------------------------------------------- operations

  function Tell(v: View, ready: bool, s: Signal): View {
    if ready then v.(emitted := v.emitted + [s]) else v
  }

  /** The filter is evaluated on the account's current state; matching holds those it accepts. */
  function Refiltered(v: View, matching: set<Account>, account: Account, ready: bool): View {
    if account in matching then
      if account.path in v.accounts then v
      else Tell(v.(accounts := v.accounts[account.path := account]), ready, Added(account))
    else
      if account.path !in v.accounts then v
      else Tell(v.(accounts := v.accounts - {account.path}), ready, Gone(account))
  }

  function Inserted(v: View, matching: set<Account>, account: Account, ready: bool): View {
    Refiltered(v.(wrappers := v.wrappers[account.path := account]), matching, account, ready)
  }

  /** Removal is always signalled, even of an account the filter does not accept. */
  function WithoutAccount(v: View, account: Account): View {
    v.(accounts := v.accounts - {account.path}, wrappers := v.wrappers - {account.path},
       emitted := v.emitted + [Gone(account)])
  }

  /** The plain comprehension: the accounts the filter accepts. */
  function Filtered(accounts: map<Path, Account>, matching: set<Account>): (r: map<Path, Account>)
    ensures r.Keys <= accounts.Keys
    ensures forall p :: p in r ==> r[p] == accounts[p]
    ensures forall p :: p in accounts ==> (p in r <==> accounts[p] in matching)
  {
    accounts - set p | p in accounts && accounts[p] !in matching
  }

  /** The view of a set just created. */
  function Created(accounts: map<Path, Account>, matching: set<Account>): View {
    View(accounts, Filtered(accounts, matching), Filtered(accounts, matching).Values, [])
  }

  // ---------------------------------------------------------------- the manager and its view

  datatype System = System(manager: AM.Manager, matching: set<Account>, view: Option<View>)

  datatype Happening =
    | OfManager(event: AM.Event)
    | PropertyChanged(account: Account, matches: bool)
    | SetCreated

  /** The account a manager's event announces as new, if it announces one. */
  function NewAccount(m: AM.Manager, e: AM.Event): Option<Account> {
    if e.Finished? && e.ok && e.account.path in m.incomplete && m.ready then Some(e.account) else None
  }

  predicate CanHappen(s: System, h: Happening) {
    match h
    case OfManager(e) => AM.Enabled(s.manager, e)
    case PropertyChanged(_, _) => true
    case SetCreated => s.view.None? && s.manager.ready
  }

  function AfterManagerEvent(v: View, m: AM.Manager, matching: set<Account>, e: AM.Event): View {
    if NewAccount(m, e).Some? then Inserted(v, matching, e.account, true)
    else if e.Removed? && e.path in v.wrappers then WithoutAccount(v, v.wrappers[e.path])
    else v
  }

  function Matching(matching: set<Account>, account: Account, matches: bool): set<Account> {
    if matches then matching + {account} else matching - {account}
  }

  function AfterPropertyChange(v: View, matching: set<Account>, account: Account): View {
    if account.path in v.wrappers && v.wrappers[account.path] == account
    then Refiltered(v, matching, account, true) else v
  }

  function Next(s: System, h: Happening): System
    requires CanHappen(s, h)
  {
    match h
    case OfManager(e) =>
      System(AM.Step(s.manager, e), s.matching,
             if s.view.Some? then Some(AfterManagerEvent(s.view.value, s.manager, s.matching, e)) else None)
    case PropertyChanged(account, matches) =>
      var now := Matching(s.matching, account, matches);
      System(s.manager, now,
             if s.view.Some? then Some(AfterPropertyChange(s.view.value, now, account)) else None)
    case SetCreated => s.(view := Some(Created(s.manager.accounts, s.matching)))
  }

  ghost predicate IsHistory(run: seq<System>, events: seq<Happening>) {
    && |run| == |events| + 1
    && run[0].manager == AM.NEW_MANAGER && run[0].view.None?
    && forall i :: 0 <= i < |events| ==> CanHappen(run[i], events[i]) && run[i + 1] == Next(run[i], events[i])
  }

  // ---------------------------------------------------------------- agreement

  predicate Agrees(v: View, accounts: map<Path, Account>, matching: set<Account>) {
    v.wrappers == accounts && v.accounts == Filtered(accounts, matching)
  }

  /** Signals replayed with the meaning of sets: an account may be reported gone twice. */
  function Replay(start: set<Account>, signals: seq<Signal>): set<Account>
    decreases |signals|
  {
    if signals == [] then start else
      var before, last := Replay(start, signals[..|signals| - 1]), signals[|signals| - 1];
      if last.Added? then before + {last.account} else before - {last.account}
  }

  predicate Followed(v: View) {
    Replay(v.initial, v.emitted) == v.accounts.Values
  }

  /** The view is the comprehension over the manager's accounts, and replaying the signals onto the
      accounts at creation gives it. */
  ghost predicate Inv(s: System) {
    && AM.Inv(s.manager)
    && (s.view.Some? ==>
          s.manager.ready && Agrees(s.view.value, s.manager.accounts, s.matching) && Followed(s.view.value))
  }

  predicate OwnPaths(accounts: map<Path, Account>) {
    forall p :: p in accounts ==> accounts[p].path == p
  }

  lemma ReplayOneMore(start: set<Account>, signals: seq<Signal>, s: Signal)
    ensures Replay(start, signals + [s])
         == if s.Added? then Replay(start, signals) + {s.account} else Replay(start, signals) - {s.account}
  {
    assert (signals + [s])[..|signals|] == signals;
  }

  lemma FilterKeeps(v: View, accounts: map<Path, Account>, matching: set<Account>, account: Account)
    requires account.path in accounts && accounts[account.path] == account && OwnPaths(accounts)
    requires v.wrappers == accounts && Followed(v)
    requires forall p :: p in accounts && p != account.path ==> (p in v.accounts <==> accounts[p] in matching)
    requires v.accounts.Keys <= accounts.Keys && forall p :: p in v.accounts ==> v.accounts[p] == accounts[p]
    ensures var n := Refiltered(v, matching, account, true); Agrees(n, accounts, matching) && Followed(n)
  {
    var n := Refiltered(v, matching, account, true);
    assert n.accounts == Filtered(accounts, matching);
    ReplayOneMore(v.initial, v.emitted, Added(account));
    ReplayOneMore(v.initial, v.emitted, Gone(account));
    hide Replay, Filtered;
    if account in matching && account.path !in v.accounts {
      Joined(v.accounts, account);
    } else if account !in matching && account.path in v.accounts {
      Parted(v.accounts, account);
    }
  }

  lemma Joined(accounts: map<Path, Account>, account: Account)
    requires account.path !in accounts
    ensures accounts[account.path := account].Values == accounts.Values + {account}
  {
    var n := accounts[account.path := account];
    forall a ensures a in n.Values <==> a in accounts.Values + {account} {
      if a in accounts.Values {
        var p :| p in accounts && accounts[p] == a;
        assert p in n && n[p] == a;
      }
      assert n[account.path] == account;
    }
  }

  lemma Parted(accounts: map<Path, Account>, account: Account)
    requires OwnPaths(accounts) && (account.path in accounts ==> accounts[account.path] == account)
    ensures (accounts - {account.path}).Values == accounts.Values - {account}
  {
    var n := accounts - {account.path};
    forall a ensures a in n.Values <==> a in accounts.Values - {account} {
      if a in accounts.Values - {account} {
        var p :| p in accounts && accounts[p] == a;
        assert p in n && n[p] == a;
      }
    }
  }

  lemma InsertKeeps(v: View, accounts: map<Path, Account>, matching: set<Account>, account: Account)
    requires Agrees(v, accounts, matching) && Followed(v) && OwnPaths(accounts) && account.path !in accounts
    ensures var n := Inserted(v, matching, account, true);
            Agrees(n, accounts[account.path := account], matching) && Followed(n)
  {
    hide Replay;
    FilterKeeps(v.(wrappers := accounts[account.path := account]), accounts[account.path := account], matching,
                account);
  }

  lemma RemoveKeeps(v: View, accounts: map<Path, Account>, matching: set<Account>, path: Path)
    requires Agrees(v, accounts, matching) && Followed(v) && OwnPaths(accounts) && path in accounts
    ensures var n := WithoutAccount(v, accounts[path]); Agrees(n, accounts - {path}, matching) && Followed(n)
  {
    var account := accounts[path];
    ReplayOneMore(v.initial, v.emitted, Gone(account));
    Parted(v.accounts, account);
    assert v.accounts - {path} == Filtered(accounts - {path}, matching);
    hide Replay, Filtered;
  }

  lemma ChangeKeeps(v: View, accounts: map<Path, Account>, before: set<Account>, account: Account, matches: bool)
    requires Agrees(v, accounts, before) && Followed(v) && OwnPaths(accounts)
    ensures var now := Matching(before, account, matches); var n := AfterPropertyChange(v, now, account);
            Agrees(n, accounts, now) && Followed(n)
  {
    var now := Matching(before, account, matches);
    hide Replay;
    if account.path in accounts && accounts[account.path] == account {
      FilterKeeps(v, accounts, now, account);
    } else {
      assert forall p :: p in accounts ==> accounts[p] != account;
      assert Filtered(accounts, before) == Filtered(accounts, now);
    }
  }

  /** What a ready manager's events do to its complete accounts. */
  lemma AccountsAfter(m: AM.Manager, e: AM.Event)
    requires AM.Inv(m) && AM.Enabled(m, e) && m.ready
    ensures var n := AM.Step(m, e);
            && n.ready
            && (NewAccount(m, e).Some? ==>
                  e.account.path !in m.accounts && n.accounts == m.accounts[e.account.path := e.account])
            && (e.Removed? ==> n.accounts == m.accounts - {e.path})
            && (NewAccount(m, e).None? && !e.Removed? ==> n.accounts == m.accounts)
    ensures OwnPaths(m.accounts)
  {
    hide AM.Logged, AM.Accounted, AM.IsBeingMadeReady;
    match e
    case MainReply(_) =>
    case TimerFired =>
    case Finished(account, ok) => hide AM.AddAccount, AM.AddEach, AM.Leave;
    case ValidityChanged(account) => hide AM.AddEach, AM.Enter, AM.Leave;
    case Removed(path) => hide AM.AddAccount, AM.AddEach, AM.Enter;
  }

  lemma ManagerEventKeeps(s: System, e: AM.Event)
    requires Inv(s) && AM.Enabled(s.manager, e)
    ensures Inv(Next(s, OfManager(e)))
  {
    var m := s.manager;
    AM.StepKeeps(m, e);
    if s.view.Some? {
      var v := s.view.value;
      AccountsAfter(m, e);
      hide AM.Inv, AM.Step, Followed, Refiltered;
      if NewAccount(m, e).Some? {
        InsertKeeps(v, m.accounts, s.matching, e.account);
      } else if e.Removed? {
        if e.path in m.accounts {
          RemoveKeeps(v, m.accounts, s.matching, e.path);
        } else {
          assert m.accounts - {e.path} == m.accounts;
        }
      }
    }
  }

  lemma NextKeeps(s: System, h: Happening)
    requires Inv(s) && CanHappen(s, h)
    ensures Inv(Next(s, h))
  {
    match h
    case OfManager(e) =>
      hide Inv;
      ManagerEventKeeps(s, e);
    case PropertyChanged(account, matches) =>
      if s.view.Some? {
        assert OwnPaths(s.manager.accounts) by {
          hide AM.Logged, AM.Accounted;
        }
        hide AM.Inv, Followed, Refiltered;
        ChangeKeeps(s.view.value, s.manager.accounts, s.matching, account, matches);
      }
    case SetCreated =>
      hide AM.Inv;
  }

  /** After every event of every run, the view is the comprehension over the manager's accounts. */
  lemma {:induction false} HistoryKeeps(run: seq<System>, events: seq<Happening>, i: nat)
    requires IsHistory(run, events) && i < |run|
    ensures Inv(run[i])
  {
    hide Inv, Next, CanHappen;
    if i == 0 {
      StartsWithoutView(run[0]);
    } else {
      HistoryKeeps(run, events, i - 1);
      NextKeeps(run[i - 1], events[i - 1]);
    }
  }

  lemma StartsWithoutView(s: System)
    requires s.manager == AM.NEW_MANAGER && s.view.None?
    ensures Inv(s)
  {
    AM.StartsEmpty();
  }

  // ---------------------------------------------------------------- each change is signalled once

  /** At most one signal: an account is announced exactly if it came in, and reported gone exactly if it
      went out or the manager lost it. */
  ghost predicate SaysExactly(v: View, n: View, lost: Option<Account>) {
    && v.emitted <= n.emitted && |n.emitted| <= |v.emitted| + 1
    && (forall a :: Added(a) in n.emitted[|v.emitted|..] <==> a !in v.accounts.Values && a in n.accounts.Values)
    && (forall a :: Gone(a) in n.emitted[|v.emitted|..]
                    <==> (a in v.accounts.Values && a !in n.accounts.Values) || lost == Some(a))
  }

  lemma RefilteredSays(v: View, w: map<Path, Account>, matching: set<Account>, account: Account)
    requires OwnPaths(v.accounts) && (account.path in v.accounts ==> v.accounts[account.path] == account)
    ensures SaysExactly(v, Refiltered(v.(wrappers := w), matching, account, true), None)
  {
    var n := Refiltered(v.(wrappers := w), matching, account, true);
    if account in matching && account.path !in v.accounts {
      Joined(v.accounts, account);
      NotThere(v.accounts, account);
      assert n.emitted[|v.emitted|..] == [Added(account)];
    } else if account !in matching && account.path in v.accounts {
      Parted(v.accounts, account);
      assert v.accounts[account.path] == account && account in v.accounts.Values;
      assert n.emitted[|v.emitted|..] == [Gone(account)];
    }
  }

  lemma NotThere(accounts: map<Path, Account>, account: Account)
    requires OwnPaths(accounts) && account.path !in accounts
    ensures account !in accounts.Values
  {
  }

  lemma RemovalSays(v: View, account: Account)
    requires OwnPaths(v.accounts) && (account.path in v.accounts ==> v.accounts[account.path] == account)
    ensures SaysExactly(v, WithoutAccount(v, account), Some(account))
  {
    var n := WithoutAccount(v, account);
    Parted(v.accounts, account);
    assert n.emitted[|v.emitted|..] == [Gone(account)];
  }

  lemma SilenceSays(v: View)
    ensures SaysExactly(v, v, None)
  {
    assert v.emitted[|v.emitted|..] == [];
  }

  /** The account the manager loses in an event. */
  function LostIn(s: System, h: Happening): Option<Account> {
    if h.OfManager? && h.event.Removed? && h.event.path in s.manager.accounts
    then Some(s.manager.accounts[h.event.path]) else None
  }

  lemma ViewIsOwn(s: System)
    requires Inv(s) && s.view.Some?
    ensures var v := s.view.value;
            && OwnPaths(v.accounts) && v.wrappers == s.manager.accounts && OwnPaths(v.wrappers)
            && (forall p :: p in v.accounts ==> p in v.wrappers && v.accounts[p] == v.wrappers[p])
  {
    hide AM.Logged, AM.Accounted, AM.IsBeingMadeReady;
  }

  lemma EventSays(s: System, h: Happening)
    requires Inv(s) && CanHappen(s, h) && s.view.Some?
    ensures Next(s, h).view.Some? && SaysExactly(s.view.value, Next(s, h).view.value, LostIn(s, h))
  {
    var v := s.view.value;
    ViewIsOwn(s);
    SilenceSays(v);
    match h
    case OfManager(e) =>
      AnnouncedIsNew(s.manager, e);
      hide Inv, SaysExactly, Refiltered, WithoutAccount, OwnPaths, AM.Step;
      if NewAccount(s.manager, e).Some? {
        RefilteredSays(v, v.wrappers[e.account.path := e.account], s.matching, e.account);
      } else if e.Removed? && e.path in v.wrappers {
        OwnPath(v.wrappers, e.path);
        RemovalSays(v, v.wrappers[e.path]);
      }
    case PropertyChanged(account, matches) =>
      hide Inv, SaysExactly, Refiltered;
      if account.path in v.wrappers && v.wrappers[account.path] == account {
        RefilteredSays(v, v.wrappers, Matching(s.matching, account, matches), account);
        assert v.(wrappers := v.wrappers) == v;
      }
    case SetCreated =>
  }

  lemma OwnPath(accounts: map<Path, Account>, path: Path)
    requires OwnPaths(accounts) && path in accounts
    ensures accounts[path].path == path
  {
  }

  lemma AnnouncedIsNew(m: AM.Manager, e: AM.Event)
    requires AM.Inv(m) && AM.Enabled(m, e) && m.ready
    ensures NewAccount(m, e).Some? ==> e.account.path !in m.accounts
  {
    AccountsAfter(m, e);
  }

  /** In every history each event signals at most one change, exactly the one it makes to the set, or
      the loss of an account by the manager. */
  lemma EachChangeSignalledOnce(run: seq<System>, events: seq<Happening>, i: nat)
    requires IsHistory(run, events) && i < |events| && run[i].view.Some?
    ensures run[i + 1].view.Some? && SaysExactly(run[i].view.value, run[i + 1].view.value, LostIn(run[i], events[i]))
  {
    hide Inv, Next, CanHappen, SaysExactly;
    HistoryKeeps(run, events, i);
    EventSays(run[i], events[i]);
  }

  /** A view of a manager that is not ready yet misses the accounts that become complete: it keeps
      agreeing exactly if the manager is ready. */
  lemma EntryIsSeenIff(v: View, m: AM.Manager, matching: set<Account>, account: Account)
    requires AM.Inv(m) && account in m.operations && account.path in m.incomplete
    requires Agrees(v, m.accounts, matching) && Followed(v)
    ensures var e := AM.Finished(account, true);
            Agrees(AfterManagerEvent(v, m, matching, e), AM.Step(m, e).accounts, matching) <==> m.ready
  {
    var e := AM.Finished(account, true);
    assert account.path !in m.accounts && OwnPaths(m.accounts) && account.path in AM.Step(m, e).accounts by {
      hide AM.Logged, AM.Accounted;
    }
    if m.ready {
      AccountsAfter(m, e);
      hide AM.Inv, AM.Step, Followed, Refiltered;
      InsertKeeps(v, m.accounts, matching, account);
    }
  }

  // ---------------------------------------------------------------- the object

  class AccountSetPrivate {
    var wrappers: map<Path, Account>
    var accounts: map<Path, Account>
    var ready: bool

    ghost var initial: set<Account>
    ghost var emitted: seq<Signal>

    ghost function State(): View
      reads this
    {
      View(wrappers, accounts, initial, emitted)
    }

    constructor (allAccounts: map<Path, Account>, matching: set<Account>)
      requires OwnPaths(allAccounts)
      ensures State() == Created(allAccounts, matching) && ready
    {
      wrappers, accounts, ready, initial, emitted := map[], map[], false, {}, [];
      new;
      InsertAccounts(allAccounts, matching);
      ready, initial := true, accounts.Values;
    }

    method InsertAccounts(allAccounts: map<Path, Account>, matching: set<Account>)
      requires OwnPaths(allAccounts) && wrappers == map[] && accounts == map[] && !ready
      modifies `wrappers, `accounts, `emitted
      ensures wrappers == allAccounts && accounts == Filtered(allAccounts, matching) && emitted == old(emitted)
    {
      var rest := allAccounts.Keys;
      while rest != {}
        invariant rest <= allAccounts.Keys
        invariant wrappers == allAccounts - rest
        invariant accounts == Filtered(wrappers, matching)
        invariant emitted == old(emitted)
        decreases |rest|
      {
        var path :| path in rest;
        rest := rest - {path};
        InsertAccount(allAccounts[path], matching);
      }
    }

    /** The asserted condition of insertAccount is its precondition. */
    method InsertAccount(account: Account, matching: set<Account>)
      requires account.path !in wrappers
      modifies `wrappers, `accounts, `emitted
      ensures State() == Inserted(old(State()), matching, account, ready)
    {
      wrappers := wrappers[account.path := account];
      FilterAccount(account, matching);
    }

    method FilterAccount(account: Account, matching: set<Account>)
      requires account.path in wrappers
      modifies `accounts, `emitted
      ensures State() == Refiltered(old(State()), matching, account, ready)
    {
      if account in matching {
        if account.path !in accounts {
          accounts := accounts[account.path := account];
          if ready {
            emitted := emitted + [Added(account)];
          }
        }
      } else {
        if account.path in accounts {
          accounts := accounts - {account.path};
          if ready {
            emitted := emitted + [Gone(account)];
          }
        }
      }
    }

    method RemoveAccount(account: Account)
      requires account.path in wrappers
      modifies `wrappers, `accounts, `emitted
      ensures State() == WithoutAccount(old(State()), account)
    {
      accounts := accounts - {account.path};
      wrappers := wrappers - {account.path};
      emitted := emitted + [Gone(account)];
    }
  }
}
