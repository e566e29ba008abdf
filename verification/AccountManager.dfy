/**
 The account manager: accounts being made ready, accounts that are, and the completion of
 FeatureCore, which waits for the accounts known at first.
 */
module AccountManager {
  import opened Handles

  type Path = string

  const MAX_REINTROSPECTION_RETRIES: nat := 5

  /** An account object, as handed out by the account factory for a path. */
  datatype Account = Account(path: Path, id: nat)

  /** What the manager's properties list: the accounts usable at present, and the others. */
  datatype Listing = Listing(valid: seq<Account>, invalid: seq<Account>) {
    function All(): seq<Account> {
      valid + invalid
    }
  }

  /** An account entering the list of complete accounts, told or not, or leaving it. */
  datatype Entry = Entered(path: Path, told: bool) | Left(path: Path)

  datatype Manager = Manager(
    retries: nat,
    gotInitial: bool,
    incomplete: map<Path, Account>,
    accounts: map<Path, Account>,
    ready: bool,                 // FeatureCore is ready
    operations: multiset<Account>,// account objects being made ready
    asking: bool,                // a GetAll call awaits its reply
    resting: bool,               // a timer will make the next call
    asked: nat,                  // GetAll calls made so far
    reports: seq<bool>,          // every report of FeatureCore
    log: seq<Entry>,             // every change of the complete accounts
    snapshot: set<Path>,         // the complete accounts when FeatureCore became ready
    heard: seq<Entry>,           // the changes since then
    wanted: set<Path>,           // the accounts the service has, as far as it told
    failed: set<Path>)           // wanted accounts given up because making one ready failed

  const NEW_MANAGER := Manager(0, false, map[], map[], false, multiset{}, true, false, 1, [], [], {}, [], {}, {})

  // ---------------------------------------------------------------- accounts

  function AddAccount(m: Manager, account: Account): Manager {
    var n := m.(wanted := m.wanted + {account.path});
    if account.path in m.accounts || account.path in m.incomplete then n
    else n.(incomplete := m.incomplete[account.path := account],
            operations := m.operations + multiset{account},
            failed := m.failed - {account.path})
  }

  /** The accounts of a list of paths, added one by one. */
  function AddEach(m: Manager, found: seq<Account>): Manager
    decreases |found|
  {
    if found == [] then m else AddAccount(AddEach(m, found[..|found| - 1]), found[|found| - 1])
  }

  function Enter(m: Manager, account: Account): Manager {
    var e := Entered(account.path, m.ready);
    m.(accounts := m.accounts[account.path := account], log := m.log + [e],
       heard := if m.ready then m.heard + [e] else m.heard)
  }

  function Leave(m: Manager, path: Path): Manager {
    m.(accounts := m.accounts - {path}, log := m.log + [Left(path)],
       heard := if m.ready then m.heard + [Left(path)] else m.heard)
  }

  /** FeatureCore completes once no account is being made ready. */
  function CheckIntrospection(m: Manager): Manager {
    if !m.ready && m.incomplete == map[] then
      m.(ready := true, reports := m.reports + [true], snapshot := m.accounts.Keys, heard := [])
    else m
  }

  // ---------------------------------------------------------------- events

  /** The reply to GetAll: the accounts it lists, or an error. */
  function AfterMainProperties(m: Manager, reply: Option<Listing>): Manager {
    var n := m.(asking := false);
    if reply.Some? then
      CheckIntrospection(AddEach(n.(gotInitial := true), reply.value.All()))
    else if m.retries < MAX_REINTROSPECTION_RETRIES then n.(retries := n.retries + 1, resting := true)
    else n.(retries := n.retries + 1, reports := n.reports + [false])
  }

  function Retry(m: Manager): Manager {
    m.(resting := false, asking := true, asked := m.asked + 1)
  }

  /** The manager without a ready operation and the account it was for. */
  function Without(m: Manager, account: Account): Manager {
    m.(operations := m.operations - multiset{account}, incomplete := m.incomplete - {account.path})
  }

  /** A ready operation finished; it may be for an account that was removed, or added again since. */
  function AfterReady(m: Manager, account: Account, ok: bool): Manager {
    var path := account.path;
    var n := Without(m, account);
    if !ok || path !in m.incomplete then
      CheckIntrospection(n.(failed := if path in m.incomplete then n.failed + {path} else n.failed))
    else
      CheckIntrospection(Enter(n, account))
  }

  function AfterValidityChange(m: Manager, account: Account): Manager {
    if m.gotInitial then AddAccount(m, account) else m
  }

  function AfterRemoval(m: Manager, path: Path): Manager {
    if !m.gotInitial then m
    else
      var n := m.(wanted := m.wanted - {path}, failed := m.failed - {path});
      if path in m.accounts then Leave(n, path)
      else n.(incomplete := n.incomplete - {path})
  }

  datatype Event =
    | MainReply(reply: Option<Listing>)
    | TimerFired
    | Finished(account: Account, ok: bool)
    | ValidityChanged(account: Account)
    | Removed(path: Path)

  predicate Enabled(m: Manager, e: Event) {
    match e
    case MainReply(_) => m.asking
    case TimerFired => m.resting
    case Finished(account, _) => account in m.operations
    case ValidityChanged(_) => true
    case Removed(_) => true
  }

  function Step(m: Manager, e: Event): Manager
    requires Enabled(m, e)
  {
    match e
    case MainReply(reply) => AfterMainProperties(m, reply)
    case TimerFired => Retry(m)
    case Finished(account, ok) => AfterReady(m, account, ok)
    case ValidityChanged(account) => AfterValidityChange(m, account)
    case Removed(path) => AfterRemoval(m, path)
  }

  ghost predicate IsRun(run: seq<Manager>, events: seq<Event>) {
    && |run| == |events| + 1
    && run[0] == NEW_MANAGER
    && forall i :: 0 <= i < |events| ==> Enabled(run[i], events[i]) && run[i + 1] == Step(run[i], events[i])
  }

  // ---------------------------------------------------------------- what every event keeps

  function After(present: set<Path>, e: Entry): set<Path> {
    if e.Entered? then present + {e.path} else present - {e.path}
  }

  /** Nobody enters who is in, or leaves who is not. */
  predicate Fits(present: set<Path>, e: Entry) {
    if e.Entered? then e.path !in present else e.path in present
  }

  /** Who is in after a sequence of changes. */
  function Present(start: set<Path>, entries: seq<Entry>): set<Path>
    decreases |entries|
  {
    if entries == [] then start else After(Present(start, entries[..|entries| - 1]), entries[|entries| - 1])
  }

  /** For every path, entering and leaving alternate. */
  predicate Alternates(start: set<Path>, entries: seq<Entry>)
    decreases |entries|
  {
    entries != [] ==>
      && Alternates(start, entries[..|entries| - 1])
      && Fits(Present(start, entries[..|entries| - 1]), entries[|entries| - 1])
  }

  predicate Tables(m: Manager) {
    && m.incomplete.Keys !! m.accounts.Keys
    && (forall p :: p in m.incomplete ==> m.incomplete[p].path == p && IsBeingMadeReady(m, p))
    && (forall p :: p in m.accounts ==> m.accounts[p].path == p)
    && (!m.gotInitial ==> m.operations == multiset{} && m.accounts == map[] && m.wanted == {})
  }

  predicate IsBeingMadeReady(m: Manager, path: Path) {
    exists a :: a in m.operations && a.path == path
  }

  /** Every wanted account is complete, being made ready, or given up after a failure. */
  predicate Accounted(m: Manager) {
    && m.wanted == m.accounts.Keys + m.incomplete.Keys + m.failed
    && m.failed !! m.accounts.Keys + m.incomplete.Keys
  }

  /** The log and what a listener heard since readiness both tell who is complete. */
  predicate Logged(m: Manager) {
    && Alternates({}, m.log) && Present({}, m.log) == m.accounts.Keys
    && (m.ready ==> Alternates(m.snapshot, m.heard) && Present(m.snapshot, m.heard) == m.accounts.Keys)
    && (forall i :: 0 <= i < |m.heard| && m.heard[i].Entered? ==> m.heard[i].told)
  }

  /** At most six calls are made, one at a time, until one succeeds. */
  predicate Asking(m: Manager) {
    && m.asked <= MAX_REINTROSPECTION_RETRIES + 1
    && !(m.asking && m.resting)
    && (m.asking ==> !m.gotInitial && m.asked == m.retries + 1)
    && (m.resting ==> !m.gotInitial && m.asked == m.retries <= MAX_REINTROSPECTION_RETRIES)
  }

  /** Success means the initial list was received; until it is reported, something is awaited. */
  predicate Core(m: Manager) {
    && (m.ready ==> m.gotInitial && m.reports == [true])
    && (!m.ready && m.gotInitial ==> m.reports == [] && m.operations != multiset{})
    && (!m.gotInitial ==> m.reports == if m.asking || m.resting then [] else [false])
  }

  ghost predicate Inv(m: Manager) {
    Tables(m) && Accounted(m) && Logged(m) && Asking(m) && Core(m)
  }

  lemma OneMore(start: set<Path>, entries: seq<Entry>, e: Entry)
    requires Alternates(start, entries) && Fits(Present(start, entries), e)
    ensures Alternates(start, entries + [e])
    ensures Present(start, entries + [e]) == After(Present(start, entries), e)
  {
    assert (entries + [e])[..|entries|] == entries;
  }

  lemma EnterKeeps(m: Manager, account: Account)
    requires Logged(m) && account.path !in m.accounts
    ensures Logged(Enter(m, account))
  {
    OneMore({}, m.log, Entered(account.path, m.ready));
    if m.ready {
      OneMore(m.snapshot, m.heard, Entered(account.path, m.ready));
    }
    hide Alternates, Present;
  }

  lemma LeaveKeeps(m: Manager, path: Path)
    requires Logged(m) && path in m.accounts
    ensures Logged(Leave(m, path))
  {
    OneMore({}, m.log, Left(path));
    if m.ready {
      OneMore(m.snapshot, m.heard, Left(path));
    }
    hide Alternates, Present;
  }

  /** The tables alone: what adding and removing accounts keeps. */
  ghost predicate Kept(m: Manager) {
    Tables(m) && Accounted(m) && Logged(m)
  }

  lemma AddKeeps(m: Manager, account: Account)
    requires Kept(m) && m.gotInitial
    ensures Kept(AddAccount(m, account)) && OnlyAccounts(m, AddAccount(m, account))
  {
    var n := AddAccount(m, account);
    LoggedIgnoresAsking(m, n);
    AddAccounts(m, account);
    hide Logged, Accounted;
    assert Tables(n) by {
      hide AddAccount;
      AddOperates(m, account);
    }
  }

  lemma AddAccounts(m: Manager, account: Account)
    requires Accounted(m)
    ensures Accounted(AddAccount(m, account))
  {
  }

  lemma AddOperates(m: Manager, account: Account)
    requires Tables(m) && m.gotInitial
    ensures Tables(AddAccount(m, account))
  {
    hide IsBeingMadeReady;
    var n := AddAccount(m, account);
    forall p | p in n.incomplete ensures IsBeingMadeReady(n, p) && n.incomplete[p].path == p {
      AddOperatesOn(m, account, p);
    }
  }

  lemma AddOperatesOn(m: Manager, account: Account, p: Path)
    requires Tables(m) && p in AddAccount(m, account).incomplete
    ensures var n := AddAccount(m, account); IsBeingMadeReady(n, p) && n.incomplete[p].path == p
  {
    hide IsBeingMadeReady;
    if p in m.incomplete {
      MoreOperations(m, AddAccount(m, account), p);
    } else {
      IsOperated(AddAccount(m, account), account);
    }
  }

  lemma MoreOperations(m: Manager, n: Manager, path: Path)
    requires IsBeingMadeReady(m, path)
    requires forall a :: a in m.operations && a.path == path ==> a in n.operations
    ensures IsBeingMadeReady(n, path)
  {
  }

  lemma IsOperated(m: Manager, account: Account)
    requires account in m.operations
    ensures IsBeingMadeReady(m, account.path)
  {
  }

  /** Nothing but the accounts being made ready, and what is wanted, changes. */
  predicate OnlyAccounts(m: Manager, n: Manager) {
    n == m.(incomplete := n.incomplete, operations := n.operations, wanted := n.wanted, failed := n.failed)
  }

  lemma {:induction false} AddEachKeeps(m: Manager, found: seq<Account>)
    requires Kept(m) && m.gotInitial
    ensures Kept(AddEach(m, found)) && OnlyAccounts(m, AddEach(m, found))
    decreases |found|
  {
    hide Kept, AddAccount;
    if found == [] {
    } else {
      AddEachKeeps(m, found[..|found| - 1]);
      AddKeeps(AddEach(m, found[..|found| - 1]), found[|found| - 1]);
    }
  }

  /** With accounts in their tables, checking for completion leaves something to wait for. */
  lemma CheckKeeps(m: Manager)
    requires Kept(m) && Asking(m) && m.gotInitial
    requires if m.ready then m.reports == [true] else m.reports == []
    ensures Inv(CheckIntrospection(m))
  {
    var n := CheckIntrospection(m);
    if !m.ready && m.incomplete != map[] {
      var p :| p in m.incomplete;
      assert IsBeingMadeReady(m, p);
    }
    assert Logged(n) by {
      assert Present(m.accounts.Keys, []) == m.accounts.Keys;
    }
    hide Logged;
  }

  lemma MainReplyKeeps(m: Manager, reply: Option<Listing>)
    requires Inv(m) && m.asking
    ensures Inv(AfterMainProperties(m, reply))
  {
    hide Logged;
    LoggedIgnoresAsking(m, AfterMainProperties(m, None));
    if reply.Some? {
      var n := m.(asking := false, gotInitial := true);
      LoggedIgnoresAsking(m, n);
      AddEachKeeps(n, reply.value.All());
      hide Kept, AddEach;
      CheckKeeps(AddEach(n, reply.value.All()));
    }
  }

  lemma LoggedIgnoresAsking(m: Manager, n: Manager)
    requires n == m.(asking := n.asking, resting := n.resting, gotInitial := n.gotInitial, retries := n.retries,
                     asked := n.asked, reports := n.reports, operations := n.operations, incomplete := n.incomplete,
                     wanted := n.wanted, failed := n.failed)
    ensures Logged(n) == Logged(m)
  {
  }

  lemma FinishedTables(m: Manager, account: Account)
    requires Tables(m) && account in m.operations
    ensures Tables(Without(m, account))
  {
    var n := Without(m, account);
    hide IsBeingMadeReady;
    forall p | p in n.incomplete ensures IsBeingMadeReady(n, p) {
      MoreOperations(m, n, p);
    }
  }

  lemma GivenUpKeeps(m: Manager, account: Account)
    requires Inv(m) && account in m.operations
    ensures var n := Without(m, account);
            Kept(n.(failed := if account.path in m.incomplete then n.failed + {account.path} else n.failed))
  {
    var n := Without(m, account);
    var f := n.(failed := if account.path in m.incomplete then n.failed + {account.path} else n.failed);
    FinishedTables(m, account);
    LoggedIgnoresAsking(m, f);
    assert Tables(f) by {
      StillOperated(n, f);
    }
    hide Logged, Tables, Core, Asking;
  }

  lemma EnteredKeeps(m: Manager, account: Account)
    requires Inv(m) && account in m.operations && account.path in m.incomplete
    ensures Kept(Enter(Without(m, account), account))
  {
    var n, e := Without(m, account), Enter(Without(m, account), account);
    FinishedTables(m, account);
    LoggedIgnoresAsking(m, n);
    assert account.path !in m.accounts;
    EnterKeeps(n, account);
    assert Tables(e) by {
      StillOperated(n, e);
      hide IsBeingMadeReady, Logged, Accounted;
    }
    hide Logged, Tables, Core, Asking;
  }

  /** The assertion against inserting an account twice holds, whatever stale operations finish. */
  lemma TablesApart(m: Manager)
    requires Inv(m)
    ensures m.incomplete.Keys !! m.accounts.Keys
    ensures forall a :: Without(m, a).accounts == m.accounts
  {
  }

  lemma FinishedKeeps(m: Manager, account: Account, ok: bool)
    requires Inv(m) && account in m.operations
    ensures Inv(AfterReady(m, account, ok))
    ensures ok && account.path in m.incomplete ==> account.path !in m.accounts
  {
    assert m.gotInitial;
    if !ok || account.path !in m.incomplete {
      GivenUpKeeps(m, account);
      hide Kept;
      var n := Without(m, account);
      CheckKeeps(n.(failed := if account.path in m.incomplete then n.failed + {account.path} else n.failed));
    } else {
      EnteredKeeps(m, account);
      hide Kept;
      CheckKeeps(Enter(Without(m, account), account));
    }
  }

  lemma RemovalKeeps(m: Manager, path: Path)
    requires Inv(m)
    ensures Inv(AfterRemoval(m, path))
  {
    if m.gotInitial {
      var n := m.(wanted := m.wanted - {path}, failed := m.failed - {path});
      LoggedIgnoresAsking(m, n);
      StillOperated(m, AfterRemoval(m, path));
      RemovalAccounts(m, path);
      if path in m.accounts {
        LeaveKeeps(n, path);
      } else {
        LoggedIgnoresAsking(n, n.(incomplete := n.incomplete - {path}));
      }
      hide IsBeingMadeReady, Logged, Accounted;
    }
  }

  lemma RemovalAccounts(m: Manager, path: Path)
    requires Tables(m) && Accounted(m) && m.gotInitial
    ensures Accounted(AfterRemoval(m, path))
  {
    hide IsBeingMadeReady;
  }

  lemma StillOperated(m: Manager, n: Manager)
    requires n.operations == m.operations && n.incomplete.Keys <= m.incomplete.Keys
    requires forall p :: p in m.incomplete ==> IsBeingMadeReady(m, p)
    ensures forall p :: p in n.incomplete ==> IsBeingMadeReady(n, p)
  {
  }

  lemma StepKeeps(m: Manager, e: Event)
    requires Inv(m) && Enabled(m, e)
    ensures Inv(Step(m, e))
  {
    match e
    case MainReply(reply) => MainReplyKeeps(m, reply);
    case TimerFired => LoggedIgnoresAsking(m, Retry(m)); hide Logged;
    case Finished(account, ok) => FinishedKeeps(m, account, ok);
    case ValidityChanged(account) =>
      if m.gotInitial {
        AddKeeps(m, account);
        hide Logged, Tables, Accounted;
      }
    case Removed(path) => RemovalKeeps(m, path);
  }

  /** Every state of every run.  In particular the list of complete accounts is what the service has
      less those given up, and until readiness is reported something is still awaited. */
  lemma {:induction false} RunKeeps(run: seq<Manager>, events: seq<Event>, i: nat)
    requires IsRun(run, events) && i < |run|
    ensures Inv(run[i])
  {
    hide Inv, Step, Enabled;
    if i == 0 {
      StartsEmpty();
    } else {
      RunKeeps(run, events, i - 1);
      StepKeeps(run[i - 1], events[i - 1]);
    }
  }

  lemma StartsEmpty()
    ensures Inv(NEW_MANAGER)
  {
  }

  /** An account made ready is lost exactly if an operation for its path failed since it was added,
      even one for an account removed before. */
  lemma ReadyAccountIsLostIff(m: Manager, account: Account)
    requires Inv(m) && account in m.operations && account.path in m.wanted && account.path !in m.accounts
    ensures account.path !in AfterReady(m, account, true).accounts <==> account.path in m.failed
  {
    hide Tables, Logged;
  }

  const READDED := [MainReply(Some(Listing([Account("a", 1)], []))), Removed("a"), ValidityChanged(Account("a", 2)),
                    Finished(Account("a", 1), false)]

  /** Such a run: the account was added again, but the old operation's failure gives it up. */
  lemma StaleFailureGivesUp()
    ensures exists run: seq<Manager> ::
              && IsRun(run, READDED)
              && Account("a", 2) in run[4].operations && "a" in run[4].wanted && "a" in run[4].failed
  {
    var m1 := Listed();
    var m2 := Step(m1, READDED[1]);
    var m3 := Step(m2, READDED[2]);
    AddedAgain(m1);
    var m4 := Step(m3, READDED[3]);
    assert IsRun([NEW_MANAGER, m1, m2, m3, m4], READDED) by {
      hide Step;
    }
  }

  lemma Listed() returns (m: Manager)
    ensures m == Step(NEW_MANAGER, READDED[0])
    ensures m.gotInitial && m.accounts == map[] && m.operations == multiset{Account("a", 1)}
  {
    m := Step(NEW_MANAGER, READDED[0]);
    var n := NEW_MANAGER.(asking := false, gotInitial := true);
    assert [Account("a", 1)][..0] == [] && Listing([Account("a", 1)], []).All() == [Account("a", 1)];
    assert AddEach(n, [Account("a", 1)]) == AddAccount(n, Account("a", 1));
  }

  lemma AddedAgain(m: Manager)
    requires m.gotInitial && m.accounts == map[] && m.operations == multiset{Account("a", 1)}
    ensures var m3 := Step(Step(m, READDED[1]), READDED[2]);
            && m3.incomplete.Keys >= {"a"} && "a" in m3.wanted
            && m3.operations == multiset{Account("a", 1), Account("a", 2)}
  {
  }

  lemma {:induction false} PrefixAlternates(start: set<Path>, entries: seq<Entry>, n: nat)
    requires Alternates(start, entries) && n <= |entries|
    ensures Alternates(start, entries[..n])
    ensures n < |entries| ==> Fits(Present(start, entries[..n]), entries[n])
    decreases |entries|
  {
    if n == |entries| {
      assert entries[..n] == entries;
    } else {
      var rest := entries[..|entries| - 1];
      assert entries[..n] == rest[..n];
      PrefixAlternates(start, rest, n);
      if n == |rest| {
        assert rest[..n] == rest;
      }
    }
  }

  /** An account is announced as new a second time only after it was removed in between. */
  lemma {:induction false} EntersAgainOnlyAfterLeaving(start: set<Path>, entries: seq<Entry>, path: Path,
                                                       i: nat, j: nat)
    requires Alternates(start, entries) && i < j < |entries|
    requires entries[i].Entered? && entries[i].path == path
    requires entries[j].Entered? && entries[j].path == path
    ensures exists k :: i < k < j && entries[k] == Left(path)
  {
    PrefixAlternates(start, entries, j);
    PrefixAlternates(start, entries, i);
    if forall k :: i < k < j ==> entries[k] != Left(path) {
      StaysIn(start, entries, path, i, j);
      assert false;
    }
  }

  lemma {:induction false} StaysIn(start: set<Path>, entries: seq<Entry>, path: Path, i: nat, j: nat)
    requires i < j <= |entries| && entries[i].Entered? && entries[i].path == path
    requires forall k :: i < k < j ==> entries[k] != Left(path)
    ensures path in Present(start, entries[..j])
    decreases j
  {
    assert entries[..j][..j - 1] == entries[..j - 1];
    if i < j - 1 {
      StaysIn(start, entries, path, i, j - 1);
      assert entries[j - 1] != Left(path);
    }
  }

  // ---------------------------------------------------------------- the object

  class AccountManagerPrivate {
    var reintrospectionRetries: nat
    var gotInitialAccounts: bool
    var incompleteAccounts: map<Path, Account>
    var accounts: map<Path, Account>
    var ready: bool

    ghost var operations: multiset<Account>
    ghost var asking: bool
    ghost var resting: bool
    ghost var asked: nat
    ghost var reports: seq<bool>
    ghost var log: seq<Entry>
    ghost var snapshot: set<Path>
    ghost var heard: seq<Entry>
    ghost var wanted: set<Path>
    ghost var failed: set<Path>

    ghost function State(): Manager
      reads this
    {
      Manager(reintrospectionRetries, gotInitialAccounts, incompleteAccounts, accounts, ready, operations, asking,
              resting, asked, reports, log, snapshot, heard, wanted, failed)
    }

    constructor ()
      ensures State() == NEW_MANAGER
    {
      reintrospectionRetries, gotInitialAccounts, incompleteAccounts, accounts, ready := 0, false, map[], map[], false;
      operations, asking, resting, asked, reports := multiset{}, true, false, 1, [];
      log, snapshot, heard, wanted, failed := [], {}, [], {}, {};
    }

    method AddAccountForPath(account: Account)
      modifies this
      ensures State() == AddAccount(old(State()), account)
    {
      wanted := wanted + {account.path};
      if account.path in accounts || account.path in incompleteAccounts {
        return;
      }
      operations, failed := operations + multiset{account}, failed - {account.path};
      incompleteAccounts := incompleteAccounts[account.path := account];
    }

    method CheckIntrospectionCompleted()
      modifies this
      ensures State() == CheckIntrospection(old(State()))
    {
      if !ready && incompleteAccounts == map[] {
        ready := true;
        reports, snapshot, heard := reports + [true], accounts.Keys, [];
      }
    }

    method AddAccountsForPaths(found: seq<Account>)
      modifies this
      ensures State() == AddEach(old(State()), found)
    {
      ghost var m := State();
      for i := 0 to |found|
        invariant State() == AddEach(m, found[..i])
      {
        assert found[..i + 1][..i] == found[..i];
        AddAccountForPath(found[i]);
      }
      assert found[..|found|] == found;
    }

    /** The reply lists the factory's account objects for the paths. */
    method GotMainProperties(reply: Option<Listing>)
      modifies this
      ensures State() == AfterMainProperties(old(State()), reply)
    {
      hide CheckIntrospection, AddEach;
      asking := false;
      if reply.Some? {
        gotInitialAccounts := true;
        AddAccountsForPaths(reply.value.All());
        CheckIntrospectionCompleted();
      } else {
        var retriesBefore := reintrospectionRetries;
        reintrospectionRetries := reintrospectionRetries + 1;
        if retriesBefore < MAX_REINTROSPECTION_RETRIES {
          resting := true;
        } else {
          reports := reports + [false];
        }
      }
    }

    method OnAccountReady(account: Account, ok: bool)
      requires Inv(State()) && account in operations
      modifies this
      ensures State() == AfterReady(old(State()), account, ok)
    {
      TablesApart(State());
      hide Inv, CheckIntrospection, Enter, Without;
      var path := account.path;
      if !ok || path !in incompleteAccounts {
        GiveUp(account);
        CheckIntrospectionCompleted();
        return;
      }
      EndOperation(account);
      assert path !in accounts;
      InsertAccount(account);
      CheckIntrospectionCompleted();
    }

    method EndOperation(account: Account)
      modifies `incompleteAccounts, `operations
      ensures State() == Without(old(State()), account)
    {
      operations := operations - multiset{account};
      incompleteAccounts := incompleteAccounts - {account.path};
    }

    method GiveUp(account: Account)
      modifies `incompleteAccounts, `operations, `failed
      ensures var path, n := account.path, Without(old(State()), account);
              State() == n.(failed := if path in old(incompleteAccounts) then n.failed + {path} else n.failed)
    {
      failed := if account.path in incompleteAccounts then failed + {account.path} else failed;
      EndOperation(account);
    }

    /** The account is complete; once the manager is ready, it is announced. */
    method InsertAccount(account: Account)
      modifies `accounts, `log, `heard
      ensures State() == Enter(old(State()), account)
    {
      accounts := accounts[account.path := account];
      log := log + [Entered(account.path, ready)];
      if ready {
        heard := heard + [Entered(account.path, ready)];
      }
    }

    method OnAccountValidityChanged(account: Account)
      modifies this
      ensures State() == AfterValidityChange(old(State()), account)
    {
      if !gotInitialAccounts {
        return;
      }
      if account.path !in incompleteAccounts && account.path !in accounts {
        AddAccountForPath(account);
      } else {
        wanted := wanted + {account.path};
      }
    }

    method OnAccountRemoved(path: Path)
      modifies this
      ensures State() == AfterRemoval(old(State()), path)
    {
      if !gotInitialAccounts {
        return;
      }
      wanted, failed := wanted - {path}, failed - {path};
      if path in accounts {
        accounts := accounts - {path};
        log := log + [Left(path)];
        if ready {
          heard := heard + [Left(path)];
        }
      } else if path in incompleteAccounts {
        incompleteAccounts := incompleteAccounts - {path};
      } else {
        assert incompleteAccounts - {path} == incompleteAccounts;
      }
    }
  }
}
