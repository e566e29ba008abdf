/** Registering clients on the bus: well-known names, object paths, and the tables that tie them. */
module ClientRegistrar {
  import opened Handles

  // ---------------------------------------------------------------- names and paths

  const CLIENT_PREFIX := "org.freedesktop.Telepathy.Client."

  function Replace(s: string, from: char, to: char): (r: string)
    ensures |r| == |s|
    ensures forall i :: 0 <= i < |s| ==> r[i] == if s[i] == from then to else s[i]
  {
    seq(|s|, i requires 0 <= i < |s| => if s[i] == from then to else s[i])
  }

  /** The bus name of a client; a unique one also names the bus connection and the client object. */
  function BusName(clientName: string, suffix: Option<string>): string {
    CLIENT_PREFIX + clientName + (if suffix.Some? then "." + suffix.value else "")
  }

  function ObjectPath(busName: string): string {
    Replace("/" + busName, '.', '/')
  }

  /** The bus name as unregistering works it out again. */
  function NameOf(objectPath: string): string {
    Replace(objectPath[if objectPath == "" then 0 else 1..], '/', '.')
  }

  /** Names survive the round trip through object paths exactly if they hold no slash. */
  lemma RoundTripIff(name: string)
    ensures NameOf(ObjectPath(name)) == name <==> '/' !in name
  {
    var path := ObjectPath(name);
    assert path[1..] == Replace(name, '.', '/');
    if '/' in name {
      var i :| 0 <= i < |name| && name[i] == '/';
      assert NameOf(path)[i] == '.';
    }
  }

  // ---------------------------------------------------------------- the registrar

  const HANDLER := "org.freedesktop.Telepathy.Client.Handler"
  const REQUESTS := "org.freedesktop.Telepathy.Client.Interface.Requests"
  const OBSERVER := "org.freedesktop.Telepathy.Client.Observer"
  const APPROVER := "org.freedesktop.Telepathy.Client.Approver"

  /** A client object and the interfaces it implements. */
  datatype Client = Client(id: nat, handler: bool, observer: bool, approver: bool, wantsRequests: bool)

  /** The object exported for a client, with the interfaces it offers. */
  datatype Exported = Exported(client: Client, interfaces: seq<string>)

  datatype Registrar = Registrar(
    clients: map<Client, string>,
    clientObjects: map<Client, Exported>,
    services: set<string>,
    owned: set<string>,        // names this registrar owns on the bus
    paths: set<string>,        // paths at which it exports an object
    flagged: set<Client>)      // handlers told that they are registered

  const NO_CLIENTS := Registrar(map[], map[], {}, {}, {}, {})

  function Interfaces(c: Client): seq<string> {
    (if c.handler then [HANDLER] + (if c.wantsRequests then [REQUESTS] else []) else [])
    + (if c.observer then [OBSERVER] else [])
    + (if c.approver then [APPROVER] else [])
  }

  /** What registering does, given what the bus says to the name and to the object. */
  function Register(r: Registrar, client: Option<Client>, name: string, granted: bool, exported: bool)
    : (Registrar, bool)
  {
    if client.None? then (r, false)
    else if client.value in r.clients then (r, true)
    else if name in r.services || !granted || Interfaces(client.value) == [] || !exported then (r, false)
    else
      var c := client.value;
      (Registrar(r.clients[c := ObjectPath(name)], r.clientObjects[c := Exported(c, Interfaces(c))],
                 r.services + {name}, r.owned + {name}, r.paths + {ObjectPath(name)},
                 if c.handler then r.flagged + {c} else r.flagged), true)
  }

  function Unregister(r: Registrar, c: Client): (Registrar, bool) {
    if c !in r.clients then (r, false)
    else
      var path := r.clients[c];
      (Registrar(r.clients - {c}, r.clientObjects - {c}, r.services - {NameOf(path)}, r.owned - {NameOf(path)},
                 r.paths - {path}, if c.handler then r.flagged - {c} else r.flagged), true)
  }

  // ---------------------------------------------------------------- what registering keeps

  /** Each client's path stands for a name of its own. */
  predicate OwnNames(clients: map<Client, string>) {
    && (forall c :: c in clients ==> '/' !in NameOf(clients[c]) && ObjectPath(NameOf(clients[c])) == clients[c])
    && (forall c, d :: c in clients && d in clients && clients[c] == clients[d] ==> c == d)
  }

  /** The names the stored paths stand for. */
  function Names(clients: map<Client, string>): set<string> {
    set c | c in clients :: NameOf(clients[c])
  }

  predicate Inv(r: Registrar) {
    && OwnNames(r.clients)
    && r.clientObjects.Keys == r.clients.Keys
    && (forall c :: c in r.clientObjects ==> r.clientObjects[c] == Exported(c, Interfaces(c)) && Interfaces(c) != [])
    && r.services == Names(r.clients)
    && r.owned == r.services
    && r.paths == r.clients.Values
    && r.flagged == set c | c in r.clients && c.handler
  }

  /** A name not taken is not the name of any stored path, and its path is new. */
  lemma NewPath(clients: map<Client, string>, name: string)
    requires OwnNames(clients) && '/' !in name && name !in Names(clients)
    ensures forall c :: c in clients ==> clients[c] != ObjectPath(name)
  {
    RoundTripIff(name);
    forall c | c in clients ensures clients[c] != ObjectPath(name) {
      assert NameOf(clients[c]) in Names(clients);
    }
  }

  lemma RegisterKeeps(r: Registrar, client: Option<Client>, name: string, granted: bool, exported: bool)
    requires Inv(r) && '/' !in name
    ensures var (n, ok) := Register(r, client, name, granted, exported);
            && Inv(n)
            && (ok ==> client.Some? && client.value in n.clients)
            && (!ok ==> n == r)
  {
    hide OwnNames, ObjectPath, NameOf, Names, Interfaces;
    var n := Register(r, client, name, granted, exported).0;
    if n != r {
      var c := client.value;
      assert n.clients == r.clients[c := ObjectPath(name)];
      JoinsOwnName(r.clients, c, name);
      JoinedNames(r.clients, c, name);
    }
  }

  lemma JoinsOwnName(clients: map<Client, string>, c: Client, name: string)
    requires OwnNames(clients) && '/' !in name && name !in Names(clients)
    ensures OwnNames(clients[c := ObjectPath(name)])
  {
    NewPath(clients, name);
    RoundTripIff(name);
    hide NameOf, ObjectPath, Names;
  }

  lemma JoinedNames(clients: map<Client, string>, c: Client, name: string)
    requires c !in clients && '/' !in name
    ensures var n := clients[c := ObjectPath(name)];
            Names(n) == Names(clients) + {name} && n.Values == clients.Values + {ObjectPath(name)}
  {
    var n := clients[c := ObjectPath(name)];
    RoundTripIff(name);
    assert n[c] == ObjectPath(name);
    forall x | x in Names(clients) ensures x in Names(n) {
      var d :| d in clients && NameOf(clients[d]) == x;
      assert n[d] == clients[d];
    }
    forall v | v in clients.Values ensures v in n.Values {
      var d :| d in clients && clients[d] == v;
      assert n[d] == v;
    }
  }

  lemma UnregisterKeeps(r: Registrar, c: Client)
    requires Inv(r)
    ensures Inv(Unregister(r, c).0)
    ensures Unregister(r, c).1 == (c in r.clients) && Unregister(r, c).0.clients == r.clients - {c}
  {
    if c in r.clients {
      PartedNames(r.clients, c);
      PartedOwnNames(r.clients, c);
      hide OwnNames, NameOf, ObjectPath, Names, Interfaces;
    } else {
      assert r.clients - {c} == r.clients;
    }
  }

  lemma PartedOwnNames(clients: map<Client, string>, c: Client)
    requires OwnNames(clients)
    ensures OwnNames(clients - {c})
  {
    hide NameOf, ObjectPath;
  }

  lemma PartedNames(clients: map<Client, string>, c: Client)
    requires OwnNames(clients) && c in clients
    ensures var n := clients - {c};
            Names(n) == Names(clients) - {NameOf(clients[c])} && n.Values == clients.Values - {clients[c]}
  {
    var n := clients - {c};
    forall x ensures x in Names(n) <==> x in Names(clients) - {NameOf(clients[c])} {
      if x in Names(clients) - {NameOf(clients[c])} {
        var d :| d in clients && NameOf(clients[d]) == x;
        assert d in n && n[d] == clients[d];
      }
      if x in Names(n) {
        var d :| d in n && NameOf(n[d]) == x;
        assert clients[d] == n[d] && clients[d] != clients[c];
      }
    }
    forall v ensures v in n.Values <==> v in clients.Values - {clients[c]} {
      if v in clients.Values - {clients[c]} {
        var d :| d in clients && clients[d] == v;
        assert d in n && n[d] == v;
      }
    }
  }

  /** Registering and unregistering a client leaves everything as it was. */
  lemma UnregisterUndoesRegister(r: Registrar, c: Client, name: string)
    requires Inv(r) && '/' !in name && c !in r.clients
    requires Register(r, Some(c), name, true, true).1
    ensures Unregister(Register(r, Some(c), name, true, true).0, c) == (r, true)
  {
    NewPath(r.clients, name);
    RoundTripIff(name);
    assert ObjectPath(name) !in r.paths && name !in r.services && name !in r.owned && c !in r.flagged
           && c !in r.clientObjects;
    hide Inv, NameOf, ObjectPath, Interfaces;
    var n := Register(r, Some(c), name, true, true).0;
    assert n.clients[c] == ObjectPath(name);
    TakenOut(r.services, name);
    TakenOut(r.owned, name);
    TakenOut(r.paths, ObjectPath(name));
    TakenOut(r.flagged, c);
    assert r.clients[c := ObjectPath(name)] - {c} == r.clients;
    assert r.clientObjects[c := Exported(c, Interfaces(c))] - {c} == r.clientObjects;
  }

  lemma TakenOut<T>(s: set<T>, x: T)
    requires x !in s
    ensures s + {x} - {x} == s
  {
  }

  /** Unregistering frees the name exactly if it holds no slash; another name stays taken. */
  lemma NameIsFreedIff(r: Registrar, c: Client, name: string)
    requires Inv(r) && c !in r.clients && Register(r, Some(c), name, true, true).1
    ensures name in Unregister(Register(r, Some(c), name, true, true).0, c).0.services <==> '/' in name
  {
    RoundTripIff(name);
    hide NameOf, ObjectPath;
    assert Register(r, Some(c), name, true, true).0.clients[c] == ObjectPath(name);
  }

  // ---------------------------------------------------------------- any sequence of calls

  datatype Call =
    | Registering(client: Option<Client>, name: string, granted: bool, exported: bool)
    | Unregistering(registered: Client)

  function AfterCalls(calls: seq<Call>): Registrar
    decreases |calls|
  {
    if calls == [] then NO_CLIENTS else
      var r := AfterCalls(calls[..|calls| - 1]);
      match calls[|calls| - 1]
      case Registering(client, name, granted, exported) => Register(r, client, name, granted, exported).0
      case Unregistering(c) => Unregister(r, c).0
  }

  /** Whatever the bus grants or refuses, the tables agree with each other and with the bus. */
  lemma {:induction false} TablesAlwaysAgree(calls: seq<Call>)
    requires forall i :: 0 <= i < |calls| && calls[i].Registering? ==> '/' !in calls[i].name
    ensures Inv(AfterCalls(calls))
    decreases |calls|
  {
    if calls == [] {
    } else {
      var before, last := calls[..|calls| - 1], calls[|calls| - 1];
      TablesAlwaysAgree(before);
      hide Inv, Register, Unregister;
      match last
      case Registering(client, name, granted, exported) =>
        RegisterKeeps(AfterCalls(before), client, name, granted, exported);
      case Unregistering(c) => UnregisterKeeps(AfterCalls(before), c);
    }
  }

  // ---------------------------------------------------------------- who is registered, and as what

  /** A client object offers the interface of each of its roles, and handlers that want notification
      of requests that one too; nothing else. */
  lemma OffersItsRoles(c: Client)
    ensures HANDLER in Interfaces(c) <==> c.handler
    ensures REQUESTS in Interfaces(c) <==> c.handler && c.wantsRequests
    ensures OBSERVER in Interfaces(c) <==> c.observer
    ensures APPROVER in Interfaces(c) <==> c.approver
    ensures forall i :: i in Interfaces(c) ==> i in {HANDLER, REQUESTS, OBSERVER, APPROVER}
    ensures Interfaces(c) == [] <==> !HasRole(c)
  {
    assert HANDLER[33] == 'H' && REQUESTS[33] == 'I' && OBSERVER[33] == 'O' && APPROVER[33] == 'A';
  }

  predicate HasRole(c: Client) {
    c.handler || c.observer || c.approver
  }

  /** The name a client is registered under, going by the calls alone: a client with a role gets a name
      nobody has, if the bus grants name and object, and keeps it until it is unregistered. */
  ghost function RegisteredAs(calls: seq<Call>, c: Client): Option<string>
    decreases |calls|
  {
    if calls == [] then None else
      var before := calls[..|calls| - 1];
      match calls[|calls| - 1]
      case Unregistering(gone) => if gone == c then None else RegisteredAs(before, c)
      case Registering(client, name, granted, exported) =>
        if client == Some(c) && RegisteredAs(before, c).None? && granted && exported && HasRole(c)
           && (forall d :: RegisteredAs(before, d) != Some(name)) then Some(name)
        else RegisteredAs(before, c)
  }

  ghost predicate IsAvailable(calls: seq<Call>, name: string) {
    forall d :: RegisteredAs(calls, d) != Some(name)
  }

  /** The table of clients holds exactly those, under the paths of their names. */
  ghost predicate Lists(r: Registrar, calls: seq<Call>) {
    forall c :: ListedAs(r, c, RegisteredAs(calls, c))
  }

  predicate ListedAs(r: Registrar, c: Client, name: Option<string>) {
    if c in r.clients then name.Some? && r.clients[c] == ObjectPath(name.value) && '/' !in name.value else name.None?
  }

  lemma AvailableIff(r: Registrar, calls: seq<Call>, name: string)
    requires Inv(r) && Lists(r, calls)
    ensures name !in r.services <==> IsAvailable(calls, name)
  {
    hide RegisteredAs, NameOf, ObjectPath;
    forall c ensures c in r.clients ==> RegisteredAs(calls, c) == Some(NameOf(r.clients[c])) {
      assert ListedAs(r, c, RegisteredAs(calls, c));
      if c in r.clients {
        RoundTripIff(RegisteredAs(calls, c).value);
      }
    }
    if name in r.services {
      var c :| c in r.clients && NameOf(r.clients[c]) == name;
      assert RegisteredAs(calls, c) == Some(name);
    }
    if !IsAvailable(calls, name) {
      var c :| RegisteredAs(calls, c) == Some(name);
      assert ListedAs(r, c, RegisteredAs(calls, c));
      assert NameOf(r.clients[c]) in Names(r.clients);
    }
  }

  lemma RegisterLists(r: Registrar, calls: seq<Call>, client: Option<Client>, name: string, granted: bool,
                      exported: bool)
    requires Inv(r) && Lists(r, calls) && '/' !in name
    ensures var (n, ok) := Register(r, client, name, granted, exported);
            && Lists(n, calls + [Registering(client, name, granted, exported)])
            && (ok <==> client.Some? && client.value in n.clients)
  {
    var call := Registering(client, name, granted, exported);
    assert (calls + [call])[..|calls|] == calls;
    AvailableIff(r, calls, name);
    if client.Some? {
      OffersItsRoles(client.value);
    }
    hide Inv, Interfaces, ObjectPath;
    var n := Register(r, client, name, granted, exported).0;
    forall c ensures ListedAs(n, c, RegisteredAs(calls + [call], c)) {
      assert ListedAs(r, c, RegisteredAs(calls, c));
    }
  }

  lemma UnregisterLists(r: Registrar, calls: seq<Call>, gone: Client)
    requires Lists(r, calls)
    ensures var (n, ok) := Unregister(r, gone);
            Lists(n, calls + [Unregistering(gone)]) && (ok <==> RegisteredAs(calls, gone).Some?)
  {
    var call := Unregistering(gone);
    assert (calls + [call])[..|calls|] == calls;
    hide ObjectPath, NameOf;
    var n := Unregister(r, gone).0;
    assert ListedAs(r, gone, RegisteredAs(calls, gone));
    forall c ensures ListedAs(n, c, RegisteredAs(calls + [call], c)) {
      assert ListedAs(r, c, RegisteredAs(calls, c));
    }
  }

  predicate NamesHoldNoSlash(calls: seq<Call>) {
    forall i :: 0 <= i < |calls| && calls[i].Registering? ==> '/' !in calls[i].name
  }

  /** After any calls the clients listed are exactly those that should be. */
  lemma {:induction false} ListsWhoIsRegistered(calls: seq<Call>)
    requires NamesHoldNoSlash(calls)
    ensures Lists(AfterCalls(calls), calls)
    decreases |calls|
  {
    if calls == [] {
    } else {
      var before, last := calls[..|calls| - 1], calls[|calls| - 1];
      ListsWhoIsRegistered(before);
      TablesAlwaysAgree(before);
      assert calls == before + [last];
      hide Inv, Register, Unregister, Lists;
      match last
      case Registering(client, name, granted, exported) =>
        RegisterLists(AfterCalls(before), before, client, name, granted, exported);
      case Unregistering(c) => UnregisterLists(AfterCalls(before), before, c);
    }
  }

  /** A registration succeeds exactly if the client is registered already, or has a role and a name
      nobody has that the bus grants along with its object. */
  lemma RegistrationSucceedsIff(calls: seq<Call>, client: Option<Client>, name: string, granted: bool, exported: bool)
    requires NamesHoldNoSlash(calls) && '/' !in name
    ensures Register(AfterCalls(calls), client, name, granted, exported).1
            <==> client.Some? && (RegisteredAs(calls, client.value).Some?
                                  || (granted && exported && HasRole(client.value) && IsAvailable(calls, name)))
  {
    ListsWhoIsRegistered(calls);
    TablesAlwaysAgree(calls);
    var r := AfterCalls(calls);
    AvailableIff(r, calls, name);
    if client.Some? {
      OffersItsRoles(client.value);
      assert ListedAs(r, client.value, RegisteredAs(calls, client.value));
    }
    hide AfterCalls, Inv, Lists, RegisteredAs, IsAvailable, Interfaces;
  }

  // ---------------------------------------------------------------- the object

  class ClientRegistrarPrivate {
    var clients: map<Client, string>
    var clientObjects: map<Client, Exported>
    var services: set<string>

    ghost var owned: set<string>
    ghost var paths: set<string>
    ghost var flagged: set<Client>

    ghost function State(): Registrar
      reads this
    {
      Registrar(clients, clientObjects, services, owned, paths, flagged)
    }

    constructor ()
      ensures State() == NO_CLIENTS
    {
      clients, clientObjects, services, owned, paths, flagged := map[], map[], {}, {}, {}, {};
    }

    /** The bus is asked for the name and then for the object, and says yes or no. */
    method RegisterClient(client: Option<Client>, clientName: string, suffix: Option<string>, granted: bool,
                          exported: bool)
      returns (ok: bool)
      requires owned == services
      modifies this
      ensures (State(), ok) == Register(old(State()), client, BusName(clientName, suffix), granted, exported)
    {
      if client.None? {
        return false;
      }
      var c := client.value;
      if c in clients {
        return true;
      }
      var busName := CLIENT_PREFIX + clientName;
      if suffix.Some? {
        busName := busName + "." + suffix.value;
      }
      SuffixComesLast(clientName, suffix);
      assert busName == BusName(clientName, suffix);
      hide BusName;
      if busName in services || !granted {
        return false;
      }
      owned := owned + {busName};
      var interfaces := CollectInterfaces(c);
      if interfaces == [] {
        owned := owned - {busName};
        return false;
      }
      var objectPath := ObjectPath(busName);
      if !exported {
        owned := owned - {busName};
        return false;
      }
      paths := paths + {objectPath};
      if c.handler {
        flagged := flagged + {c};
      }
      services := services + {busName};
      clients := clients[c := objectPath];
      clientObjects := clientObjects[c := Exported(c, interfaces)];
      return true;
    }

    method CollectInterfaces(c: Client) returns (interfaces: seq<string>)
      ensures interfaces == Interfaces(c)
    {
      interfaces := [];
      if c.handler {
        interfaces := interfaces + [HANDLER];
        if c.wantsRequests {
          interfaces := interfaces + [REQUESTS];
        }
      }
      if c.observer {
        interfaces := interfaces + [OBSERVER];
      }
      if c.approver {
        interfaces := interfaces + [APPROVER];
      }
    }

    method UnregisterClient(c: Client) returns (ok: bool)
      modifies this
      ensures (State(), ok) == Unregister(old(State()), c)
    {
      if c !in clients {
        return false;
      }
      if c.handler {
        flagged := flagged - {c};
      }
      var objectPath := clients[c];
      paths := paths - {objectPath};
      clients := clients - {c};
      clientObjects := clientObjects - {c};
      var busName := NameOf(objectPath);
      owned := owned - {busName};
      services := services - {busName};
      return true;
    }

    /** Works on a copy of the table, which unregistering changes. */
    method UnregisterClients()
      requires Inv(State())
      modifies this
      ensures State() == NO_CLIENTS
    {
      var rest := clients.Keys;
      while rest != {}
        invariant Inv(State()) && clients.Keys == rest
        decreases |rest|
      {
        var c :| c in rest;
        rest := rest - {c};
        UnregisterKeeps(State(), c);
        hide Inv, Unregister;
        var _ := UnregisterClient(c);
      }
      NobodyLeft(State());
    }
  }

  lemma SuffixComesLast(clientName: string, suffix: Option<string>)
    ensures suffix.Some? ==>
              (CLIENT_PREFIX + clientName + "." + suffix.value == CLIENT_PREFIX + clientName + ("." + suffix.value))
    ensures CLIENT_PREFIX + clientName + "" == CLIENT_PREFIX + clientName
  {
  }

  lemma NobodyLeft(r: Registrar)
    requires Inv(r) && r.clients.Keys == {}
    ensures r == NO_CLIENTS
  {
    assert r.clients == map[] && r.clientObjects == map[];
    assert Names(r.clients) == {};
  }
}
