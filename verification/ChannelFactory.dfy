/**
 The channel factory: two lists indexed by channel class, kept in order of falling specificity, that
 say which features a channel gets and which constructor builds it.
 */
module ChannelFactory {
  import opened Handles
  import opened ChannelClasses

  datatype Entry<T> = Entry(key: Class, value: T)

  // ---------------------------------------------------------------- lists ordered by specificity

  /** The position of a class in the list, or the list's length. */
  function IndexOf<T>(l: seq<Entry<T>>, key: Class): (i: nat)
    ensures i <= |l|
    ensures i < |l| ==> l[i].key == key
    ensures forall j :: 0 <= j < i ==> l[j].key != key
  {
    if l == [] then 0 else if l[0].key == key then 0 else 1 + IndexOf(l[1..], key)
  }

  /** The position of the first class with fewer properties, or the list's length. */
  function Rank<T>(l: seq<Entry<T>>, size: nat): (i: nat)
    ensures i <= |l|
    ensures i < |l| ==> |l[i].key| < size
    ensures forall j :: 0 <= j < i ==> |l[j].key| >= size
  {
    if l == [] then 0 else if |l[0].key| < size then 0 else 1 + Rank(l[1..], size)
  }

  /** Replace the value of a class, or insert the class behind those of at least its size. */
  function Put<T>(l: seq<Entry<T>>, key: Class, value: T): seq<Entry<T>> {
    var i, r := IndexOf(l, key), Rank(l, |key|);
    if i < |l| then l[i := Entry(key, value)] else l[..r] + [Entry(key, value)] + l[r..]
  }

  // ---------------------------------------------------------------- what was registered when

  /** When a class was first registered. */
  function First(h: seq<Class>, key: Class): (i: nat)
    requires key in h
    ensures i < |h| && h[i] == key
    ensures forall j :: 0 <= j < i ==> h[j] != key
  {
    if h[0] == key then 0 else 1 + First(h[1..], key)
  }

  lemma FirstStays(h: seq<Class>, key: Class, last: Class)
    requires key in h
    ensures key in h + [last] && First(h + [last], key) == First(h, key)
  {
    var i := First(h, key);
    assert (h + [last])[i] == key;
    assert forall j :: 0 <= j < i ==> (h + [last])[j] != key;
  }

  lemma FirstIsNow(h: seq<Class>, key: Class)
    requires key !in h
    ensures First(h + [key], key) == |h|
  {
    assert (h + [key])[|h|] == key;
  }

  /** More specific, or as specific and registered earlier. */
  predicate Before(h: seq<Class>, a: Class, b: Class)
    requires a in h && b in h
  {
    |a| > |b| || (|a| == |b| && First(h, a) < First(h, b))
  }

  /** The list holds each registered class once, in order. */
  predicate Indexes<T>(l: seq<Entry<T>>, h: seq<Class>) {
    && (forall i :: 0 <= i < |l| ==> l[i].key in h)
    && (forall k :: 0 <= k < |h| ==> IndexOf(l, h[k]) < |l|)
    && (forall i, j :: 0 <= i < j < |l| ==> Before(h, l[i].key, l[j].key))
  }

  /** Where the value of the class ends up. */
  function Place<T>(l: seq<Entry<T>>, key: Class): nat {
    if IndexOf(l, key) < |l| then IndexOf(l, key) else Rank(l, |key|)
  }

  /** Where an entry of the list ends up. */
  function Moved<T>(l: seq<Entry<T>>, key: Class, i: nat): nat {
    if IndexOf(l, key) < |l| || i < Rank(l, |key|) then i else i + 1
  }

  /** Where an entry other than the class's own comes from. */
  function Origin<T>(l: seq<Entry<T>>, key: Class, j: nat): nat
    requires j != Place(l, key)
  {
    if IndexOf(l, key) < |l| || j < Rank(l, |key|) then j else j - 1
  }

  lemma PutPlaces<T>(l: seq<Entry<T>>, key: Class, value: T)
    ensures var n := Put(l, key, value); Place(l, key) < |n| && n[Place(l, key)] == Entry(key, value)
  {
  }

  lemma PutMoves<T>(l: seq<Entry<T>>, key: Class, value: T, i: nat)
    requires i < |l|
    ensures var n := Put(l, key, value); Moved(l, key, i) < |n| && n[Moved(l, key, i)].key == l[i].key
  {
  }

  lemma PutTakes<T>(l: seq<Entry<T>>, key: Class, value: T, j: nat)
    requires j < |Put(l, key, value)| && j != Place(l, key)
    ensures Origin(l, key, j) < |l| && Put(l, key, value)[j] == l[Origin(l, key, j)]
  {
  }

  lemma BeforeStays(h: seq<Class>, a: Class, b: Class, last: Class)
    requires a in h && b in h && Before(h, a, b)
    ensures a in h + [last] && b in h + [last] && Before(h + [last], a, b)
  {
    FirstStays(h, a, last);
    FirstStays(h, b, last);
  }

  lemma PlacedInOrder<T>(l: seq<Entry<T>>, h: seq<Class>, key: Class, j: nat)
    requires Indexes(l, h) && j != Place(l, key) && Origin(l, key, j) < |l|
    ensures var e := l[Origin(l, key, j)];
            && e.key in h + [key] && key in h + [key]
            && (j < Place(l, key) ==> Before(h + [key], e.key, key))
            && (j > Place(l, key) ==> Before(h + [key], key, e.key))
  {
    var i := Origin(l, key, j);
    assert (h + [key])[|h|] == key;
    assert l[i].key in h;
    FirstStays(h, l[i].key, key);
    assert key in h ==> IndexOf(l, h[First(h, key)]) < |l|;
    if IndexOf(l, key) < |l| {
      FirstStays(h, key, key);
    } else {
      FirstIsNow(h, key);
      var r := Rank(l, |key|);
      if i > r {
        assert Before(h, l[r].key, l[i].key);
      }
    }
  }

  lemma PutKeepsOrder<T>(l: seq<Entry<T>>, h: seq<Class>, key: Class, value: T)
    requires Indexes(l, h)
    ensures Indexes(Put(l, key, value), h + [key])
  {
    var n, g, p := Put(l, key, value), h + [key], Place(l, key);
    PutPlaces(l, key, value);
    assert g[|h|] == key;
    hide Put, Rank, Before;
    forall j | 0 <= j < |n| ensures n[j].key in g {
      if j != p {
        PutTakes(l, key, value, j);
        assert l[Origin(l, key, j)].key in h;
      }
    }
    forall k | 0 <= k < |g| ensures IndexOf(n, g[k]) < |n| {
      if k < |h| {
        assert IndexOf(l, h[k]) < |l|;
        PutMoves(l, key, value, IndexOf(l, h[k]));
      }
    }
    forall i, j | 0 <= i < j < |n| ensures Before(g, n[i].key, n[j].key) {
      PairInOrder(l, h, key, value, i, j);
    }
  }

  lemma PairInOrder<T>(l: seq<Entry<T>>, h: seq<Class>, key: Class, value: T, i: nat, j: nat)
    requires Indexes(l, h) && i < j < |Put(l, key, value)|
    ensures var n, g := Put(l, key, value), h + [key];
            n[i].key in g && n[j].key in g && Before(g, n[i].key, n[j].key)
  {
    PutPlaces(l, key, value);
    if i == Place(l, key) {
      PutTakes(l, key, value, j);
      PlacedInOrder(l, h, key, j);
    } else if j == Place(l, key) {
      PutTakes(l, key, value, i);
      PlacedInOrder(l, h, key, i);
    } else {
      PutTakes(l, key, value, i);
      PutTakes(l, key, value, j);
      hide Put, IndexOf, Rank, Before;
      var a, b := l[Origin(l, key, i)].key, l[Origin(l, key, j)].key;
      assert a in h && b in h && Before(h, a, b);
      BeforeStays(h, a, b, key);
    }
  }

  // ---------------------------------------------------------------- constructors

  /** The channel subclasses the library knows, and the applications' own. */
  datatype Ctor =
    | TextChannel | StreamedMediaChannel | RoomListChannel | IncomingFileTransferChannel
    | OutgoingFileTransferChannel | IncomingStreamTubeChannel | OutgoingStreamTubeChannel
    | ContactSearchChannel | PlainChannel | Custom(id: nat)

  /** A registration: a constructor, or nothing, which is refused. */
  datatype Registration = Registration(key: Class, ctor: Option<Ctor>)

  function SetConstructor(l: seq<Entry<Ctor>>, r: Registration): seq<Entry<Ctor>> {
    if r.ctor.Some? then Put(l, r.key, r.ctor.value) else l
  }

  function SetAll(rs: seq<Registration>): seq<Entry<Ctor>>
    decreases |rs|
  {
    if rs == [] then [] else SetConstructor(SetAll(rs[..|rs| - 1]), rs[|rs| - 1])
  }

  /** The classes registered, in order, refused registrations left out. */
  function Classes(rs: seq<Registration>): seq<Class>
    decreases |rs|
  {
    if rs == [] then [] else
      var before, last := Classes(rs[..|rs| - 1]), rs[|rs| - 1];
      if last.ctor.Some? then before + [last.key] else before
  }

  /** The constructor last registered for a class. */
  function Latest(rs: seq<Registration>, key: Class): Option<Ctor>
    decreases |rs|
  {
    if rs == [] then None
    else if rs[|rs| - 1].key == key && rs[|rs| - 1].ctor.Some? then rs[|rs| - 1].ctor
    else Latest(rs[..|rs| - 1], key)
  }

  /** The position of the first class of the list that is a subset of the query. */
  function FirstMatch<T>(l: seq<Entry<T>>, query: Class): (i: nat)
    ensures i <= |l|
    ensures i < |l| ==> IsSubset(l[i].key, query)
    ensures forall j :: 0 <= j < i ==> !IsSubset(l[j].key, query)
  {
    if l == [] then 0 else if IsSubset(l[0].key, query) then 0 else 1 + FirstMatch(l[1..], query)
  }

  /** What constructorFor returns, or nothing where it would assert. */
  function Lookup(l: seq<Entry<Ctor>>, query: Class): Option<Ctor> {
    var i := FirstMatch(l, query);
    if i < |l| then Some(l[i].value) else None
  }

  /** The list is the index of the registrations. */
  predicate Reflects(l: seq<Entry<Ctor>>, rs: seq<Registration>) {
    && Indexes(l, Classes(rs))
    && forall i :: 0 <= i < |l| ==> Latest(rs, l[i].key) == Some(l[i].value)
  }

  lemma {:induction false} AlwaysReflects(rs: seq<Registration>)
    ensures Reflects(SetAll(rs), rs)
    decreases |rs|
  {
    if rs == [] {
    } else {
      var before, last := rs[..|rs| - 1], rs[|rs| - 1];
      AlwaysReflects(before);
      assert rs == before + [last];
      RegistrationKeeps(SetAll(before), before, last);
    }
  }

  lemma RegistrationKeeps(l: seq<Entry<Ctor>>, rs: seq<Registration>, r: Registration)
    requires Reflects(l, rs)
    ensures Reflects(SetConstructor(l, r), rs + [r])
  {
    assert (rs + [r])[..|rs|] == rs;
    if r.ctor.Some? {
      PutKeepsOrder(l, Classes(rs), r.key, r.ctor.value);
      var n := Put(l, r.key, r.ctor.value);
      PutPlaces(l, r.key, r.ctor.value);
      forall j | 0 <= j < |n| ensures Latest(rs + [r], n[j].key) == Some(n[j].value) {
        if j != Place(l, r.key) {
          PutTakes(l, r.key, r.ctor.value, j);
          KeysDiffer(n, Classes(rs) + [r.key], j, Place(l, r.key));
        }
      }
    }
  }

  lemma KeysDiffer<T>(l: seq<Entry<T>>, h: seq<Class>, i: nat, j: nat)
    requires Indexes(l, h) && i < |l| && j < |l| && i != j
    ensures l[i].key != l[j].key
  {
    assert Before(h, l[if i < j then i else j].key, l[if i < j then j else i].key);
  }

  /** The most specific registered class that is a subset of the query; among equally specific ones,
      the one registered first. */
  predicate IsBest(h: seq<Class>, query: Class, key: Class) {
    && key in h && IsSubset(key, query)
    && forall k :: 0 <= k < |h| && IsSubset(h[k], query) && h[k] != key ==> Before(h, key, h[k])
  }

  /** After any registrations, looking a class up finds the latest constructor of the best class, and
      nothing exactly when no registered class is a subset of the query. */
  lemma DispatchIsMostSpecific(rs: seq<Registration>, query: Class)
    ensures var l := SetAll(rs);
            if exists k :: 0 <= k < |Classes(rs)| && IsSubset(Classes(rs)[k], query) then
              exists key :: IsBest(Classes(rs), query, key) && Lookup(l, query) == Latest(rs, key)
            else Lookup(l, query) == None
  {
    var l, h := SetAll(rs), Classes(rs);
    AlwaysReflects(rs);
    var i := FirstMatch(l, query);
    assert i < |l| ==> Latest(rs, l[i].key) == Some(l[i].value);
    hide SetAll, Classes, Latest, Indexes, IsBest, IsSubset;
    if i < |l| {
      FirstMatchIsBest(l, h, query);
      BestIsThere(h, query, l[i].key);
    } else {
      forall k | 0 <= k < |h| ensures !IsSubset(h[k], query) {
        Listed(l, h, k);
      }
    }
  }

  lemma Listed<T>(l: seq<Entry<T>>, h: seq<Class>, k: nat)
    requires Indexes(l, h) && k < |h|
    ensures IndexOf(l, h[k]) < |l|
  {
  }

  lemma Ordered<T>(l: seq<Entry<T>>, h: seq<Class>, i: nat, j: nat)
    requires Indexes(l, h) && i < j < |l|
    ensures l[i].key in h && l[j].key in h && Before(h, l[i].key, l[j].key)
  {
  }

  lemma BestIsThere(h: seq<Class>, query: Class, key: Class)
    requires IsBest(h, query, key)
    ensures exists k :: 0 <= k < |h| && IsSubset(h[k], query)
  {
    var k :| 0 <= k < |h| && h[k] == key;
  }

  lemma FirstMatchIsBest<T>(l: seq<Entry<T>>, h: seq<Class>, query: Class)
    requires Indexes(l, h) && FirstMatch(l, query) < |l|
    ensures IsBest(h, query, l[FirstMatch(l, query)].key)
  {
    var key := l[FirstMatch(l, query)].key;
    assert key in h;
    hide Before, Indexes;
    forall k | 0 <= k < |h| && IsSubset(h[k], query) && h[k] != key ensures Before(h, key, h[k]) {
      Listed(l, h, k);
      Ordered(l, h, FirstMatch(l, query), IndexOf(l, h[k]));
    }
  }

  /** There is only one best class. */
  lemma BestIsUnique(h: seq<Class>, query: Class, a: Class, b: Class)
    requires IsBest(h, query, a) && IsBest(h, query, b)
    ensures a == b
  {
    assert h[First(h, a)] == a && h[First(h, b)] == b;
  }

  /** Looking up a class just set returns what was set. */
  lemma LookupReturnsWhatWasSet(rs: seq<Registration>, key: Class, ctor: Ctor)
    ensures Lookup(SetAll(rs + [Registration(key, Some(ctor))]), key) == Some(ctor)
  {
    var now := rs + [Registration(key, Some(ctor))];
    assert now[..|rs|] == rs && now[|rs|] == Registration(key, Some(ctor));
    assert Latest(now, key) == Some(ctor) && Classes(now)[|Classes(now)| - 1] == key;
    AlwaysReflects(now);
    hide Latest, Classes, SetAll;
    var l, h := SetAll(now), Classes(now);
    SubsetIsPartialOrder(key, key, key);
    var i, j := FirstMatch(l, key), IndexOf(l, key);
    assert j < |l| && l[j].key == key && i <= j;
    SubsetIsPartialOrder(l[i].key, key, key);
  }

  // ---------------------------------------------------------------- default constructors

  function TypeClass(channelType: TypeName, handleType: nat): Class {
    map[ChannelType := Type(channelType), TargetHandleType := Number(handleType)]
  }

  function RequestedClass(channelType: TypeName, handleType: nat, requested: bool): Class {
    TypeClass(channelType, handleType)[Requested := Flag(requested)]
  }

  const HANDLE_NONE := 0
  const HANDLE_CONTACT := 1
  const HANDLE_ROOM := 2

  /** What the factory's constructor registers, the fallback for every class last. */
  const DEFAULTS := [
    Registration(TypeClass(TextType, HANDLE_CONTACT), Some(TextChannel)),
    Registration(TypeClass(TextType, HANDLE_NONE), Some(TextChannel)),
    Registration(TypeClass(TextType, HANDLE_ROOM), Some(TextChannel)),
    Registration(TypeClass(StreamedMediaType, HANDLE_CONTACT), Some(StreamedMediaChannel)),
    Registration(TypeClass(StreamedMediaType, HANDLE_NONE), Some(StreamedMediaChannel)),
    Registration(TypeClass(RoomListType, HANDLE_NONE), Some(RoomListChannel)),
    Registration(RequestedClass(FileTransferType, HANDLE_CONTACT, false), Some(IncomingFileTransferChannel)),
    Registration(RequestedClass(FileTransferType, HANDLE_CONTACT, true), Some(OutgoingFileTransferChannel)),
    Registration(RequestedClass(StreamTubeType, HANDLE_CONTACT, false), Some(IncomingStreamTubeChannel)),
    Registration(RequestedClass(StreamTubeType, HANDLE_CONTACT, true), Some(OutgoingStreamTubeChannel)),
    Registration(RequestedClass(StreamTubeType, HANDLE_ROOM, false), Some(IncomingStreamTubeChannel)),
    Registration(RequestedClass(StreamTubeType, HANDLE_ROOM, true), Some(OutgoingStreamTubeChannel)),
    Registration(TypeClass(ContactSearchType, HANDLE_NONE), Some(ContactSearchChannel)),
    Registration(NO_CLASS, Some(PlainChannel))]

  lemma {:induction false} ClassesGrow(rs: seq<Registration>, more: seq<Registration>)
    ensures Classes(rs) <= Classes(rs + more)
    decreases |more|
  {
    if more == [] {
      assert rs + more == rs;
    } else {
      var before := more[..|more| - 1];
      ClassesGrow(rs, before);
      assert (rs + more)[..|rs + more| - 1] == rs + before;
    }
  }

  /** Whatever an application registers on top of the defaults, constructorFor never runs out of
      constructors: its final assertion is not reached. */
  lemma LookupAlwaysSucceeds(more: seq<Registration>, query: Class)
    ensures Lookup(SetAll(DEFAULTS + more), query).Some?
  {
    var rs := DEFAULTS + more;
    AlwaysReflects(rs);
    ClassesGrow(DEFAULTS, more);
    FallbackIsRegistered();
    SubsetIsPartialOrder(query, query, query);
    var k := |Classes(DEFAULTS)| - 1;
    assert Classes(rs)[k] == NO_CLASS;
    assert IndexOf(SetAll(rs), Classes(rs)[k]) < |SetAll(rs)|;
  }

  lemma FallbackIsRegistered()
    ensures Classes(DEFAULTS) != [] && Classes(DEFAULTS)[|Classes(DEFAULTS)| - 1] == NO_CLASS
  {
    assert DEFAULTS[|DEFAULTS| - 1] == Registration(NO_CLASS, Some(PlainChannel));
  }

  /** Two default classes other than the fallback contradict each other in some property. */
  predicate Exclusive(a: Class, b: Class) {
    || (ChannelType in a && ChannelType in b && a[ChannelType] != b[ChannelType])
    || (TargetHandleType in a && TargetHandleType in b && a[TargetHandleType] != b[TargetHandleType])
    || (Requested in a && Requested in b && a[Requested] != b[Requested])
  }

  function TypeAt(i: nat): TypeName {
    if i <= 2 then TextType else if i <= 4 then StreamedMediaType else if i == 5 then RoomListType
    else if i <= 7 then FileTransferType else if i <= 11 then StreamTubeType else ContactSearchType
  }

  function HandleAt(i: nat): nat {
    if i == 1 || i == 4 || i == 5 || i == 12 then HANDLE_NONE
    else if i == 2 || i == 10 || i == 11 then HANDLE_ROOM else HANDLE_CONTACT
  }

  lemma DefaultType(i: nat)
    requires i < |DEFAULTS| - 1
    ensures ChannelType in DEFAULTS[i].key && DEFAULTS[i].key[ChannelType] == Type(TypeAt(i))
  {
  }

  lemma DefaultHandleType(i: nat)
    requires i < |DEFAULTS| - 1
    ensures TargetHandleType in DEFAULTS[i].key && DEFAULTS[i].key[TargetHandleType] == Number(HandleAt(i))
  {
  }

  /** Incoming and outgoing channels take turns among the classes that say which they are. */
  lemma DefaultDirection(i: nat)
    requires 6 <= i <= 11
    ensures Requested in DEFAULTS[i].key && DEFAULTS[i].key[Requested] == Flag(i % 2 == 1)
  {
  }

  lemma DefaultsAreExclusive(i: nat, j: nat)
    requires i < j < |DEFAULTS| - 1
    ensures Exclusive(DEFAULTS[i].key, DEFAULTS[j].key)
  {
    assert |DEFAULTS| == 14;
    hide DEFAULTS;
    DefaultType(i);
    DefaultType(j);
    DefaultHandleType(i);
    DefaultHandleType(j);
    if 6 <= i && j <= 11 {
      DefaultDirection(i);
      DefaultDirection(j);
    }
  }

  lemma {:induction false} ClassesAre(rs: seq<Registration>)
    requires forall k :: 0 <= k < |rs| ==> rs[k].ctor.Some?
    ensures |Classes(rs)| == |rs| && forall k :: 0 <= k < |rs| ==> Classes(rs)[k] == rs[k].key
    decreases |rs|
  {
    if rs != [] {
      ClassesAre(rs[..|rs| - 1]);
    }
  }

  lemma {:induction false} LatestIs(rs: seq<Registration>, i: nat)
    requires i < |rs| && rs[i].ctor.Some?
    requires forall j :: i < j < |rs| ==> rs[j].key != rs[i].key
    ensures Latest(rs, rs[i].key) == rs[i].ctor
    decreases |rs|
  {
    if i < |rs| - 1 {
      LatestIs(rs[..|rs| - 1], i);
    }
  }

  lemma DefaultIsNotEmpty(i: nat)
    requires i < |DEFAULTS| - 1
    ensures DEFAULTS[i].key != NO_CLASS && |DEFAULTS[i].key| > 0
  {
    assert ChannelType in DEFAULTS[i].key;
  }

  lemma DefaultsDiffer(i: nat, j: nat)
    requires i < j < |DEFAULTS|
    ensures DEFAULTS[i].key != DEFAULTS[j].key
  {
    if j < |DEFAULTS| - 1 {
      DefaultsAreExclusive(i, j);
    } else {
      DefaultIsNotEmpty(i);
    }
  }

  lemma OneDefaultMatches(query: Class, i: nat, j: nat)
    requires i < |DEFAULTS| - 1 && j < |DEFAULTS| - 1
    requires IsSubset(DEFAULTS[i].key, query) && IsSubset(DEFAULTS[j].key, query)
    ensures i == j
  {
    if i < j {
      DefaultsAreExclusive(i, j);
    } else if j < i {
      DefaultsAreExclusive(j, i);
    }
  }

  lemma LatestDefault(i: nat)
    requires i < |DEFAULTS|
    ensures |Classes(DEFAULTS)| == |DEFAULTS| && Classes(DEFAULTS)[i] == DEFAULTS[i].key
    ensures Latest(DEFAULTS, DEFAULTS[i].key) == DEFAULTS[i].ctor
  {
    ClassesAre(DEFAULTS);
    forall j | i < j < |DEFAULTS| ensures DEFAULTS[j].key != DEFAULTS[i].key {
      DefaultsDiffer(i, j);
    }
    LatestIs(DEFAULTS, i);
  }

  /** Without further registrations a channel that is of a default class gets that class's
      constructor, whatever other properties it has; every other channel gets the plain one. */
  lemma DefaultDispatch(query: Class, i: nat)
    requires i < |DEFAULTS| && IsSubset(DEFAULTS[i].key, query)
    requires i == |DEFAULTS| - 1 ==> forall j :: 0 <= j < i ==> !IsSubset(DEFAULTS[j].key, query)
    ensures Lookup(SetAll(DEFAULTS), query) == DEFAULTS[i].ctor
  {
    hide Lookup, SetAll, Latest, Classes, IsSubset, First;
    var h, last := Classes(DEFAULTS), |DEFAULTS| - 1;
    LatestDefault(i);
    DispatchIsMostSpecific(DEFAULTS, query);
    var key :| IsBest(h, query, key) && Lookup(SetAll(DEFAULTS), query) == Latest(DEFAULTS, key);
    var j := First(h, key);
    LatestDefault(j);
    if i < last {
      DefaultIsNotEmpty(i);
      if j < last {
        OneDefaultMatches(query, i, j);
      }
    }
  }

  /** The constructor that suits a channel, by its type, handle type and direction. */
  function Suitable(query: Class): Ctor {
    if ChannelType !in query || TargetHandleType !in query || !query[ChannelType].Type? then PlainChannel else
      var handleType := query[TargetHandleType];
      var toContact, toRoom, toNobody := handleType == Number(1), handleType == Number(2), handleType == Number(0);
      var incoming := Requested in query && query[Requested] == Flag(false);
      var outgoing := Requested in query && query[Requested] == Flag(true);
      match query[ChannelType].typeName
      case TextType => if toContact || toRoom || toNobody then TextChannel else PlainChannel
      case StreamedMediaType => if toContact || toNobody then StreamedMediaChannel else PlainChannel
      case RoomListType => if toNobody then RoomListChannel else PlainChannel
      case ContactSearchType => if toNobody then ContactSearchChannel else PlainChannel
      case FileTransferType =>
        if toContact && incoming then IncomingFileTransferChannel
        else if toContact && outgoing then OutgoingFileTransferChannel
        else PlainChannel
      case StreamTubeType =>
        if (toContact || toRoom) && incoming then IncomingStreamTubeChannel
        else if (toContact || toRoom) && outgoing then OutgoingStreamTubeChannel
        else PlainChannel
      case OtherType(_) => PlainChannel
  }

  /** A channel is of a default class exactly if its type, handle type and direction are. */
  lemma DefaultMatchesIff(query: Class, i: nat)
    requires i < |DEFAULTS| - 1
    ensures IsSubset(DEFAULTS[i].key, query)
            <==>
            && ChannelType in query && query[ChannelType] == Type(TypeAt(i))
            && TargetHandleType in query && query[TargetHandleType] == Number(HandleAt(i))
            && (6 <= i <= 11 ==> Requested in query && query[Requested] == Flag(i % 2 == 1))
  {
    DefaultType(i);
    DefaultHandleType(i);
    if 6 <= i <= 11 {
      DefaultDirection(i);
    }
    DefaultKeys(i);
    hide DEFAULTS, IsSubset;
    SubsetOfThree(DEFAULTS[i].key, query, 6 <= i <= 11);
  }

  lemma SubsetOfThree(key: Class, query: Class, directed: bool)
    requires key.Keys == {ChannelType, TargetHandleType} + if directed then {Requested} else {}
    ensures IsSubset(key, query)
            <==>
            && ChannelType in query && query[ChannelType] == key[ChannelType]
            && TargetHandleType in query && query[TargetHandleType] == key[TargetHandleType]
            && (directed ==> Requested in query && query[Requested] == key[Requested])
  {
    assert ChannelType in key && TargetHandleType in key && (directed <==> Requested in key);
  }

  lemma DefaultKeys(i: nat)
    requires i < |DEFAULTS| - 1
    ensures DEFAULTS[i].key.Keys
         == {ChannelType, TargetHandleType} + if 6 <= i <= 11 then {Requested} else {}
  {
  }

  lemma DefaultSuits(query: Class, i: nat)
    requires i < |DEFAULTS| - 1 && IsSubset(DEFAULTS[i].key, query)
    ensures DEFAULTS[i].ctor == Some(Suitable(query))
  {
    DefaultMatchesIff(query, i);
    hide IsSubset;
  }

  lemma OthersArePlain(query: Class)
    requires forall j :: 0 <= j < |DEFAULTS| - 1 ==> !IsSubset(DEFAULTS[j].key, query)
    ensures Suitable(query) == PlainChannel
  {
    forall j | 0 <= j < |DEFAULTS| - 1
      ensures !(&& ChannelType in query && query[ChannelType] == Type(TypeAt(j))
                && TargetHandleType in query && query[TargetHandleType] == Number(HandleAt(j))
                && (6 <= j <= 11 ==> Requested in query && query[Requested] == Flag(j % 2 == 1)))
    {
      DefaultMatchesIff(query, j);
    }
    assert |DEFAULTS| == 14;
    assert TypeAt(0) == TextType && TypeAt(1) == TextType && TypeAt(2) == TextType;
    assert TypeAt(3) == StreamedMediaType && TypeAt(4) == StreamedMediaType && TypeAt(5) == RoomListType;
    assert TypeAt(6) == FileTransferType && TypeAt(7) == FileTransferType && TypeAt(12) == ContactSearchType;
    assert TypeAt(8) == StreamTubeType && TypeAt(9) == StreamTubeType;
    assert TypeAt(10) == StreamTubeType && TypeAt(11) == StreamTubeType;
    hide DEFAULTS, IsSubset;
  }

  /** Without further registrations every channel gets the constructor that suits it. */
  lemma DefaultConstructor(query: Class)
    ensures Lookup(SetAll(DEFAULTS), query) == Some(Suitable(query))
  {
    var last := |DEFAULTS| - 1;
    hide Lookup, SetAll, Suitable;
    if j :| 0 <= j < last && IsSubset(DEFAULTS[j].key, query) {
      DefaultDispatch(query, j);
      DefaultSuits(query, j);
    } else {
      SubsetIsPartialOrder(query, query, query);
      DefaultDispatch(query, last);
      OthersArePlain(query);
    }
  }

  // ---------------------------------------------------------------- features

  type Feature = nat

  datatype Addition = Addition(key: Class, features: set<Feature>)

  function AddFeatures(l: seq<Entry<set<Feature>>>, a: Addition): seq<Entry<set<Feature>>> {
    var i := IndexOf(l, a.key);
    Put(l, a.key, if i < |l| then l[i].value + a.features else a.features)
  }

  function AddAll(adds: seq<Addition>): seq<Entry<set<Feature>>>
    decreases |adds|
  {
    if adds == [] then [] else AddFeatures(AddAll(adds[..|adds| - 1]), adds[|adds| - 1])
  }

  function FeaturesOf(l: seq<Entry<set<Feature>>>, query: Class): set<Feature>
    decreases |l|
  {
    if l == [] then {} else
      var before, last := FeaturesOf(l[..|l| - 1], query), l[|l| - 1];
      if IsSubset(last.key, query) then before + last.value else before
  }

  function AddedClasses(adds: seq<Addition>): (h: seq<Class>)
    ensures |h| == |adds|
  {
    seq(|adds|, i requires 0 <= i < |adds| => adds[i].key)
  }

  /** The features ever added for classes that are subsets of the query. */
  predicate EverAdded(adds: seq<Addition>, query: Class, f: Feature) {
    exists k :: 0 <= k < |adds| && IsSubset(adds[k].key, query) && f in adds[k].features
  }

  predicate AddedFor(adds: seq<Addition>, key: Class, f: Feature) {
    exists k :: 0 <= k < |adds| && adds[k].key == key && f in adds[k].features
  }

  ghost predicate HoldsFeatures(l: seq<Entry<set<Feature>>>, adds: seq<Addition>) {
    && Indexes(l, AddedClasses(adds))
    && forall i, f :: 0 <= i < |l| ==> (f in l[i].value <==> AddedFor(adds, l[i].key, f))
  }

  lemma AddedOneMore(adds: seq<Addition>, a: Addition, key: Class, f: Feature)
    ensures AddedFor(adds + [a], key, f) <==> AddedFor(adds, key, f) || (a.key == key && f in a.features)
  {
    var n := adds + [a];
    if AddedFor(adds, key, f) {
      var k :| 0 <= k < |adds| && adds[k].key == key && f in adds[k].features;
      assert n[k] == adds[k];
    }
    assert n[|adds|] == a;
  }

  lemma AdditionKeeps(l: seq<Entry<set<Feature>>>, adds: seq<Addition>, a: Addition)
    requires HoldsFeatures(l, adds)
    ensures HoldsFeatures(AddFeatures(l, a), adds + [a])
  {
    var i := IndexOf(l, a.key);
    var v := if i < |l| then l[i].value + a.features else a.features;
    var n, p := AddFeatures(l, a), Place(l, a.key);
    assert AddedClasses(adds + [a]) == AddedClasses(adds) + [a.key];
    PutKeepsOrder(l, AddedClasses(adds), a.key, v);
    PutPlaces(l, a.key, v);
    forall j, f | 0 <= j < |n| ensures f in n[j].value <==> AddedFor(adds + [a], n[j].key, f) {
      AddedOneMore(adds, a, n[j].key, f);
      if j != p {
        PutTakes(l, a.key, v, j);
        KeysDiffer(n, AddedClasses(adds) + [a.key], j, p);
      } else if i == |l| {
        NeverAdded(l, adds, a.key, f);
      }
    }
  }

  lemma NeverAdded(l: seq<Entry<set<Feature>>>, adds: seq<Addition>, key: Class, f: Feature)
    requires Indexes(l, AddedClasses(adds)) && IndexOf(l, key) == |l|
    ensures !AddedFor(adds, key, f)
  {
    forall k | 0 <= k < |adds| ensures adds[k].key != key {
      assert IndexOf(l, AddedClasses(adds)[k]) < |l|;
    }
  }

  lemma {:induction false} AlwaysHoldsFeatures(adds: seq<Addition>)
    ensures HoldsFeatures(AddAll(adds), adds)
    decreases |adds|
  {
    if adds == [] {
    } else {
      var before, last := adds[..|adds| - 1], adds[|adds| - 1];
      AlwaysHoldsFeatures(before);
      assert adds == before + [last];
      AdditionKeeps(AddAll(before), before, last);
    }
  }

  lemma {:induction false} FeaturesForIs(l: seq<Entry<set<Feature>>>, query: Class, f: Feature)
    ensures f in FeaturesOf(l, query) <==> exists i :: 0 <= i < |l| && IsSubset(l[i].key, query) && f in l[i].value
    decreases |l|
  {
    if l != [] {
      FeaturesForIs(l[..|l| - 1], query, f);
    }
  }

  /** The features of a class are those ever added for its subsets. */
  lemma FeaturesRefineHistory(adds: seq<Addition>, query: Class, f: Feature)
    ensures f in FeaturesOf(AddAll(adds), query) <==> EverAdded(adds, query, f)
  {
    var l, h := AddAll(adds), AddedClasses(adds);
    AlwaysHoldsFeatures(adds);
    FeaturesForIs(l, query, f);
    if f in FeaturesOf(l, query) {
      var i :| 0 <= i < |l| && IsSubset(l[i].key, query) && f in l[i].value;
      assert AddedFor(adds, l[i].key, f);
    }
    if EverAdded(adds, query, f) {
      var k :| 0 <= k < |adds| && IsSubset(adds[k].key, query) && f in adds[k].features;
      var i := IndexOf(l, h[k]);
      assert i < |l| && l[i].key == adds[k].key;
      assert AddedFor(adds, l[i].key, f);
    }
  }

  /** A more specific class has at least the features of a less specific one, and none is lost. */
  lemma FeaturesGrow(adds: seq<Addition>, more: seq<Addition>, a: Class, b: Class)
    requires IsSubset(a, b)
    ensures FeaturesOf(AddAll(adds), a) <= FeaturesOf(AddAll(adds + more), b)
  {
    forall f | f in FeaturesOf(AddAll(adds), a) ensures f in FeaturesOf(AddAll(adds + more), b) {
      FeaturesRefineHistory(adds, a, f);
      FeaturesRefineHistory(adds + more, b, f);
      var k :| 0 <= k < |adds| && IsSubset(adds[k].key, a) && f in adds[k].features;
      SubsetIsPartialOrder(adds[k].key, a, b);
      assert (adds + more)[k] == adds[k];
    }
  }

  // ---------------------------------------------------------------- the object

  class ChannelFactoryPrivate {
    var features: seq<Entry<set<Feature>>>
    var ctors: seq<Entry<Ctor>>

    ghost var registrations: seq<Registration>
    ghost var additions: seq<Addition>

    /** Both lists are what the calls so far make of them, the default constructors first. */
    ghost predicate Valid()
      reads this
    {
      && ctors == SetAll(registrations) && features == AddAll(additions)
      && DEFAULTS <= registrations
    }

    constructor ()
      ensures Valid() && registrations == DEFAULTS && additions == []
    {
      features, ctors, registrations, additions := [], [], [], [];
      new;
      RegisterDefaults();
    }

    method RegisterDefaults()
      requires registrations == [] && ctors == []
      modifies `ctors, `registrations
      ensures registrations == DEFAULTS && ctors == SetAll(DEFAULTS)
    {
      hide *;
      StartsEmpty();
      for i := 0 to |DEFAULTS|
        invariant registrations == DEFAULTS[..i] && ctors == SetAll(registrations)
      {
        SetConstructorFor(DEFAULTS[i].key, DEFAULTS[i].ctor);
        assert DEFAULTS[..i + 1] == DEFAULTS[..i] + [DEFAULTS[i]];
      }
      assert DEFAULTS[..|DEFAULTS|] == DEFAULTS;
    }

    method SetConstructorFor(channelClass: Class, ctor: Option<Ctor>)
      requires ctors == SetAll(registrations)
      modifies `ctors, `registrations
      ensures registrations == old(registrations) + [Registration(channelClass, ctor)]
      ensures ctors == SetAll(registrations) == SetConstructor(old(ctors), Registration(channelClass, ctor))
    {
      hide Indexes, Before, First, Latest, SetAll, Classes;
      AlwaysReflects(registrations);
      SetAllOneMore(registrations, Registration(channelClass, ctor));
      registrations := registrations + [Registration(channelClass, ctor)];
      if ctor.None? {
        return;
      }
      var i := 0;
      while i < |ctors|
        invariant i <= |ctors| && ctors == old(ctors)
        invariant forall j :: 0 <= j < i ==> |ctors[j].key| >= |channelClass| && ctors[j].key != channelClass
      {
        if |channelClass| > |ctors[i].key| {
          break;
        }
        if ctors[i].key == channelClass {
          FoundHere(ctors, channelClass, i);
          ctors := ctors[i := Entry(channelClass, ctor.value)];
          return;
        }
        i := i + 1;
      }
      InsertHere(ctors, Classes(old(registrations)), channelClass, i);
      ctors := ctors[..i] + [Entry(channelClass, ctor.value)] + ctors[i..];
    }

    method ConstructorFor(query: Class) returns (ctor: Ctor)
      requires Valid()
      ensures Lookup(ctors, query) == Some(ctor)
    {
      var more := registrations[|DEFAULTS|..];
      assert registrations == DEFAULTS + more;
      LookupAlwaysSucceeds(more, query);
      ghost var first := FirstMatch(ctors, query);
      hide SetAll, AddAll, DEFAULTS, IsSubset, FirstMatch;
      var i := 0;
      while i < |ctors|
        invariant i <= first < |ctors|
      {
        if IsSubset(ctors[i].key, query) {
          return ctors[i].value;
        }
        i := i + 1;
      }
      assert false;
    }

    method FeaturesFor(query: Class) returns (result: set<Feature>)
      ensures result == FeaturesOf(features, query)
    {
      result := {};
      for i := 0 to |features|
        invariant result == FeaturesOf(features[..i], query)
      {
        assert features[..i + 1][..i] == features[..i];
        if IsSubset(features[i].key, query) {
          result := result + features[i].value;
        }
      }
      assert features[..|features|] == features;
    }

    method AddFeaturesFor(channelClass: Class, more: set<Feature>)
      requires features == AddAll(additions)
      modifies `features, `additions
      ensures additions == old(additions) + [Addition(channelClass, more)]
      ensures features == AddAll(additions) == AddFeatures(old(features), Addition(channelClass, more))
    {
      AlwaysHoldsFeatures(additions);
      AddAllOneMore(additions, Addition(channelClass, more));
      additions := additions + [Addition(channelClass, more)];
      var i := 0;
      while i < |features|
        invariant i <= |features| && features == old(features)
        invariant forall j :: 0 <= j < i ==> |features[j].key| >= |channelClass| && features[j].key != channelClass
      {
        if |channelClass| > |features[i].key| {
          break;
        }
        if features[i].key == channelClass {
          FoundHere(features, channelClass, i);
          features := features[i := Entry(channelClass, features[i].value + more)];
          return;
        }
        i := i + 1;
      }
      InsertHere(features, AddedClasses(old(additions)), channelClass, i);
      features := features[..i] + [Entry(channelClass, more)] + features[i..];
    }
  }

  lemma StartsEmpty()
    ensures SetAll([]) == [] && forall s: seq<Registration> :: s[..0] == []
  {
  }

  lemma SetAllOneMore(rs: seq<Registration>, r: Registration)
    ensures SetAll(rs + [r]) == SetConstructor(SetAll(rs), r)
  {
    assert (rs + [r])[..|rs|] == rs;
  }

  lemma AddAllOneMore(adds: seq<Addition>, a: Addition)
    ensures AddAll(adds + [a]) == AddFeatures(AddAll(adds), a)
  {
    assert (adds + [a])[..|adds|] == adds;
  }

  lemma FoundHere<T>(l: seq<Entry<T>>, key: Class, i: nat)
    requires i < |l| && l[i].key == key
    requires forall j :: 0 <= j < i ==> l[j].key != key
    ensures IndexOf(l, key) == i
  {
  }

  /** A search that stops at the first smaller class has not missed the class it looked for. */
  lemma InsertHere<T>(l: seq<Entry<T>>, h: seq<Class>, key: Class, i: nat)
    requires Indexes(l, h) && i <= |l|
    requires forall j :: 0 <= j < i ==> |l[j].key| >= |key| && l[j].key != key
    requires i < |l| ==> |l[i].key| < |key|
    ensures IndexOf(l, key) == |l| && Rank(l, |key|) == i
  {
    hide Indexes;
    forall j | i <= j < |l| ensures l[j].key != key {
      if j > i {
        Ordered(l, h, i, j);
      }
    }
  }
}
