/** Channel classes: sets of property values that channels can be asked to have. */
module ChannelClasses {
  /** The two properties every class of immutable properties has, and all the others by name. */
  datatype Property = ChannelType | TargetHandleType | Requested | Named(name: string)

  /** The channel types the library has constructors for, and all the others by interface name. */
  datatype TypeName =
    | TextType | StreamedMediaType | RoomListType | FileTransferType | StreamTubeType | ContactSearchType
    | OtherType(interfaceName: string)

  datatype Value =
    | Type(typeName: TypeName)
    | Text(text: string)
    | Number(number: nat)
    | Flag(flag: bool)
    | Other(id: nat)

  /** A class is its properties; an invalid class has none. */
  type Class = map<Property, Value>

  const NO_CLASS: Class := map[]

  predicate IsSubset(a: Class, b: Class) {
    forall p :: p in a ==> p in b && a[p] == b[p]
  }

  /** The class of a channel's immutable properties: its type and handle type default to nothing. */
  function ClassOf(properties: map<Property, Value>): Class {
    map[ChannelType := Text(""), TargetHandleType := Number(0)] + properties
  }

  predicate Matches(c: Class, properties: map<Property, Value>) {
    IsSubset(c, ClassOf(properties))
  }

  /** A property missing from a channel is matched exactly by the value its class defaults to. */
  lemma MatchesIff(c: Class, properties: map<Property, Value>)
    ensures Matches(c, properties)
       <==> forall p :: p in c ==>
              if p in properties then c[p] == properties[p]
              else (p == ChannelType && c[p] == Text("")) || (p == TargetHandleType && c[p] == Number(0))
    ensures ChannelType in properties && TargetHandleType in properties ==>
              (Matches(c, properties) <==> IsSubset(c, properties))
  {
  }

  lemma SmallerSets<T>(a: set<T>, b: set<T>)
    requires a <= b
    ensures |a| <= |b|
    ensures |a| == |b| ==> a == b
  {
    assert b == a + (b - a);
    assert |b| == |a| + |b - a|;
    if |a| == |b| {
      assert b - a == {};
    }
  }

  /** Being a subset is a partial order, and a proper subset has fewer properties. */
  lemma SubsetIsPartialOrder(a: Class, b: Class, c: Class)
    ensures IsSubset(NO_CLASS, a) && IsSubset(a, a)
    ensures IsSubset(a, b) && IsSubset(b, c) ==> IsSubset(a, c)
    ensures IsSubset(a, b) && IsSubset(b, a) ==> a == b
    ensures IsSubset(a, b) ==> |a| <= |b|
    ensures IsSubset(a, b) && |a| == |b| ==> a == b
  {
    if IsSubset(a, b) {
      assert a.Keys <= b.Keys;
      SmallerSets(a.Keys, b.Keys);
      assert |a| == |a.Keys| && |b| == |b.Keys|;
    }
  }

  class ChannelClassSpec {
    var props: map<Property, Value>

    constructor ()
      ensures props == NO_CLASS
    {
      props := map[];
    }

    /** The class of a channel's immutable properties. */
    constructor FromProperties(properties: map<Property, Value>)
      ensures props == ClassOf(properties)
    {
      props := map[];
      new;
      SetProperty(ChannelType, if ChannelType in properties then properties[ChannelType] else Text(""));
      SetProperty(TargetHandleType, if TargetHandleType in properties then properties[TargetHandleType] else Number(0));
      SetProperties(properties);
    }

    /** The loop by which every constructor takes over a map of properties. */
    method SetProperties(properties: map<Property, Value>)
      modifies this
      ensures props == old(props) + properties
    {
      var rest := properties.Keys;
      while rest != {}
        invariant rest <= properties.Keys
        invariant props == old(props) + (properties - rest)
        decreases |rest|
      {
        var p :| p in rest;
        rest := rest - {p};
        assert (old(props) + (properties - (rest + {p})))[p := properties[p]] == old(props) + (properties - rest);
        SetProperty(p, properties[p]);
      }
      assert properties - {} == properties;
    }

    method SetProperty(p: Property, v: Value)
      modifies this
      ensures props == old(props)[p := v]
    {
      props := props[p := v];
    }

    method UnsetProperty(p: Property)
      modifies this
      ensures props == old(props) - {p}
    {
      props := props - {p};
    }

    method IsSubsetOf(other: ChannelClassSpec) returns (r: bool)
      ensures r == IsSubset(props, other.props)
    {
      var rest := props.Keys;
      while rest != {}
        invariant rest <= props.Keys
        invariant forall p :: p in props && p !in rest ==> p in other.props && props[p] == other.props[p]
        decreases |rest|
      {
        var p :| p in rest;
        if p !in other.props {
          return false;
        } else if props[p] != other.props[p] {
          return false;
        }
        rest := rest - {p};
      }
      return true;
    }

    method MatchesProperties(properties: map<Property, Value>) returns (r: bool)
      ensures r == Matches(props, properties)
    {
      var other := new ChannelClassSpec.FromProperties(properties);
      r := IsSubsetOf(other);
    }
  }

  /** Setting a property the class does not have makes it larger; unsetting it undoes that. */
  lemma UnsetUndoesSet(c: Class, p: Property, v: Value)
    requires p !in c
    ensures c[p := v] - {p} == c
    ensures IsSubset(c, c[p := v]) && |c[p := v]| == |c| + 1
  {
    assert c[p := v].Keys == c.Keys + {p};
    assert |c[p := v]| == |c[p := v].Keys|;
  }
}
