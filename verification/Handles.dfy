/** Values shared by every module: optional values, handles, contacts and finite collections. */
module Handles {

  datatype Option<+T> = None | Some(value: T)

  /** A Telepathy contact handle.  Zero stands for "no handle". */
  type Handle = nat

  /** A contact object.  The contact manager hands out one object per handle. */
  datatype Contact = Contact(handle: Handle)

  function SetOf<T>(s: seq<T>): set<T> {
    set x | x in s
  }

  lemma SetOfConcat<T>(a: seq<T>, b: seq<T>)
    ensures SetOf(a + b) == SetOf(a) + SetOf(b)
  {
  }

  /** The contacts of a set of handles, keyed by handle. */
  function ContactsOf(hs: set<Handle>): (m: map<Handle, Contact>)
    ensures m.Keys == hs
  {
    map h | h in hs :: Contact(h)
  }

  /** Every handle of a set with the same value. */
  function AllWith<V>(hs: set<Handle>, v: V): (m: map<Handle, V>)
    ensures m.Keys == hs
    ensures forall h :: h in hs ==> m[h] == v
  {
    if hs == {} then map[] else
      HasLeast(hs);
      var h :| h in hs && forall k :: k in hs ==> h <= k;
      AllWith(hs - {h}, v)[h := v]
  }

  lemma {:induction false} HasLeast(hs: set<Handle>)
    requires hs != {}
    ensures exists h :: h in hs && forall k :: k in hs ==> h <= k
  {
    var x :| x in hs;
    var rest := hs - {x};
    if rest == {} {
      assert hs == {x};
    } else {
      HasLeast(rest);
      var h :| h in rest && forall k :: k in rest ==> h <= k;
      assert forall k :: k in hs ==> k == x || k in rest;
      var least := if x < h then x else h;
      assert least in hs && forall k :: k in hs ==> least <= k;
    }
  }

  function HandlesOf(cs: seq<Contact>): set<Handle> {
    set c | c in cs :: c.handle
  }

  function WithHandles(hs: set<Handle>): set<Contact> {
    set h | h in hs :: Contact(h)
  }

  lemma WithHandlesMember(hs: set<Handle>, c: Contact)
    ensures c in WithHandles(hs) <==> c.handle in hs
  {
    if c.handle in hs {
      assert c == Contact(c.handle);
    }
  }

  lemma WithHandlesInjective(a: set<Handle>, b: set<Handle>)
    ensures WithHandles(a) == WithHandles(b) <==> a == b
  {
    if WithHandles(a) == WithHandles(b) {
      forall h ensures h in a <==> h in b {
        WithHandlesMember(a, Contact(h));
        WithHandlesMember(b, Contact(h));
      }
    }
  }
}
