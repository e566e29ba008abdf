/** Membership deltas of Channel.Interface.Group and what they mean to the service. */
module GroupDelta {
  import opened Handles

  const REASON_RENAMED: nat := 9

  /** The well-known entries of a change's details map. */
  datatype Details = Details(actor: Option<Handle>, reason: Option<nat>, message: Option<string>) {
    /** The actor handle as read out of the map: an absent entry reads as zero. */
    function Actor(): Handle {
      if actor.Some? then actor.value else 0
    }

    function Reason(): nat {
      if reason.Some? then reason.value else 0
    }
  }

  const NO_DETAILS := Details(None, None, None)

  datatype Delta = Delta(added: seq<Handle>, removed: seq<Handle>,
                         localPending: seq<Handle>, remotePending: seq<Handle>,
                         details: Details) {
    predicate IsEmpty() {
      added == [] && removed == [] && localPending == [] && remotePending == []
    }
  }

  /** The three membership sets of a group. */
  datatype Sets = Sets(members: set<Handle>, localPending: set<Handle>, remotePending: set<Handle>)

  const NOBODY := Sets({}, {}, {})

  predicate Disjoint(s: Sets) {
    && s.members !! s.localPending
    && s.members !! s.remotePending
    && s.localPending !! s.remotePending
  }

  function Everyone(s: Sets): set<Handle> {
    s.members + s.localPending + s.remotePending
  }

  /** The meaning the specification gives a delta: every handle moves to the list that names it. */
  function Apply(s: Sets, d: Delta): Sets {
    var a, x := SetOf(d.added), SetOf(d.removed);
    var l, p := SetOf(d.localPending), SetOf(d.remotePending);
    Sets((s.members + a) - l - p - x, (s.localPending + l) - a - p - x, (s.remotePending + p) - a - l - x)
  }

  function ApplyAll(s: Sets, ds: seq<Delta>): Sets
    decreases |ds|
  {
    if ds == [] then s else ApplyAll(Apply(s, ds[0]), ds[1..])
  }

  /** The four lists of a delta name different handles. */
  predicate ListsDisjoint(d: Delta) {
    var a, x := SetOf(d.added), SetOf(d.removed);
    var l, p := SetOf(d.localPending), SetOf(d.remotePending);
    a !! x && a !! l && a !! p && x !! l && x !! p && l !! p
  }

  /** Handles enter the pending lists only from outside the group (or are there already). */
  predicate EntersFromOutside(s: Sets, d: Delta) {
    && SetOf(d.localPending) !! s.members + s.remotePending
    && SetOf(d.remotePending) !! s.members + s.localPending
  }

  predicate WellFormed(s: Sets, d: Delta) {
    ListsDisjoint(d) && EntersFromOutside(s, d)
  }

  predicate AllWellFormed(s: Sets, ds: seq<Delta>)
    decreases |ds|
  {
    ds != [] ==> WellFormed(s, ds[0]) && AllWellFormed(Apply(s, ds[0]), ds[1..])
  }

  lemma ApplyKeepsDisjoint(s: Sets, d: Delta)
    requires Disjoint(s)
    requires ListsDisjoint(d)
    ensures Disjoint(Apply(s, d))
  {
  }

  lemma {:induction false} ApplyAllConcat(s: Sets, a: seq<Delta>, b: seq<Delta>)
    ensures ApplyAll(s, a + b) == ApplyAll(ApplyAll(s, a), b)
    ensures AllWellFormed(s, a + b) <==> AllWellFormed(s, a) && AllWellFormed(ApplyAll(s, a), b)
    decreases |a|
  {
    if a == [] {
      assert a + b == b;
    } else {
      assert (a + b)[0] == a[0] && (a + b)[1..] == a[1..] + b;
      ApplyAllConcat(Apply(s, a[0]), a[1..], b);
    }
  }

  lemma ApplyOneMore(s: Sets, ds: seq<Delta>, d: Delta)
    ensures ApplyAll(s, ds + [d]) == Apply(ApplyAll(s, ds), d)
  {
    ApplyAllConcat(s, ds, [d]);
    assert ApplyAll(ApplyAll(s, ds), [d]) == ApplyAll(Apply(ApplyAll(s, ds), d), []);
  }

  // ---------------------------------------------------------------- deltas without effect

  /** A delta that removes only strangers, and names others only for the lists they are in. */
  predicate ChangesNobody(s: Sets, d: Delta) {
    && SetOf(d.removed) !! Everyone(s)
    && SetOf(d.added) <= s.members
    && SetOf(d.localPending) <= s.localPending
    && SetOf(d.remotePending) <= s.remotePending
  }

  lemma ApplyChangesNobodyIff(s: Sets, d: Delta)
    requires Disjoint(s) && ListsDisjoint(d)
    ensures Apply(s, d) == s <==> ChangesNobody(s, d)
  {
    var n := Apply(s, d);
    if n == s {
      forall h | h in SetOf(d.removed) ensures h !in Everyone(s) {
        assert h !in Everyone(n);
      }
      assert forall h :: h in SetOf(d.added) ==> h in n.members;
      assert forall h :: h in SetOf(d.localPending) ==> h in n.localPending;
      assert forall h :: h in SetOf(d.remotePending) ==> h in n.remotePending;
    }
  }

  /** A delta leaves nobody it removes in the group. */
  lemma RemovedAreStrangers(s: Sets, d: Delta, h: Handle)
    requires h in d.removed
    ensures h !in Everyone(Apply(s, d))
  {
    assert h in SetOf(d.removed);
  }

  // ---------------------------------------------------------------- two groups, one stream of deltas

  predicate Names(d: Delta, h: Handle) {
    h in d.added || h in d.removed || h in d.localPending || h in d.remotePending
  }

  predicate IsNamed(ds: seq<Delta>, h: Handle)
    decreases |ds|
  {
    ds != [] && (Names(ds[0], h) || IsNamed(ds[1..], h))
  }

  predicate SamePlace(a: Sets, b: Sets, h: Handle) {
    && (h in a.members <==> h in b.members)
    && (h in a.localPending <==> h in b.localPending)
    && (h in a.remotePending <==> h in b.remotePending)
  }

  /** Two groups that saw the same deltas agree about a handle exactly if they did before or one of
      the deltas names it. */
  lemma {:induction false} SamePlaceAfterIff(a: Sets, b: Sets, ds: seq<Delta>, h: Handle)
    ensures SamePlace(ApplyAll(a, ds), ApplyAll(b, ds), h) <==> SamePlace(a, b, h) || IsNamed(ds, h)
    decreases |ds|
  {
    if ds != [] {
      SamePlaceAfterIff(Apply(a, ds[0]), Apply(b, ds[0]), ds[1..], h);
    }
  }

  /** Whether two groups that saw the same deltas are equal. */
  lemma EqualAfterIff(a: Sets, b: Sets, ds: seq<Delta>)
    ensures ApplyAll(a, ds) == ApplyAll(b, ds) <==> forall h :: SamePlace(a, b, h) || IsNamed(ds, h)
  {
    var x, y := ApplyAll(a, ds), ApplyAll(b, ds);
    forall h ensures SamePlace(x, y, h) <==> SamePlace(a, b, h) || IsNamed(ds, h) {
      SamePlaceAfterIff(a, b, ds, h);
    }
    if forall h :: SamePlace(x, y, h) {
      assert x.members == y.members by {
        forall h ensures h in x.members <==> h in y.members {
          assert SamePlace(x, y, h);
        }
      }
      assert x.localPending == y.localPending by {
        forall h ensures h in x.localPending <==> h in y.localPending {
          assert SamePlace(x, y, h);
        }
      }
      assert x.remotePending == y.remotePending by {
        forall h ensures h in x.remotePending <==> h in y.remotePending {
          assert SamePlace(x, y, h);
        }
      }
    }
  }
}
