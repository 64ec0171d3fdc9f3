/**
 When the hint counts of a merge account for the change in size. Hints are compared by peer when both
 have one and by addresses otherwise, which is symmetric but not transitive.
 */
module HintCounts {
  import opened Model
  import opened SnapshotMerge

  /** The hints of `hints` that have a partner in `others`. */
  function Partnered(others: seq<BootstrapHint>, hints: seq<BootstrapHint>): seq<BootstrapHint> {
    Filter(hints, (h: BootstrapHint) => KnownHint(others, h))
  }

  /** The counts account for the change in size. */
  predicate Balances(current: seq<BootstrapHint>, incoming: seq<BootstrapHint>) {
    |current| - |NewHints(incoming, current)| + |NewHints(current, incoming)| == |incoming|
  }

  lemma {:induction false} SplitByPartner(others: seq<BootstrapHint>, hints: seq<BootstrapHint>)
    ensures |hints| == |NewHints(others, hints)| + |Partnered(others, hints)|
  {
    hide KnownHint;
    if hints != [] {
      SplitByPartner(others, hints[1..]);
    }
  }

  /** The counts balance exactly when as many current as incoming hints have partners. */
  lemma BalanceExactly(current: seq<BootstrapHint>, incoming: seq<BootstrapHint>)
    ensures Balances(current, incoming) <==> |Partnered(incoming, current)| == |Partnered(current, incoming)|
  {
    SplitByPartner(incoming, current);
    SplitByPartner(current, incoming);
    hide NewHints, Partnered;
  }

  // ---------------------------------------------------------------- one to one

  /** No hint of `hints` has two partners in `others`. */
  ghost predicate AtMostOnePartner(hints: seq<BootstrapHint>, others: seq<BootstrapHint>) {
    forall i, j, k :: 0 <= i < |hints| && 0 <= j < k < |others| ==>
      !(SameHint(hints[i], others[j]) && SameHint(hints[i], others[k]))
  }

  ghost function PartneredPositions(others: seq<BootstrapHint>, hints: seq<BootstrapHint>): set<int> {
    set i | 0 <= i < |hints| && KnownHint(others, hints[i])
  }

  ghost function Partners(current: seq<BootstrapHint>, incoming: seq<BootstrapHint>): set<(int, int)> {
    set i, j | 0 <= i < |current| && 0 <= j < |incoming| && SameHint(current[i], incoming[j]) :: (i, j)
  }

  lemma {:induction false} CountPositions(others: seq<BootstrapHint>, hints: seq<BootstrapHint>)
    ensures |Partnered(others, hints)| == |PartneredPositions(others, hints)|
  {
    hide KnownHint;
    if hints != [] {
      var front, last := hints[..|hints| - 1], |hints| - 1;
      var keep := (h: BootstrapHint) => KnownHint(others, h);
      assert hints == front + [hints[last]];
      FilterAppend(front, [hints[last]], keep);
      CountPositions(others, front);
      assert PartneredPositions(others, hints)
          == PartneredPositions(others, front) + if KnownHint(others, hints[last]) then {last} else {};
    } else {
      assert PartneredPositions(others, hints) == {};
    }
  }

  ghost function Lefts(pairs: set<(int, int)>): set<int> {
    set p | p in pairs :: p.0
  }

  ghost function Rights(pairs: set<(int, int)>): set<int> {
    set p | p in pairs :: p.1
  }

  lemma {:induction false} CountLefts(pairs: set<(int, int)>)
    requires forall p, q :: p in pairs && q in pairs && p != q ==> p.0 != q.0
    ensures |Lefts(pairs)| == |pairs|
  {
    if pairs == {} {
      assert Lefts(pairs) == {};
    } else {
      var p :| p in pairs;
      CountLefts(pairs - {p});
      assert Lefts(pairs) == Lefts(pairs - {p}) + {p.0};
    }
  }

  lemma {:induction false} CountRights(pairs: set<(int, int)>)
    requires forall p, q :: p in pairs && q in pairs && p != q ==> p.1 != q.1
    ensures |Rights(pairs)| == |pairs|
  {
    if pairs == {} {
      assert Rights(pairs) == {};
    } else {
      var p :| p in pairs;
      CountRights(pairs - {p});
      assert Rights(pairs) == Rights(pairs - {p}) + {p.1};
    }
  }

  lemma SidesOfPartners(current: seq<BootstrapHint>, incoming: seq<BootstrapHint>)
    ensures Lefts(Partners(current, incoming)) == PartneredPositions(incoming, current)
    ensures Rights(Partners(current, incoming)) == PartneredPositions(current, incoming)
  {
    var pairs := Partners(current, incoming);
    forall i ensures i in Lefts(pairs) <==> i in PartneredPositions(incoming, current) {
      if i in PartneredPositions(incoming, current) {
        var h :| h in incoming && SameHint(h, current[i]);
        var j :| 0 <= j < |incoming| && incoming[j] == h;
        assert (i, j) in pairs;
      }
      if i in Lefts(pairs) {
        var p :| p in pairs && p.0 == i;
        assert incoming[p.1] in incoming && SameHint(incoming[p.1], current[i]);
      }
    }
    forall j ensures j in Rights(pairs) <==> j in PartneredPositions(current, incoming) {
      if j in PartneredPositions(current, incoming) {
        var h :| h in current && SameHint(h, incoming[j]);
        var i :| 0 <= i < |current| && current[i] == h;
        assert (i, j) in pairs;
      }
      if j in Rights(pairs) {
        var p :| p in pairs && p.1 == j;
        assert current[p.0] in current;
      }
    }
  }

  /** When no hint has two partners in the other list, the counts balance. */
  lemma OneToOneBalances(current: seq<BootstrapHint>, incoming: seq<BootstrapHint>)
    requires AtMostOnePartner(current, incoming) && AtMostOnePartner(incoming, current)
    ensures Balances(current, incoming)
  {
    var pairs := Partners(current, incoming);
    forall p, q | p in pairs && q in pairs && p != q ensures p.0 != q.0 && p.1 != q.1 {
    }
    hide AtMostOnePartner, Partnered, PartneredPositions, Lefts, Rights, Partners, Balances, SameHint;
    CountLefts(pairs);
    CountRights(pairs);
    SidesOfPartners(current, incoming);
    CountPositions(incoming, current);
    CountPositions(current, incoming);
    BalanceExactly(current, incoming);
  }

  // ---------------------------------------------------------------- lists that are one to one

  /** Every hint names a peer, and no two name the same. */
  ghost predicate UniquePeers(hints: seq<BootstrapHint>) {
    && (forall i :: 0 <= i < |hints| ==> hints[i].peer.Some?)
    && (forall i, j :: 0 <= i < j < |hints| ==> hints[i].peer != hints[j].peer)
  }

  /** With unique peers on both sides, as with unique grant keys, the reported counts account for the change in size. */
  lemma HintCountsBalance(networkId: string, current: AuthoritySnapshot, incoming: AuthoritySnapshot)
    requires MergeSnapshot(networkId, Some(current), incoming).Ok?
    requires UniquePeers(current.hints) && UniquePeers(incoming.hints)
    ensures var (merged, delta) := MergeSnapshot(networkId, Some(current), incoming).value;
            |current.hints| - delta.hintsRemoved + delta.hintsAdded == |merged.hints|
  {
    OneToOneBalances(current.hints, incoming.hints);
  }

  /** The counts of any accepted merge balance exactly when as many current as incoming hints have partners. */
  lemma HintCountsBalanceExactly(networkId: string, current: AuthoritySnapshot, incoming: AuthoritySnapshot)
    requires MergeSnapshot(networkId, Some(current), incoming).Ok?
    ensures var (merged, delta) := MergeSnapshot(networkId, Some(current), incoming).value;
            |current.hints| - delta.hintsRemoved + delta.hintsAdded == |merged.hints| <==>
            |Partnered(incoming.hints, current.hints)| == |Partnered(current.hints, incoming.hints)|
  {
    BalanceExactly(current.hints, incoming.hints);
    hide Partnered, AppendRevocations, NewGrants, NewHints, ConflictingGrants;
  }

  // ---------------------------------------------------------------- lists that are not

  function HintOf(peer: Option<string>, address: string): BootstrapHint {
    BootstrapHint(peer, [address], map[])
  }

  lemma AllPartnered(others: seq<BootstrapHint>, hints: seq<BootstrapHint>)
    requires forall h :: h in hints ==> KnownHint(others, h)
    ensures NewHints(others, hints) == []
  {
    FilterNone(hints, (h: BootstrapHint) => !KnownHint(others, h));
  }

  /**
   Two current hints of different peers have one partner in an incoming hint without a peer: nothing is
   reported added or removed, and yet there is one hint less.
   */
  lemma HintCountsNeedNotBalance()
    ensures var current := [HintOf(Some("p"), "x"), HintOf(Some("q"), "x")];
            var incoming := [HintOf(None, "x")];
            && NewHints(current, incoming) == [] && NewHints(incoming, current) == []
            && !Balances(current, incoming)
  {
    var a, b, c := HintOf(Some("p"), "x"), HintOf(Some("q"), "x"), HintOf(None, "x");
    assert a in [a, b] && c in [c] && SameHint(a, c) && SameHint(c, a) && SameHint(c, b);
    AllPartnered([a, b], [c]);
    AllPartnered([c], [a, b]);
  }

  lemma NothingNewBalances(current: seq<BootstrapHint>, incoming: seq<BootstrapHint>)
    requires NewHints(current, incoming) == [] && NewHints(incoming, current) == [] && |current| == |incoming|
    ensures Balances(current, incoming)
  {
    hide NewHints;
  }

  lemma TwoPartners(hints: seq<BootstrapHint>, others: seq<BootstrapHint>)
    requires hints != [] && |others| >= 2 && SameHint(hints[0], others[0]) && SameHint(hints[0], others[1])
    ensures !AtMostOnePartner(hints, others)
  {
    hide SameHint;
  }

  /** One to one is not needed: here every hint has two partners and the counts balance all the same. */
  lemma BalanceWithoutOneToOne(a: BootstrapHint, b: BootstrapHint)
    requires a.peer.None? && b.addresses == a.addresses
    ensures !AtMostOnePartner([a, b], [b, a]) && !AtMostOnePartner([b, a], [a, b])
    ensures Balances([a, b], [b, a])
  {
    var current, incoming := [a, b], [b, a];
    hide NewHints, AtMostOnePartner, Balances, NormalizedAddresses;
    assert KnownHint(current, a) && KnownHint(current, b) && KnownHint(incoming, a) && KnownHint(incoming, b) by {
      assert a in current && a in incoming && SameHint(a, a) && SameHint(a, b);
    }
    hide KnownHint;
    AllPartnered(current, incoming);
    AllPartnered(incoming, current);
    NothingNewBalances(current, incoming);
    TwoPartners(current, incoming);
    BothAreSame(a, b);
    TwoPartners(incoming, current);
  }

  lemma BothAreSame(a: BootstrapHint, b: BootstrapHint)
    requires a.peer.None? && b.addresses == a.addresses
    ensures SameHint(b, a) && SameHint(b, b)
  {
    hide NormalizedAddresses;
  }
}
