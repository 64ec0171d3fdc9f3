/**
 Path scores and path selection (crates/routing). Loss is a real percentage; the other measurements
 are whole numbers.
 */
module Routing {
  import opened Model

  datatype PathSource = ObservedPath | BootstrapPath | AuthorityPath

  datatype PathCandidate = PathCandidate(
    peer: PeerId, pathKind: PathKind, relayPeer: Option<PeerId>, source: PathSource,
    trafficClasses: seq<TrafficClass>, rttMs: nat, jitterMs: nat, lossPct: real, throughputMbps: nat,
    relayPenalty: nat)

  datatype ScoreBreakdown = ScoreBreakdown(
    total: nat, latencyCost: nat, jitterCost: nat, lossCost: nat, throughputCost: nat, relayCost: nat)

  predicate SupportsClass(candidate: PathCandidate, class_: TrafficClass) {
    class_ in candidate.trafficClasses
  }

  /** The cast of a real to an unsigned 32-bit integer truncates and saturates. */
  function TruncateToU32(x: real): nat {
    if x < 0.0 then 0 else Min(x.Floor, U32_LIMIT - 1)
  }

  function ThroughputCost(throughputMbps: nat): nat {
    if throughputMbps / 4 >= 250 then 0 else 250 - throughputMbps / 4
  }

  function Score(c: PathCandidate, class_: TrafficClass): ScoreBreakdown {
    match class_
    case Bulk =>
      ScoreBreakdown(c.relayPenalty + ThroughputCost(c.throughputMbps), 0, 0,
                     TruncateToU32(c.lossPct * 20.0), ThroughputCost(c.throughputMbps), c.relayPenalty)
    case Background =>
      ScoreBreakdown(c.relayPenalty + c.rttMs / 2 + TruncateToU32(c.lossPct * 8.0), c.rttMs / 2, 0,
                     TruncateToU32(c.lossPct * 8.0), 0, c.relayPenalty)
    case _ =>
      ScoreBreakdown(c.rttMs + c.jitterMs * 2 + c.relayPenalty + TruncateToU32(c.lossPct * 10.0), c.rttMs,
                     c.jitterMs * 2, TruncateToU32(c.lossPct * 10.0), 0, c.relayPenalty)
  }

  /** The supporting candidate with the smallest total, scanning from the front. */
  function SelectBestPath(candidates: seq<PathCandidate>, class_: TrafficClass): Option<PathCandidate> {
    if candidates == [] then None
    else
      var last := candidates[|candidates| - 1];
      match SelectBestPath(candidates[..|candidates| - 1], class_)
      case None => if SupportsClass(last, class_) then Some(last) else None
      case Some(best) =>
        if SupportsClass(last, class_) && Score(last, class_).total < Score(best, class_).total then Some(last)
        else Some(best)
  }

  /** `i` is the position of the first supporting candidate of minimal total. */
  ghost predicate FirstMinimum(candidates: seq<PathCandidate>, class_: TrafficClass, i: int) {
    && 0 <= i < |candidates| && SupportsClass(candidates[i], class_)
    && (forall j :: 0 <= j < |candidates| && SupportsClass(candidates[j], class_) ==>
          Score(candidates[i], class_).total <= Score(candidates[j], class_).total)
    && (forall j :: 0 <= j < i && SupportsClass(candidates[j], class_) ==>
          Score(candidates[i], class_).total < Score(candidates[j], class_).total)
  }

  ghost predicate NoneSupports(candidates: seq<PathCandidate>, class_: TrafficClass) {
    forall j :: 0 <= j < |candidates| ==> !SupportsClass(candidates[j], class_)
  }

  lemma {:induction false} SelectsFirstMinimum(candidates: seq<PathCandidate>, class_: TrafficClass)
    ensures SelectBestPath(candidates, class_).None? <==> NoneSupports(candidates, class_)
    ensures SelectBestPath(candidates, class_).Some? ==>
            exists i :: FirstMinimum(candidates, class_, i) && SelectBestPath(candidates, class_).value == candidates[i]
  {
    hide Score, SupportsClass;
    if candidates != [] {
      var front, last := candidates[..|candidates| - 1], |candidates| - 1;
      SelectsFirstMinimum(front, class_);
      assert forall j :: 0 <= j < last ==> front[j] == candidates[j];
      if SelectBestPath(front, class_).Some? {
        var i :| FirstMinimum(front, class_, i) && SelectBestPath(front, class_).value == front[i];
        ExtendMinimum(candidates, class_, i);
      } else if SupportsClass(candidates[last], class_) {
        assert FirstMinimum(candidates, class_, last) by {
          assert forall j :: 0 <= j < last ==> !SupportsClass(front[j], class_);
        }
      }
    }
  }

  lemma ExtendMinimum(candidates: seq<PathCandidate>, class_: TrafficClass, i: int)
    requires candidates != [] && FirstMinimum(candidates[..|candidates| - 1], class_, i)
    ensures var last := |candidates| - 1;
            var smaller := SupportsClass(candidates[last], class_)
                           && Score(candidates[last], class_).total < Score(candidates[i], class_).total;
            FirstMinimum(candidates, class_, if smaller then last else i)
  {
    hide Score, SupportsClass;
    var front := candidates[..|candidates| - 1];
    assert forall j :: 0 <= j < |front| ==> front[j] == candidates[j];
  }

  /** The total is the sum of its parts except for Bulk, where loss is reported but not added. */
  lemma TotalIsSumOfParts(c: PathCandidate, class_: TrafficClass)
    ensures var s := Score(c, class_);
            s.total == s.latencyCost + s.jitterCost + s.lossCost + s.throughputCost + s.relayCost
            <==> (class_ != Bulk || c.lossPct * 20.0 < 1.0)
  {
  }
}
