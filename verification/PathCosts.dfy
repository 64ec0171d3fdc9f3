/**
 What each measurement of a path costs, per traffic class, one step at a time from a path with nothing to
 pay for, and what that means for the selection.
 */
module PathCosts {
  import opened Model
  import opened Routing

  // ---------------------------------------------------------------- where the costs start

  /** A path with nothing to pay for: less than one step of everything. */
  predicate CostsNothing(c: PathCandidate) {
    c.rttMs == 0 && c.jitterMs == 0 && c.lossPct == 0.0 && c.throughputMbps == 0 && c.relayPenalty == 0
  }

  /** The start: nothing, except that Bulk pays 250 for having no throughput. */
  lemma FreePath(c: PathCandidate, class_: TrafficClass)
    requires CostsNothing(c)
    ensures Score(c, class_) == if class_ == Bulk then ScoreBreakdown(250, 0, 0, 0, 250, 0)
                                else ScoreBreakdown(0, 0, 0, 0, 0, 0)
  {
  }

  // ---------------------------------------------------------------- one step of each measurement

  /** One more millisecond of round trip costs 1 for Control and Interactive and nothing for Bulk. */
  lemma RttStep(c: PathCandidate, class_: TrafficClass)
    requires class_ != Background
    ensures var s := Score(c, class_);
            Score(c.(rttMs := c.rttMs + 1), class_) ==
              if class_ == Bulk then s else s.(total := s.total + 1, latencyCost := s.latencyCost + 1)
  {
  }

  /** For Background the first millisecond is free and every two cost 1. */
  lemma BackgroundRttStep(c: PathCandidate)
    ensures var s := Score(c, Background);
            && Score(c.(rttMs := c.rttMs + 2), Background) == s.(total := s.total + 1, latencyCost := s.latencyCost + 1)
            && (c.rttMs == 0 ==> Score(c.(rttMs := 1), Background) == s)
  {
    hide TruncateToU32;
  }

  /** One more millisecond of jitter costs 2 for Control and Interactive and nothing otherwise. */
  lemma JitterStep(c: PathCandidate, class_: TrafficClass)
    ensures var s := Score(c, class_);
            Score(c.(jitterMs := c.jitterMs + 1), class_) ==
              if class_ == Bulk || class_ == Background then s
              else s.(total := s.total + 2, jitterCost := s.jitterCost + 2)
  {
    hide TruncateToU32;
  }

  /** One more point of relay penalty costs 1 for every class. */
  lemma PenaltyStep(c: PathCandidate, class_: TrafficClass)
    ensures var s := Score(c, class_);
            Score(c.(relayPenalty := c.relayPenalty + 1), class_) ==
              s.(total := s.total + 1, relayCost := s.relayCost + 1)
  {
    hide TruncateToU32, ThroughputCost;
  }

  /** For Bulk the first 3 Mbps bring nothing and every 4 take off 1, down to 0; for the others throughput is nothing. */
  lemma ThroughputStep(c: PathCandidate, class_: TrafficClass)
    ensures var s := Score(c, class_);
            Score(c.(throughputMbps := c.throughputMbps + 4), class_) ==
              if class_ != Bulk || s.throughputCost == 0 then s
              else s.(total := s.total - 1, throughputCost := s.throughputCost - 1)
    ensures class_ != Bulk ==> forall mbps: nat :: Score(c.(throughputMbps := mbps), class_) == Score(c, class_)
    ensures c.throughputMbps == 0 ==>
      forall mbps: nat :: mbps < 4 ==> Score(c.(throughputMbps := mbps), class_) == Score(c, class_)
  {
    hide TruncateToU32;
  }

  /** How much loss makes one step: a tenth of a percent, an eighth for Background, a twentieth for Bulk. */
  function LossStepSize(class_: TrafficClass): real {
    match class_
    case Bulk => 0.05
    case Background => 0.125
    case _ => 0.1
  }

  /** The cost of loss fits 32 bits with one step to spare. */
  predicate LossFits(c: PathCandidate, class_: TrafficClass) {
    0.0 <= c.lossPct && c.lossPct / LossStepSize(class_) < (U32_LIMIT - 2) as real
  }

  /** One more step of loss costs 1; Bulk reports it and does not pay it. */
  lemma LossStep(c: PathCandidate, class_: TrafficClass)
    requires LossFits(c, class_)
    ensures var s := Score(c, class_);
            Score(c.(lossPct := c.lossPct + LossStepSize(class_)), class_) ==
              s.(total := if class_ == Bulk then s.total else s.total + 1, lossCost := s.lossCost + 1)
  {
    match class_
    case Bulk => NextTruncated(c.lossPct * 20.0);
    case Background => NextTruncated(c.lossPct * 8.0);
    case _ => NextTruncated(c.lossPct * 10.0);
  }

  lemma NextTruncated(x: real)
    requires 0.0 <= x < (U32_LIMIT - 2) as real
    ensures TruncateToU32(x + 1.0) == TruncateToU32(x) + 1
  {
    assert (x + 1.0).Floor == x.Floor + 1;
  }

  /** Loss beyond the 32-bit range costs the largest 32-bit number, and no more. */
  lemma LossSaturates(c: PathCandidate, class_: TrafficClass)
    requires class_ != Bulk && c.lossPct >= 536870912.0
    ensures Score(c, class_).total == Score(c.(lossPct := 0.0), class_).total + 4294967295
  {
    assert c.lossPct * 8.0 >= 4294967296.0 && c.lossPct * 10.0 >= 4294967296.0;
  }

  /** Less than one step of loss costs nothing, and neither does a negative measurement. */
  lemma SmallLossIsFree(c: PathCandidate, class_: TrafficClass)
    requires c.lossPct < LossStepSize(class_)
    ensures Score(c, class_) == Score(c.(lossPct := 0.0), class_)
  {
  }

  // ---------------------------------------------------------------- what the selection prefers

  /** `a` is the better path for the class: it is `b` but for one measurement that the class pays for. */
  predicate Better(a: PathCandidate, b: PathCandidate, class_: TrafficClass) {
    || (a.relayPenalty < b.relayPenalty && b == a.(relayPenalty := b.relayPenalty))
    || (class_ != Bulk && a.rttMs + (if class_ == Background then 2 else 1) <= b.rttMs && b == a.(rttMs := b.rttMs))
    || ((class_ == Control || class_ == Interactive) && a.jitterMs < b.jitterMs && b == a.(jitterMs := b.jitterMs))
    || (class_ == Bulk && b.throughputMbps < 1000 && b.throughputMbps + 4 <= a.throughputMbps
        && b == a.(throughputMbps := b.throughputMbps))
    || (class_ != Bulk && LossFits(a, class_) && a.lossPct + LossStepSize(class_) <= b.lossPct
        && b == a.(lossPct := b.lossPct))
  }

  lemma TruncatedGrows(x: real, y: real)
    requires x <= y
    ensures TruncateToU32(x) <= TruncateToU32(y)
  {
  }

  lemma MoreLossCostsMore(a: PathCandidate, b: PathCandidate, class_: TrafficClass)
    requires class_ != Bulk && LossFits(a, class_) && a.lossPct + LossStepSize(class_) <= b.lossPct
    requires b == a.(lossPct := b.lossPct)
    ensures Score(a, class_).total < Score(b, class_).total
  {
    LossStep(a, class_);
    if class_ == Background {
      TruncatedGrows((a.lossPct + 0.125) * 8.0, b.lossPct * 8.0);
    } else {
      TruncatedGrows((a.lossPct + 0.1) * 10.0, b.lossPct * 10.0);
    }
    hide TruncateToU32;
  }

  lemma BetterCostsLess(a: PathCandidate, b: PathCandidate, class_: TrafficClass)
    requires Better(a, b, class_)
    ensures Score(a, class_).total < Score(b, class_).total
  {
    hide TruncateToU32;
    if class_ != Bulk && LossFits(a, class_) && a.lossPct + LossStepSize(class_) <= b.lossPct
       && b == a.(lossPct := b.lossPct) {
      MoreLossCostsMore(a, b, class_);
    }
  }

  /** What is selected serves the class, and is never a path that a listed path of the class is better than. */
  lemma SelectsNoWorse(candidates: seq<PathCandidate>, class_: TrafficClass)
    ensures SelectBestPath(candidates, class_).Some? <==> exists c :: c in candidates && class_ in c.trafficClasses
    ensures SelectBestPath(candidates, class_).Some? ==>
      var selected := SelectBestPath(candidates, class_).value;
      && selected in candidates && class_ in selected.trafficClasses
      && forall c :: c in candidates && class_ in c.trafficClasses ==> !Better(c, selected, class_)
  {
    SelectsFirstMinimum(candidates, class_);
    hide SelectBestPath, Score, Better;
    if SelectBestPath(candidates, class_).Some? {
      var selected := SelectBestPath(candidates, class_).value;
      var i :| FirstMinimum(candidates, class_, i) && selected == candidates[i];
      forall c | c in candidates && class_ in c.trafficClasses ensures !Better(c, selected, class_) {
        var j :| 0 <= j < |candidates| && candidates[j] == c;
        assert SupportsClass(candidates[j], class_);
        if Better(c, selected, class_) {
          BetterCostsLess(c, selected, class_);
        }
      }
    } else {
      forall c | c in candidates ensures class_ !in c.trafficClasses {
        var j :| 0 <= j < |candidates| && candidates[j] == c;
        assert !SupportsClass(candidates[j], class_);
      }
    }
  }

  /** Of two paths that serve the class the better one is selected, in either order. */
  lemma BetterIsSelected(a: PathCandidate, b: PathCandidate, class_: TrafficClass)
    requires class_ in a.trafficClasses && Better(a, b, class_)
    ensures SelectBestPath([a, b], class_) == Some(a) && SelectBestPath([b, a], class_) == Some(a)
  {
    SelectsNoWorse([a, b], class_);
    SelectsNoWorse([b, a], class_);
    assert a in [a, b] && a in [b, a];
    hide SelectBestPath, Better;
  }
}
