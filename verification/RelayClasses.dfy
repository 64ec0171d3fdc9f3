/**
 The traffic classes that a relay announces are read twice: by path selection in crates/fabric and by
 admission in crates/relay.
 */
module RelayClasses {
  import opened Model
  import opened RelayWire
  import D = DurableState

  lemma {:induction false} NamedExactly(names: seq<string>, class_: TrafficClass)
    ensures class_ in D.NamedClasses(names) <==> exists n :: n in names && D.ClassOfName(n) == Some(class_)
  {
    if names != [] {
      NamedExactly(names[1..], class_);
      assert names == [names[0]] + names[1..];
    }
  }

  /** Outside Bulk both readings know a class by the same one name. */
  lemma SameName(names: seq<string>, class_: TrafficClass)
    requires class_ != Bulk
    ensures class_ in D.NamedClasses(names) <==> SupportsTrafficClass(names, class_)
  {
    NamedExactly(names, class_);
    if n :| n in names && D.ClassOfName(n) == Some(class_) {
      assert AcceptsClass(n, class_);
    }
    if n :| n in names && AcceptsClass(n, class_) {
      assert D.ClassOfName(n) == Some(class_);
    }
  }

  lemma BulkNames(names: seq<string>)
    ensures Bulk in D.RelayTrafficClasses(names) <==> "Bulk" in names
    ensures SupportsTrafficClass(names, Bulk) <==> "BulkTransfer" in names
  {
    NamedExactly(names, Bulk);
    if "Bulk" in names {
      assert D.ClassOfName("Bulk") == Some(Bulk);
    }
    if "BulkTransfer" in names {
      assert AcceptsClass("BulkTransfer", Bulk);
    }
  }

  /** Some name in the announcement is one that path selection recognises. */
  predicate AnyRecognised(names: seq<string>) {
    exists n :: n in names && D.ClassOfName(n).Some?
  }

  lemma {:induction false} RecognisedExactly(names: seq<string>)
    ensures D.NamedClasses(names) != [] <==> AnyRecognised(names)
  {
    if names != [] {
      RecognisedExactly(names[1..]);
      assert names == [names[0]] + names[1..];
    }
  }

  /**
   When selection and admission agree, for every announcement and class. Bulk goes by two names, so they
   agree on it when both or neither is announced. On the other classes they agree when selection
   recognises any name; when it recognises none it assumes Control and Interactive, which admission
   refuses, and they agree on Background only.
   */
  lemma SelectionAndAdmission(names: seq<string>, class_: TrafficClass)
    ensures (class_ in D.RelayTrafficClasses(names) <==> SupportsTrafficClass(names, class_)) <==>
            if class_ == Bulk then ("Bulk" in names <==> "BulkTransfer" in names)
            else AnyRecognised(names) || class_ == Background
  {
    RecognisedExactly(names);
    if class_ == Bulk {
      BulkNames(names);
    } else {
      SameName(names, class_);
    }
    hide SupportsTrafficClass, AnyRecognised;
  }

  /** A relay refuses every session of a class that its admission does not know, selected or not. */
  lemma RefusedAtRelay(node: RelayNode, sessions: Sessions, request: RelayOpenRequest, freshId: SessionId)
    requires request.proofValid && !SupportsTrafficClass(node.trafficClasses, request.trafficClass)
    ensures OpenSession(node, sessions, request, freshId) == (sessions, Err(UnsupportedTrafficClass))
  {
    hide SupportsTrafficClass;
  }

  /**
   The worst announcement: a relay that announces "BulkTransfer" alone is selected for Control and
   Interactive, refuses both, and is never selected for Bulk, the one class that it would admit.
   */
  lemma BulkTransferAlone()
    ensures var names := ["BulkTransfer"];
            && Control in D.RelayTrafficClasses(names) && !SupportsTrafficClass(names, Control)
            && Interactive in D.RelayTrafficClasses(names) && !SupportsTrafficClass(names, Interactive)
            && Bulk !in D.RelayTrafficClasses(names) && SupportsTrafficClass(names, Bulk)
  {
    var names := ["BulkTransfer"];
    RecognisedExactly(names);
    BulkNames(names);
    SameName(names, Control);
    SameName(names, Interactive);
  }
}
