/** A Document as the summariser sees it: an ordered list of element objects. */
module Documents {
  import opened Elements

  /** The states of a list of element objects, in order. */
  function Records(es: seq<Element>): (rs: seq<Rec>)
    reads es
    ensures |rs| == |es| && forall j :: 0 <= j < |es| ==> rs[j] == es[j].Record()
  {
    seq(|es|, j requires 0 <= j < |es| reads es => es[j].Record())
  }

  class Document {
    var elements: seq<Element>

    /** Each element object appears once and keeps its `properties` key. */
    ghost predicate Valid()
      reads this, elements
    {
      (forall i, j :: 0 <= i < j < |elements| ==> elements[i] != elements[j])
      && forall e | e in elements :: e.Valid()
    }

    /** Builds a document of fresh element objects from stored element records. */
    constructor FromRecords(rs: seq<Rec>)
      requires forall r | r in rs :: "properties" in r.data
      ensures Valid() && Records(elements) == rs
      ensures fresh(elements)
    {
      var es: seq<Element> := [];
      var i := 0;
      while i < |rs|
        invariant 0 <= i <= |rs| && |es| == i
        invariant forall j :: 0 <= j < i ==> fresh(es[j]) && es[j].Valid() && es[j].Record() == rs[j]
        invariant forall j, k :: 0 <= j < k < i ==> es[j] != es[k]
      {
        var e := new Element.Restore(rs[i]);
        es := es + [e];
        i := i + 1;
      }
      elements := es;
    }
  }
}
