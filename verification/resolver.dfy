/** The parent lookup of the generator: for one class, a scan over all
    associations in list order in which every inheritance association into the
    class overwrites the candidate, so the last one wins. */
module Resolver {
  import opened Uml

  /** The scan's test: an inheritance association whose `to` is class `n`. */
  predicate InheritsInto(a: Assoc, n: string)
  {
    a.kind == Inheritance && a.to == n
  }

  /** The scan loop from candidate `acc` over the remaining associations. */
  function Scan(assocs: seq<Assoc>, n: string, acc: Option<string>): Option<string>
    decreases |assocs|
  {
    if |assocs| == 0 then acc
    else Scan(assocs[1..], n, if InheritsInto(assocs[0], n) then Some(assocs[0].from) else acc)
  }

  /** The parent of class `n`: the scan started from no candidate. */
  function Parent(assocs: seq<Assoc>, n: string): Option<string>
  {
    Scan(assocs, n, None)
  }

  /** The scan keeps its starting candidate when nothing matches, and otherwise
      ends on the `from` of the last match. */
  lemma {:induction false} ScanSpec(assocs: seq<Assoc>, n: string, acc: Option<string>)
    ensures (forall i :: 0 <= i < |assocs| ==> !InheritsInto(assocs[i], n)) ==>
              Scan(assocs, n, acc) == acc
    ensures (exists i :: 0 <= i < |assocs| && InheritsInto(assocs[i], n)) ==>
              Scan(assocs, n, acc).Some?
    ensures forall i :: 0 <= i < |assocs| && InheritsInto(assocs[i], n) &&
                        (forall j :: i < j < |assocs| ==> !InheritsInto(assocs[j], n)) ==>
              Scan(assocs, n, acc) == Some(assocs[i].from)
    decreases |assocs|
  {
    if |assocs| > 0 {
      var tail := assocs[1..];
      var acc' := if InheritsInto(assocs[0], n) then Some(assocs[0].from) else acc;
      ScanSpec(tail, n, acc');
      assert forall j :: 0 <= j < |tail| ==> tail[j] == assocs[j + 1];
      if exists i :: 0 <= i < |assocs| && InheritsInto(assocs[i], n) {
        var i :| 0 <= i < |assocs| && InheritsInto(assocs[i], n);
        if i > 0 {
          assert InheritsInto(tail[i - 1], n);
        }
      }
    }
  }

  /** A class has a parent exactly when some inheritance association points at
      it, and the parent is the `from` of the last such association. */
  lemma ParentIsLastMatch(assocs: seq<Assoc>, n: string)
    ensures Parent(assocs, n).None? <==>
              forall i :: 0 <= i < |assocs| ==> !InheritsInto(assocs[i], n)
    ensures forall i :: 0 <= i < |assocs| && InheritsInto(assocs[i], n) &&
                        (forall j :: i < j < |assocs| ==> !InheritsInto(assocs[j], n)) ==>
              Parent(assocs, n) == Some(assocs[i].from)
  {
    ScanSpec(assocs, n, None);
  }

  /** Any parent found is the `from` of an inheritance association into the class
      that no later inheritance association into the class overrides. */
  lemma ParentWitness(assocs: seq<Assoc>, n: string)
    requires Parent(assocs, n).Some?
    ensures exists i :: 0 <= i < |assocs| && InheritsInto(assocs[i], n) &&
                        assocs[i].from == Parent(assocs, n).value &&
                        (forall j :: i < j < |assocs| ==> !InheritsInto(assocs[j], n))
  {
    ParentIsLastMatch(assocs, n);
    var i := LastMatch(assocs, n, |assocs|);
  }

  /** The last index below `bound` whose association inherits into `n`, if any. */
  function LastMatch(assocs: seq<Assoc>, n: string, bound: nat): (i: int)
    requires bound <= |assocs|
    ensures -1 <= i < bound
    ensures i >= 0 ==> InheritsInto(assocs[i], n)
    ensures forall j :: i < j < bound ==> !InheritsInto(assocs[j], n)
  {
    if bound == 0 then -1
    else if InheritsInto(assocs[bound - 1], n) then bound - 1
    else LastMatch(assocs, n, bound - 1)
  }

  /** Two inheritance associations into the same class: the later one decides. */
  lemma LaterInheritanceWins(first: string, second: string, child: string, others: seq<Assoc>)
    requires forall j :: 0 <= j < |others| ==> !InheritsInto(others[j], child)
    ensures Parent([Assoc(Inheritance, first, child), Assoc(Inheritance, second, child)] + others, child)
            == Some(second)
  {
    var assocs := [Assoc(Inheritance, first, child), Assoc(Inheritance, second, child)] + others;
    assert InheritsInto(assocs[1], child);
    assert forall j :: 1 < j < |assocs| ==> assocs[j] == others[j - 2];
    ParentIsLastMatch(assocs, child);
  }
}
