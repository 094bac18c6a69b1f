/** The name-keyed class table `{cls["name"]: cls for cls in diagram["classes"]}`
    with Python dict semantics: keys keep the order in which each distinct name
    first appears, and the value under a name is the last record with that name.
    The table is a sequence of records whose names are pairwise distinct. */
module ClassTable {
  import opened Uml

  /** Position of the first record named `n`, or `|cs|` when there is none. */
  function IndexOf(cs: seq<Cls>, n: string): (r: nat)
    ensures r <= |cs|
    ensures r < |cs| ==> cs[r].name == n
    ensures forall j :: 0 <= j < r ==> cs[j].name != n
  {
    if |cs| == 0 then 0
    else if cs[0].name == n then 0
    else 1 + IndexOf(cs[1..], n)
  }

  /** Position of the last record named `n`, or `|cs|` when there is none. */
  function LastIndexOf(cs: seq<Cls>, n: string): (r: nat)
    ensures r <= |cs|
    ensures r < |cs| ==> cs[r].name == n
    ensures forall j :: r < j < |cs| ==> cs[j].name != n
    ensures r == |cs| ==> forall j :: 0 <= j < |cs| ==> cs[j].name != n
  {
    if |cs| == 0 then 0
    else if cs[|cs| - 1].name == n then |cs| - 1
    else
      var r := LastIndexOf(cs[..|cs| - 1], n);
      if r < |cs| - 1 then r else |cs|
  }

  /** The set of names the records carry. */
  function Names(cs: seq<Cls>): set<string>
  {
    set c | c in cs :: c.name
  }

  /** Dict assignment `table[c.name] = c`: an existing key keeps its position
      and takes the new value; a new key goes to the end. */
  function Put(t: seq<Cls>, c: Cls): seq<Cls>
  {
    var k := IndexOf(t, c.name);
    if k < |t| then t[k := c] else t + [c]
  }

  /** The table after inserting every record in list order. */
  function Build(cs: seq<Cls>): seq<Cls>
  {
    if |cs| == 0 then [] else Put(Build(cs[..|cs| - 1]), cs[|cs| - 1])
  }

  /** The records of `t` have pairwise distinct names. */
  ghost predicate DistinctNames(t: seq<Cls>)
  {
    forall i, j :: 0 <= i < j < |t| ==> t[i].name != t[j].name
  }

  lemma IndexOfSnoc(cs: seq<Cls>, c: Cls, n: string)
    ensures IndexOf(cs + [c], n) ==
              if IndexOf(cs, n) < |cs| then IndexOf(cs, n)
              else if c.name == n then |cs| else |cs| + 1
  {
    var r := IndexOf(cs + [c], n);
    var q := IndexOf(cs, n);
    if q < |cs| {
      assert (cs + [c])[q].name == n;
    } else if c.name == n {
      assert (cs + [c])[|cs|].name == n;
    }
  }

  lemma LastIndexOfSnoc(cs: seq<Cls>, c: Cls, n: string)
    ensures LastIndexOf(cs + [c], n) ==
              if c.name == n then |cs|
              else if LastIndexOf(cs, n) < |cs| then LastIndexOf(cs, n) else |cs| + 1
  {
    assert (cs + [c])[..|cs|] == cs;
  }

  lemma NamesSnoc(cs: seq<Cls>, c: Cls)
    ensures Names(cs + [c]) == Names(cs) + {c.name}
  {
    assert forall x :: x in cs + [c] <==> x in cs || x == c;
  }

  /** Each record of `t` is the last record in `cs` carrying its name. */
  ghost predicate HoldsLastRecords(cs: seq<Cls>, t: seq<Cls>)
  {
    forall k :: 0 <= k < |t| ==>
      LastIndexOf(cs, t[k].name) < |cs| && cs[LastIndexOf(cs, t[k].name)] == t[k]
  }

  /** The names of `t` occur in `cs`, in order of their first occurrence there. */
  ghost predicate InFirstOccurrenceOrder(cs: seq<Cls>, t: seq<Cls>)
  {
    forall k, l :: 0 <= k < l < |t| ==> IndexOf(cs, t[k].name) < IndexOf(cs, t[l].name) < |cs|
  }

  /** What it means for `t` to be the dict built from `cs`: one record per
      distinct name, in order of each name's first occurrence, holding the last
      record with that name. */
  ghost predicate IsTableOf(cs: seq<Cls>, t: seq<Cls>)
  {
    && DistinctNames(t)
    && Names(t) == Names(cs)
    && |t| == |Names(cs)|
    && HoldsLastRecords(cs, t)
    && InFirstOccurrenceOrder(cs, t)
  }

  /** A name is carried by some record exactly when `IndexOf` finds it. */
  lemma IndexOfNames(cs: seq<Cls>, n: string)
    ensures IndexOf(cs, n) < |cs| <==> n in Names(cs)
  {
    if n in Names(cs) {
      var c :| c in cs && c.name == n;
    }
  }

  lemma PutExistingNames(p: seq<Cls>, c: Cls, t: seq<Cls>)
    requires Names(t) == Names(p) && |t| == |Names(p)|
    requires IndexOf(t, c.name) < |t|
    ensures Names(Put(t, c)) == Names(p + [c]) && |Put(t, c)| == |Names(p + [c])|
  {
    var k := IndexOf(t, c.name);
    var t' := t[k := c];
    assert Put(t, c) == t';
    NamesSnoc(p, c);
    IndexOfNames(t, c.name);
    assert Names(t') == Names(t) by {
      assert forall x :: x in t' ==> x.name in Names(t);
      forall x | x in Names(t) ensures x in Names(t') {
        var i :| 0 <= i < |t| && t[i].name == x;
        assert t'[i] in t';
      }
    }
  }

  lemma PutExistingLast(p: seq<Cls>, c: Cls, t: seq<Cls>)
    requires DistinctNames(t) && HoldsLastRecords(p, t)
    requires IndexOf(t, c.name) < |t|
    ensures HoldsLastRecords(p + [c], Put(t, c))
  {
    var cs := p + [c];
    var k := IndexOf(t, c.name);
    var t' := t[k := c];
    assert Put(t, c) == t';
    forall m | 0 <= m < |t'|
      ensures LastIndexOf(cs, t'[m].name) < |cs| && cs[LastIndexOf(cs, t'[m].name)] == t'[m]
    {
      LastIndexOfSnoc(p, c, t'[m].name);
      if m != k {
        assert t[m].name != t[k].name;
      }
    }
  }

  lemma PutExistingOrder(p: seq<Cls>, c: Cls, t: seq<Cls>)
    requires InFirstOccurrenceOrder(p, t)
    requires IndexOf(t, c.name) < |t|
    ensures InFirstOccurrenceOrder(p + [c], Put(t, c))
  {
    var cs := p + [c];
    var k := IndexOf(t, c.name);
    var t' := t[k := c];
    assert Put(t, c) == t';
    forall m, l | 0 <= m < l < |t'|
      ensures IndexOf(cs, t'[m].name) < IndexOf(cs, t'[l].name) < |cs|
    {
      IndexOfSnoc(p, c, t'[m].name);
      IndexOfSnoc(p, c, t'[l].name);
    }
  }

  lemma PutFreshNames(p: seq<Cls>, c: Cls, t: seq<Cls>)
    requires DistinctNames(t) && Names(t) == Names(p) && |t| == |Names(p)|
    requires IndexOf(t, c.name) == |t|
    ensures DistinctNames(Put(t, c))
    ensures Names(Put(t, c)) == Names(p + [c]) && |Put(t, c)| == |Names(p + [c])|
  {
    assert Put(t, c) == t + [c];
    NamesSnoc(p, c);
    NamesSnoc(t, c);
    IndexOfNames(t, c.name);
  }

  lemma PutFreshLast(p: seq<Cls>, c: Cls, t: seq<Cls>)
    requires HoldsLastRecords(p, t)
    requires IndexOf(t, c.name) == |t|
    ensures HoldsLastRecords(p + [c], Put(t, c))
  {
    var cs := p + [c];
    var t' := t + [c];
    assert Put(t, c) == t';
    forall m | 0 <= m < |t'|
      ensures LastIndexOf(cs, t'[m].name) < |cs| && cs[LastIndexOf(cs, t'[m].name)] == t'[m]
    {
      LastIndexOfSnoc(p, c, t'[m].name);
    }
  }

  lemma PutFreshOrder(p: seq<Cls>, c: Cls, t: seq<Cls>)
    requires Names(t) == Names(p) && InFirstOccurrenceOrder(p, t)
    requires IndexOf(t, c.name) == |t|
    ensures InFirstOccurrenceOrder(p + [c], Put(t, c))
  {
    var cs := p + [c];
    var t' := t + [c];
    assert Put(t, c) == t';
    IndexOfNames(t, c.name);
    IndexOfNames(p, c.name);
    assert IndexOf(p, c.name) == |p|;
    IndexOfSnoc(p, c, c.name);
    assert IndexOf(cs, c.name) == |p|;
    forall m | 0 <= m < |t|
      ensures IndexOf(cs, t[m].name) == IndexOf(p, t[m].name) < |p|
    {
      assert t[m] in t;
      IndexOfNames(p, t[m].name);
      IndexOfSnoc(p, c, t[m].name);
    }
    forall m, l | 0 <= m < l < |t'|
      ensures IndexOf(cs, t'[m].name) < IndexOf(cs, t'[l].name) < |cs|
    {
      assert t'[m] == t[m];
      if l < |t| {
        assert t'[l] == t[l];
      }
    }
  }

  /** The table built from the records is the dict they define. */
  lemma {:induction false} BuildSpec(cs: seq<Cls>)
    ensures IsTableOf(cs, Build(cs))
    decreases |cs|
  {
    if |cs| == 0 {
      assert Names(cs) == {};
    } else {
      var p := cs[..|cs| - 1];
      var c := cs[|cs| - 1];
      assert cs == p + [c];
      BuildSpec(p);
      var t := Build(p);
      if IndexOf(t, c.name) < |t| {
        PutExistingNames(p, c, t);
        PutExistingLast(p, c, t);
        PutExistingOrder(p, c, t);
        assert DistinctNames(Put(t, c)) by {
          var k := IndexOf(t, c.name);
          assert Put(t, c) == t[k := c];
        }
      } else {
        PutFreshNames(p, c, t);
        PutFreshLast(p, c, t);
        PutFreshOrder(p, c, t);
      }
    }
  }
}
