/** `generate_code_from_diagram`: one block per distinct class name in table
    order, then one comment per aggregation or dependency association in list
    order, all joined with newlines. */
module Generator {
  import opened Uml
  import opened Text
  import opened ClassTable
  import opened Resolver
  import opened Emitters

  /** The class loop: for each table entry, find its parent and format it; the
      first class formatted for an unknown language raises. */
  function ClassBlocks(language: string, table: seq<Cls>, assocs: seq<Assoc>): (r: Result<seq<string>>)
    ensures r.Err? <==> |table| > 0 && LanguageNamed(language).None?
    ensures r.Ok? ==> |r.value| == |table|
    ensures forall l :: language == NameOf(l) ==> r == Ok(BlocksFor(l, table, assocs))
    decreases |table|
  {
    if |table| == 0 then Ok([])
    else
      var c := table[0];
      match Emit(language, c.name, c.attributes, c.methods, Parent(assocs, c.name))
      case Err(e) => Err(e)
      case Ok(block) =>
        match ClassBlocks(language, table[1..], assocs)
        case Err(e) => Err(e)
        case Ok(rest) =>
          BlocksForCons(LanguageNamed(language).value, table, assocs);
          Ok([block] + rest)
  }

  /** The comment for one association, if its kind gets one. */
  function Annotation(a: Assoc): seq<string>
  {
    if a.kind == Aggregation then ["# Aggregation: " + a.from + " aggregates " + a.to + "\n"]
    else if a.kind == Dependency then ["# Dependency: " + a.from + " depends on " + a.to + "\n"]
    else []
  }

  /** The association loop after all class blocks. */
  function CommentParts(assocs: seq<Assoc>): seq<string>
  {
    if |assocs| == 0 then [] else Annotation(assocs[0]) + CommentParts(assocs[1..])
  }

  function Generate(d: Diagram, language: string): Result<string>
  {
    match ClassBlocks(language, Build(d.classes), d.associations)
    case Err(e) => Err(e)
    case Ok(blocks) => Ok(Join(blocks + CommentParts(d.associations)))
  }

  /** The blocks for a supported language, one per table entry, stated directly. */
  function BlocksFor(l: Language, table: seq<Cls>, assocs: seq<Assoc>): (r: seq<string>)
    ensures |r| == |table|
  {
    seq(|table|, k requires 0 <= k < |table| =>
      FormatClass(l, table[k].name, table[k].attributes, table[k].methods, Parent(assocs, table[k].name)))
  }

  lemma BlocksForCons(l: Language, table: seq<Cls>, assocs: seq<Assoc>)
    requires |table| > 0
    ensures BlocksFor(l, table, assocs)
            == [FormatClass(l, table[0].name, table[0].attributes, table[0].methods, Parent(assocs, table[0].name))]
               + BlocksFor(l, table[1..], assocs)
  {
  }

  ghost predicate Annotated(a: Assoc)
  {
    a.kind == Aggregation || a.kind == Dependency
  }

  /** Comments follow the associations: the comments of a concatenation are the
      concatenation of the comments. */
  lemma {:induction false} CommentPartsAppend(a: seq<Assoc>, b: seq<Assoc>)
    ensures CommentParts(a + b) == CommentParts(a) + CommentParts(b)
    decreases |a|
  {
    if |a| > 0 {
      assert (a + b)[0] == a[0];
      assert (a + b)[1..] == a[1..] + b;
      CommentPartsAppend(a[1..], b);
    } else {
      assert a + b == b;
    }
  }

  /** An aggregation or dependency gives exactly one comment line naming both
      ends; any other kind gives nothing. */
  lemma CommentOfOne(a: Assoc)
    ensures a.kind == Aggregation ==>
              CommentParts([a]) == ["# Aggregation: " + a.from + " aggregates " + a.to + "\n"]
    ensures a.kind == Dependency ==>
              CommentParts([a]) == ["# Dependency: " + a.from + " depends on " + a.to + "\n"]
    ensures !Annotated(a) ==> CommentParts([a]) == []
  {
    assert [a][1..] == [];
  }

  /** One comment per aggregation or dependency association, none for the rest. */
  lemma {:induction false} CommentCount(assocs: seq<Assoc>)
    ensures |CommentParts(assocs)| == |set i | 0 <= i < |assocs| && Annotated(assocs[i])|
    decreases |assocs|
  {
    if |assocs| > 0 {
      var n := |assocs| - 1;
      var init := assocs[..n];
      var a := assocs[n];
      assert assocs == init + [a];
      CommentCount(init);
      CommentPartsAppend(init, [a]);
      CommentOfOne(a);
      var s := set i | 0 <= i < |assocs| && Annotated(assocs[i]);
      var s' := set i | 0 <= i < |init| && Annotated(init[i]);
      assert n !in s';
      if Annotated(a) {
        assert s == s' + {n};
      } else {
        assert s == s';
      }
    }
  }

  /** With no aggregation or dependency association there are no comments. */
  lemma NoComments(assocs: seq<Assoc>)
    requires forall i :: 0 <= i < |assocs| ==> !Annotated(assocs[i])
    ensures CommentParts(assocs) == []
  {
    CommentCount(assocs);
    assert (set i | 0 <= i < |assocs| && Annotated(assocs[i])) == {};
  }

  /** Generation fails exactly when a class has to be formatted for a language
      without an emitter; with no classes any language name is accepted. */
  lemma GenerateFailsExactly(d: Diagram, language: string)
    ensures Generate(d, language).Err? <==> LanguageNamed(language).None? && |d.classes| > 0
    ensures Generate(d, language).Err? ==> Generate(d, language).error == UnsupportedLanguage
  {
    BuildSpec(d.classes);
    if |d.classes| > 0 {
      assert d.classes[0] in d.classes;
      assert d.classes[0].name in Names(d.classes);
    } else {
      assert Names(d.classes) == {};
    }
  }

  /** For a supported language the output is the class blocks, in table order,
      followed by the comments, joined by newlines. */
  lemma GenerateSupported(d: Diagram, l: Language)
    ensures Generate(d, NameOf(l))
            == Ok(Join(BlocksFor(l, Build(d.classes), d.associations) + CommentParts(d.associations)))
  {
    var t := Build(d.classes);
    assert LanguageNamed(NameOf(l)) == Some(l);
    var r := ClassBlocks(NameOf(l), t, d.associations);
  }

  /** The blocks: one per distinct class name, in order of each name's first
      occurrence, each formatting the last record with that name together with
      its resolved parent. */
  lemma BlocksPerDistinctName(d: Diagram, l: Language)
    ensures var cs := d.classes;
      var t := Build(cs);
      var bs := BlocksFor(l, t, d.associations);
      && |bs| == |Names(cs)|
      && (forall k :: 0 <= k < |bs| ==>
            var i := LastIndexOf(cs, t[k].name);
            && i < |cs|
            && bs[k] == FormatClass(l, cs[i].name, cs[i].attributes, cs[i].methods,
                                    Parent(d.associations, cs[i].name)))
      && (forall k, m :: 0 <= k < m < |bs| ==> IndexOf(cs, t[k].name) < IndexOf(cs, t[m].name))
  {
    BuildSpec(d.classes);
  }

  /** Comments come after every block: the output is the joined blocks, a
      newline, and the joined comments. */
  lemma BlocksThenComments(d: Diagram, l: Language)
    requires |d.classes| > 0
    requires exists i :: 0 <= i < |d.associations| && Annotated(d.associations[i])
    ensures var bs := BlocksFor(l, Build(d.classes), d.associations);
      Generate(d, NameOf(l)) == Ok(Join(bs) + "\n" + Join(CommentParts(d.associations)))
  {
    GenerateSupported(d, l);
    GenerateFailsExactly(d, NameOf(l));
    BuildSpec(d.classes);
    assert d.classes[0].name in Names(d.classes);
    var cs := CommentParts(d.associations);
    CommentCount(d.associations);
    var i :| 0 <= i < |d.associations| && Annotated(d.associations[i]);
    var annotated := set j | 0 <= j < |d.associations| && Annotated(d.associations[j]);
    assert i in annotated;
    assert |cs| == |annotated| > 0;
    JoinAppend(BlocksFor(l, Build(d.classes), d.associations), cs);
  }

  /** A diagram with no classes and no aggregation or dependency association
      generates the empty text, whatever the language name. */
  lemma EmptyDiagram(assocs: seq<Assoc>, language: string)
    requires forall i :: 0 <= i < |assocs| ==> !Annotated(assocs[i])
    ensures Generate(Diagram([], assocs), language) == Ok("")
  {
    NoComments(assocs);
  }
}
