/** The sample diagram shipped with the generator: classes `a` and `b`, `b`
    inheriting from `a`, `a` aggregating `b`, `b` depending on `a`. */
module Example {
  import opened Uml
  import opened Text
  import opened ClassTable
  import opened Resolver
  import opened Emitters
  import opened Generator

  function SampleDiagram(): Diagram
  {
    Diagram(
      [Cls("a", ["a"], ["a"]), Cls("b", ["b"], ["b"])],
      [Assoc("inheritance", "a", "b"), Assoc("aggregation", "a", "b"), Assoc("dependency", "b", "a")])
  }

  lemma SampleTable()
    ensures Build(SampleDiagram().classes) == SampleDiagram().classes
  {
    var cs := SampleDiagram().classes;
    assert cs[..1] == [cs[0]];
    assert cs[..0] == [];
    assert Build(cs[..1]) == [cs[0]];
  }

  /** `a` has no parent and `b` has parent `a`. */
  lemma SampleParents()
    ensures Parent(SampleDiagram().associations, "a") == None
    ensures Parent(SampleDiagram().associations, "b") == Some("a")
  {
    var assocs := SampleDiagram().associations;
    ParentIsLastMatch(assocs, "a");
    ParentIsLastMatch(assocs, "b");
    assert InheritsInto(assocs[0], "b");
  }

  lemma SampleComments()
    ensures CommentParts(SampleDiagram().associations)
            == ["# Aggregation: a aggregates b\n", "# Dependency: b depends on a\n"]
  {
    var assocs := SampleDiagram().associations;
    assert assocs == [assocs[0]] + [assocs[1]] + [assocs[2]];
    CommentPartsAppend([assocs[0]] + [assocs[1]], [assocs[2]]);
    CommentPartsAppend([assocs[0]], [assocs[1]]);
    assert CommentParts([assocs[0]]) == [];
    SampleCommentLines();
  }

  /** The comment line of each annotated sample association. */
  lemma SampleCommentLines()
    ensures CommentParts([Assoc("aggregation", "a", "b")]) == ["# Aggregation: a aggregates b\n"]
    ensures CommentParts([Assoc("dependency", "b", "a")]) == ["# Dependency: b depends on a\n"]
  {
    CommentOfOne(Assoc("aggregation", "a", "b"));
    assert "# Aggregation: " + "a" + " aggregates " + "b" + "\n" == "# Aggregation: a aggregates b\n";
    CommentOfOne(Assoc("dependency", "b", "a"));
    assert "# Dependency: " + "b" + " depends on " + "a" + "\n" == "# Dependency: b depends on a\n";
  }

  lemma SampleBlocks(l: Language)
    ensures BlocksFor(l, SampleDiagram().classes, SampleDiagram().associations)
            == [FormatClass(l, "a", ["a"], ["a"], None), FormatClass(l, "b", ["b"], ["b"], Some("a"))]
  {
    SampleParents();
  }

  lemma JoinFour(p0: string, p1: string, p2: string, p3: string)
    ensures Join([p0, p1, p2, p3]) == p0 + "\n" + p1 + "\n" + p2 + "\n" + p3
  {
    JoinAppend([p0], [p1]);
    assert [p0, p1, p2] == [p0, p1] + [p2];
    JoinAppend([p0, p1], [p2]);
    assert [p0, p1, p2, p3] == [p0, p1, p2] + [p3];
    JoinAppend([p0, p1, p2], [p3]);
  }

  /** The sample output in any language: the two blocks, then the two comments. */
  lemma SampleOutput(l: Language)
    ensures Generate(SampleDiagram(), NameOf(l)) == Ok(
      FormatClass(l, "a", ["a"], ["a"], None) + "\n"
      + FormatClass(l, "b", ["b"], ["b"], Some("a")) + "\n"
      + "# Aggregation: a aggregates b\n" + "\n"
      + "# Dependency: b depends on a\n")
  {
    var d := SampleDiagram();
    SampleTable();
    SampleComments();
    SampleBlocks(l);
    GenerateSupported(d, l);
    var a := FormatClass(l, "a", ["a"], ["a"], None);
    var b := FormatClass(l, "b", ["b"], ["b"], Some("a"));
    assert [a, b] + ["# Aggregation: a aggregates b\n", "# Dependency: b depends on a\n"]
        == [a, b, "# Aggregation: a aggregates b\n", "# Dependency: b depends on a\n"];
    JoinFour(a, b, "# Aggregation: a aggregates b\n", "# Dependency: b depends on a\n");
  }

  /** A class with one attribute and one method: header, attribute line,
      newline, method stub, closing. */
  lemma SingleMemberBlock(l: Language, name: string, attribute: string, stub: string,
                          parent: Option<string>)
    ensures FormatClass(l, name, [attribute], [stub], parent)
            == HeaderTemplate(l).Fill(name + InheritanceClause(l, parent))
               + AttributeTemplate(l).Fill(attribute) + "\n"
               + MethodTemplate(l).Fill(stub) + Closing(l)
  {
    assert AttributeTemplate(l).FillAll([attribute]) == [AttributeTemplate(l).Fill(attribute)];
    assert MethodTemplate(l).FillAll([stub]) == [MethodTemplate(l).Fill(stub)];
    FormatClassByTemplates(l, name, [attribute], [stub], parent);
    BlockShape(l, name, [attribute], [stub], parent);
  }

  /** A one-member class in each language, line by line, for any names. */
  lemma BlockOfOne(l: Language, name: string, attribute: string, stub: string, parent: Option<string>)
    ensures var b := FormatClass(l, name, [attribute], [stub], parent);
      var h := name + InheritanceClause(l, parent);
      && (l == Python ==> b == ("class " + h + ":\n") + "    def __init__(self):\n"
                               + ("    self." + attribute + " = None\n")
                               + ("    def " + stub + "(self):\n") + "        pass\n")
      && (l == Java ==> b == ("public class " + h + " {\n") + ("    private String " + attribute + ";\n")
                             + ("    public void " + stub + "() {}\n") + "\n}\n")
      && (l == Php ==> b == ("<?php\nclass " + h + " {\n") + ("    private $" + attribute + ";\n")
                            + ("    public function " + stub + "() {}\n") + "\n}\n?>\n")
  {
    SingleMemberBlock(l, name, attribute, stub, parent);
  }

  lemma SamplePythonBlockA()
    ensures FormatClass(Python, "a", ["a"], ["a"], None)
            == "class a:\n" + "    def __init__(self):\n" + "    self.a = None\n"
               + "    def a(self):\n" + "        pass\n"
  {
    BlockOfOne(Python, "a", "a", "a", None);
    assert "class " + ("a" + InheritanceClause(Python, None)) + ":\n" == "class a:\n";
    assert "    self." + "a" + " = None\n" == "    self.a = None\n";
    assert "    def " + "a" + "(self):\n" == "    def a(self):\n";
  }

  lemma SamplePythonBlockB()
    ensures FormatClass(Python, "b", ["b"], ["b"], Some("a"))
            == "class b(a):\n" + "    def __init__(self):\n" + "    self.b = None\n"
               + "    def b(self):\n" + "        pass\n"
  {
    BlockOfOne(Python, "b", "b", "b", Some("a"));
    assert "class " + ("b" + InheritanceClause(Python, Some("a"))) + ":\n" == "class b(a):\n";
    assert "    self." + "b" + " = None\n" == "    self.b = None\n";
    assert "    def " + "b" + "(self):\n" == "    def b(self):\n";
  }

  /** The Python output of the sample diagram, line by line. */
  lemma SamplePython()
    ensures Generate(SampleDiagram(), "python") == Ok(
      ("class a:\n" + "    def __init__(self):\n" + "    self.a = None\n" + "    def a(self):\n" + "        pass\n")
      + "\n"
      + ("class b(a):\n" + "    def __init__(self):\n" + "    self.b = None\n" + "    def b(self):\n" + "        pass\n")
      + "\n"
      + "# Aggregation: a aggregates b\n"
      + "\n"
      + "# Dependency: b depends on a\n")
  {
    SampleOutput(Python);
    SamplePythonBlockA();
    SamplePythonBlockB();
  }

  lemma SampleJavaBlockA()
    ensures FormatClass(Java, "a", ["a"], ["a"], None)
            == "public class a {\n" + "    private String a;\n" + "    public void a() {}\n" + "\n}\n"
  {
    BlockOfOne(Java, "a", "a", "a", None);
    assert "public class " + ("a" + InheritanceClause(Java, None)) + " {\n" == "public class a {\n";
    assert "    private String " + "a" + ";\n" == "    private String a;\n";
    assert "    public void " + "a" + "() {}\n" == "    public void a() {}\n";
  }

  lemma SampleJavaBlockB()
    ensures FormatClass(Java, "b", ["b"], ["b"], Some("a"))
            == "public class b extends a {\n" + "    private String b;\n" + "    public void b() {}\n" + "\n}\n"
  {
    BlockOfOne(Java, "b", "b", "b", Some("a"));
    assert "public class " + ("b" + InheritanceClause(Java, Some("a"))) + " {\n" == "public class b extends a {\n";
    assert "    private String " + "b" + ";\n" == "    private String b;\n";
    assert "    public void " + "b" + "() {}\n" == "    public void b() {}\n";
  }

  /** The Java output of the sample diagram, line by line. */
  lemma SampleJava()
    ensures Generate(SampleDiagram(), "java") == Ok(
      ("public class a {\n" + "    private String a;\n" + "    public void a() {}\n" + "\n}\n")
      + "\n"
      + ("public class b extends a {\n" + "    private String b;\n" + "    public void b() {}\n" + "\n}\n")
      + "\n"
      + "# Aggregation: a aggregates b\n"
      + "\n"
      + "# Dependency: b depends on a\n")
  {
    SampleOutput(Java);
    SampleJavaBlockA();
    SampleJavaBlockB();
  }

  lemma SamplePhpBlockA()
    ensures FormatClass(Php, "a", ["a"], ["a"], None)
            == "<?php\nclass a {\n" + "    private $a;\n" + "    public function a() {}\n" + "\n}\n?>\n"
  {
    BlockOfOne(Php, "a", "a", "a", None);
    assert "<?php\nclass " + ("a" + InheritanceClause(Php, None)) + " {\n" == "<?php\nclass a {\n";
    assert "    private $" + "a" + ";\n" == "    private $a;\n";
    assert "    public function " + "a" + "() {}\n" == "    public function a() {}\n";
  }

  lemma SamplePhpBlockB()
    ensures FormatClass(Php, "b", ["b"], ["b"], Some("a"))
            == "<?php\nclass b extends a {\n" + "    private $b;\n" + "    public function b() {}\n" + "\n}\n?>\n"
  {
    BlockOfOne(Php, "b", "b", "b", Some("a"));
    assert "<?php\nclass " + ("b" + InheritanceClause(Php, Some("a"))) + " {\n" == "<?php\nclass b extends a {\n";
    assert "    private $" + "b" + ";\n" == "    private $b;\n";
    assert "    public function " + "b" + "() {}\n" == "    public function b() {}\n";
  }

  /** The PHP output of the sample diagram, line by line. */
  lemma SamplePhp()
    ensures Generate(SampleDiagram(), "php") == Ok(
      ("<?php\nclass a {\n" + "    private $a;\n" + "    public function a() {}\n" + "\n}\n?>\n")
      + "\n"
      + ("<?php\nclass b extends a {\n" + "    private $b;\n" + "    public function b() {}\n" + "\n}\n?>\n")
      + "\n"
      + "# Aggregation: a aggregates b\n"
      + "\n"
      + "# Dependency: b depends on a\n")
  {
    SampleOutput(Php);
    SamplePhpBlockA();
    SamplePhpBlockB();
  }
}
