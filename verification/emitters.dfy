/** The nested `format_class` of the generator: one class block of text in
    Python, Java or PHP syntax. */
module Emitters {
  import opened Uml
  import opened Text

  datatype Language = Python | Java | Php

  /** The `language == "python" / "java" / "php"` dispatch; any other name has
      no emitter. */
  function LanguageNamed(s: string): Option<Language>
  {
    if s == "python" then Some(Python)
    else if s == "java" then Some(Java)
    else if s == "php" then Some(Php)
    else None
  }

  /** The name a language is selected by. */
  function NameOf(l: Language): string
  {
    match l
    case Python => "python"
    case Java => "java"
    case Php => "php"
  }

  /** Exactly the three lower-case names select an emitter, each its own language. */
  lemma LanguageNames(s: string, l: Language)
    ensures LanguageNamed(s) == Some(l) <==> s == NameOf(l)
    ensures LanguageNamed(s).None? <==> s != "python" && s != "java" && s != "php"
  {
  }

  /** Python truthiness of `parent_class`: neither `None` nor the empty string. */
  predicate HasParent(parent: Option<string>)
  {
    parent.Some? && parent.value != ""
  }

  /** The `inheritance` part of the header. */
  function InheritanceClause(l: Language, parent: Option<string>): string
  {
    if !HasParent(parent) then ""
    else match l
      case Python => "(" + parent.value + ")"
      case Java => " extends " + parent.value
      case Php => " extends " + parent.value
  }

  /** One class block, per language, as `format_class` assembles it. */
  function FormatClass(l: Language, name: string, attributes: seq<string>, methods: seq<string>,
                       parent: Option<string>): string
  {
    var inheritance := InheritanceClause(l, parent);
    match l
    case Python => FormatPython(name + inheritance, attributes, methods)
    case Java => FormatJava(name + inheritance, attributes, methods)
    case Php => FormatPhp(name + inheritance, attributes, methods)
  }

  /** The Python branch; `header` is the class name followed by its inheritance clause. */
  function FormatPython(header: string, attributes: seq<string>, methods: seq<string>): string
  {
    var attrLines := seq(|attributes|, i requires 0 <= i < |attributes| =>
                           "    self." + attributes[i] + " = None");
    var methodLines := seq(|methods|, i requires 0 <= i < |methods| =>
                             "    def " + methods[i] + "(self):\n        pass");
    "class " + header + ":\n"
      + "    def __init__(self):\n"
      + Join(attrLines) + "\n"
      + Join(methodLines) + "\n"
  }

  /** The Java branch. */
  function FormatJava(header: string, attributes: seq<string>, methods: seq<string>): string
  {
    var attrLines := seq(|attributes|, i requires 0 <= i < |attributes| =>
                           "    private String " + attributes[i] + ";");
    var methodLines := seq(|methods|, i requires 0 <= i < |methods| =>
                             "    public void " + methods[i] + "() {}\n");
    "public class " + header + " {\n"
      + Join(attrLines) + "\n"
      + Join(methodLines) + "\n}\n"
  }

  /** The PHP branch. */
  function FormatPhp(header: string, attributes: seq<string>, methods: seq<string>): string
  {
    var attrLines := seq(|attributes|, i requires 0 <= i < |attributes| =>
                           "    private $" + attributes[i] + ";");
    var methodLines := seq(|methods|, i requires 0 <= i < |methods| =>
                             "    public function " + methods[i] + "() {}\n");
    "<?php\nclass " + header + " {\n"
      + Join(attrLines) + "\n"
      + Join(methodLines) + "\n}\n?>\n"
  }

  /** `format_class` behind the language-name check: an unknown name fails. */
  function Emit(language: string, name: string, attributes: seq<string>, methods: seq<string>,
                parent: Option<string>): (r: Result<string>)
    ensures r.Err? <==> language != "python" && language != "java" && language != "php"
    ensures r.Err? ==> r.error == UnsupportedLanguage
    ensures forall l :: language == NameOf(l) ==> r == Ok(FormatClass(l, name, attributes, methods, parent))
  {
    match LanguageNamed(language)
    case None => Err(UnsupportedLanguage)
    case Some(l) => Ok(FormatClass(l, name, attributes, methods, parent))
  }

  /** A text with a hole: `prefix`, the filled-in name, `suffix`. */
  datatype Template = Template(prefix: string, suffix: string) {

    function Fill(x: string): string
    {
      prefix + x + suffix
    }

    /** The name a line was filled with, if the line has this template's shape. */
    function Match(s: string): Option<string>
    {
      if |prefix| + |suffix| <= |s| && s[..|prefix|] == prefix && s[|s| - |suffix|..] == suffix
      then Some(s[|prefix|..|s| - |suffix|])
      else None
    }

    function FillAll(xs: seq<string>): (r: seq<string>)
      ensures |r| == |xs|
    {
      seq(|xs|, i requires 0 <= i < |xs| => Fill(xs[i]))
    }
  }

  /** The per-language template table: the header around the class name and its
      inheritance clause, the parent clause, one attribute line, one method stub,
      and the block's closing text. */
  function HeaderTemplate(l: Language): Template
  {
    match l
    case Python => Template("class ", ":\n    def __init__(self):\n")
    case Java => Template("public class ", " {\n")
    case Php => Template("<?php\nclass ", " {\n")
  }

  function ParentTemplate(l: Language): Template
  {
    match l
    case Python => Template("(", ")")
    case Java => Template(" extends ", "")
    case Php => Template(" extends ", "")
  }

  function AttributeTemplate(l: Language): Template
  {
    match l
    case Python => Template("    self.", " = None")
    case Java => Template("    private String ", ";")
    case Php => Template("    private $", ";")
  }

  function MethodTemplate(l: Language): Template
  {
    match l
    case Python => Template("    def ", "(self):\n        pass")
    case Java => Template("    public void ", "() {}\n")
    case Php => Template("    public function ", "() {}\n")
  }

  function Closing(l: Language): string
  {
    match l
    case Python => "\n"
    case Java => "\n}\n"
    case Php => "\n}\n?>\n"
  }

  /** The block from the template table: header filled with the name and the
      parent clause, the attribute lines, a newline, the method stubs, the closing. */
  function BlockFromTemplates(l: Language, name: string, attributes: seq<string>, methods: seq<string>,
                              parent: Option<string>): string
  {
    var clause := if HasParent(parent) then ParentTemplate(l).Fill(parent.value) else "";
    var body := Join(AttributeTemplate(l).FillAll(attributes)) + "\n" + Join(MethodTemplate(l).FillAll(methods));
    HeaderTemplate(l).Fill(name + clause) + body + Closing(l)
  }

  /** A filled template gives back exactly the name it was filled with. */
  lemma MatchFill(t: Template, x: string)
    ensures t.Match(t.Fill(x)) == Some(x)
  {
    var s := t.Fill(x);
    assert s[..|t.prefix|] == t.prefix;
    assert s[|s| - |t.suffix|..] == t.suffix;
    assert s[|t.prefix|..|s| - |t.suffix|] == x;
  }

  /** A line that matches a template is that template filled with the match. */
  lemma FillMatch(t: Template, s: string)
    requires t.Match(s).Some?
    ensures t.Fill(t.Match(s).value) == s
  {
    var x := t.Match(s).value;
    assert s == s[..|t.prefix|] + s[|t.prefix|..|s| - |t.suffix|] + s[|s| - |t.suffix|..];
  }

  lemma PythonLines(attributes: seq<string>, methods: seq<string>)
    ensures AttributeTemplate(Python).FillAll(attributes)
            == seq(|attributes|, i requires 0 <= i < |attributes| => "    self." + attributes[i] + " = None")
    ensures MethodTemplate(Python).FillAll(methods)
            == seq(|methods|, i requires 0 <= i < |methods| => "    def " + methods[i] + "(self):\n        pass")
  {
  }

  lemma PythonByTemplates(header: string, attributes: seq<string>, methods: seq<string>)
    ensures FormatPython(header, attributes, methods)
            == HeaderTemplate(Python).Fill(header)
               + (Join(AttributeTemplate(Python).FillAll(attributes)) + "\n"
                  + Join(MethodTemplate(Python).FillAll(methods)))
               + Closing(Python)
  {
    PythonLines(attributes, methods);
    var a := Join(AttributeTemplate(Python).FillAll(attributes));
    var m := Join(MethodTemplate(Python).FillAll(methods));
    var head := "class " + header + ":\n" + "    def __init__(self):\n";
    assert FormatPython(header, attributes, methods) == head + a + "\n" + m + "\n";
    assert HeaderTemplate(Python).Fill(header) == head;
    assert head + a + "\n" + m + "\n" == head + (a + "\n" + m) + "\n";
  }

  lemma JavaLines(attributes: seq<string>, methods: seq<string>)
    ensures AttributeTemplate(Java).FillAll(attributes)
            == seq(|attributes|, i requires 0 <= i < |attributes| => "    private String " + attributes[i] + ";")
    ensures MethodTemplate(Java).FillAll(methods)
            == seq(|methods|, i requires 0 <= i < |methods| => "    public void " + methods[i] + "() {}\n")
  {
  }

  lemma JavaByTemplates(header: string, attributes: seq<string>, methods: seq<string>)
    ensures FormatJava(header, attributes, methods)
            == HeaderTemplate(Java).Fill(header)
               + (Join(AttributeTemplate(Java).FillAll(attributes)) + "\n"
                  + Join(MethodTemplate(Java).FillAll(methods)))
               + Closing(Java)
  {
    JavaLines(attributes, methods);
    var a := Join(AttributeTemplate(Java).FillAll(attributes));
    var m := Join(MethodTemplate(Java).FillAll(methods));
    var head := "public class " + header + " {\n";
    assert FormatJava(header, attributes, methods) == head + a + "\n" + m + "\n}\n";
    assert HeaderTemplate(Java).Fill(header) == head;
    assert head + a + "\n" + m + "\n}\n" == head + (a + "\n" + m) + "\n}\n";
  }

  lemma PhpLines(attributes: seq<string>, methods: seq<string>)
    ensures AttributeTemplate(Php).FillAll(attributes)
            == seq(|attributes|, i requires 0 <= i < |attributes| => "    private $" + attributes[i] + ";")
    ensures MethodTemplate(Php).FillAll(methods)
            == seq(|methods|, i requires 0 <= i < |methods| => "    public function " + methods[i] + "() {}\n")
  {
  }

  lemma PhpByTemplates(header: string, attributes: seq<string>, methods: seq<string>)
    ensures FormatPhp(header, attributes, methods)
            == HeaderTemplate(Php).Fill(header)
               + (Join(AttributeTemplate(Php).FillAll(attributes)) + "\n"
                  + Join(MethodTemplate(Php).FillAll(methods)))
               + Closing(Php)
  {
    PhpLines(attributes, methods);
    var a := Join(AttributeTemplate(Php).FillAll(attributes));
    var m := Join(MethodTemplate(Php).FillAll(methods));
    var head := "<?php\nclass " + header + " {\n";
    assert FormatPhp(header, attributes, methods) == head + a + "\n" + m + "\n}\n?>\n";
    assert HeaderTemplate(Php).Fill(header) == head;
    assert head + a + "\n" + m + "\n}\n?>\n" == head + (a + "\n" + m) + "\n}\n?>\n";
  }

  /** `format_class` agrees with the per-language template table. */
  lemma FormatClassByTemplates(l: Language, name: string, attributes: seq<string>, methods: seq<string>,
                               parent: Option<string>)
    ensures FormatClass(l, name, attributes, methods, parent)
            == BlockFromTemplates(l, name, attributes, methods, parent)
  {
    var clause := if HasParent(parent) then ParentTemplate(l).Fill(parent.value) else "";
    assert InheritanceClause(l, parent) == clause;
    match l
    case Python => PythonByTemplates(name + clause, attributes, methods);
    case Java => JavaByTemplates(name + clause, attributes, methods);
    case Php => PhpByTemplates(name + clause, attributes, methods);
  }

  /** The header carries an inheritance clause exactly when the parent is a
      non-empty name, and the clause gives that name back. */
  lemma InheritanceClauseNamesParent(l: Language, parent: Option<string>)
    ensures InheritanceClause(l, parent) == "" <==> !HasParent(parent)
    ensures HasParent(parent) ==>
              ParentTemplate(l).Match(InheritanceClause(l, parent)) == Some(parent.value)
  {
    if HasParent(parent) {
      MatchFill(ParentTemplate(l), parent.value);
      assert InheritanceClause(l, parent) == ParentTemplate(l).Fill(parent.value);
    }
  }

  /** Each attribute line and each method stub gives back, in list order, the
      member name it was made from. */
  lemma LinesNameTheirMembers(l: Language, attributes: seq<string>, methods: seq<string>)
    ensures forall i :: 0 <= i < |attributes| ==>
              AttributeTemplate(l).Match(AttributeTemplate(l).FillAll(attributes)[i]) == Some(attributes[i])
    ensures forall i :: 0 <= i < |methods| ==>
              MethodTemplate(l).Match(MethodTemplate(l).FillAll(methods)[i]) == Some(methods[i])
  {
    forall i | 0 <= i < |attributes|
      ensures AttributeTemplate(l).Match(AttributeTemplate(l).FillAll(attributes)[i]) == Some(attributes[i])
    {
      MatchFill(AttributeTemplate(l), attributes[i]);
    }
    forall i | 0 <= i < |methods|
      ensures MethodTemplate(l).Match(MethodTemplate(l).FillAll(methods)[i]) == Some(methods[i])
    {
      MatchFill(MethodTemplate(l), methods[i]);
    }
  }

  lemma NoNewlineConcat(a: string, b: string)
    requires NoNewline(a) && NoNewline(b)
    ensures NoNewline(a + b)
  {
    assert forall i :: 0 <= i < |a + b| ==> (a + b)[i] == if i < |a| then a[i] else b[i - |a|];
  }

  /** With newline-free attribute names, the attribute section of a block splits
      into exactly one line per attribute, each naming its attribute, in order.
      Without attributes the section is empty. */
  lemma AttributeSectionLines(l: Language, attributes: seq<string>)
    requires forall i :: 0 <= i < |attributes| ==> NoNewline(attributes[i])
    ensures |attributes| == 0 ==> Join(AttributeTemplate(l).FillAll(attributes)) == ""
    ensures |attributes| > 0 ==>
      Split(Join(AttributeTemplate(l).FillAll(attributes))) == AttributeTemplate(l).FillAll(attributes)
    ensures |attributes| > 0 ==>
      var lines := Split(Join(AttributeTemplate(l).FillAll(attributes)));
      && |lines| == |attributes|
      && forall i :: 0 <= i < |lines| ==> AttributeTemplate(l).Match(lines[i]) == Some(attributes[i])
  {
    var t := AttributeTemplate(l);
    var parts := t.FillAll(attributes);
    if |attributes| == 0 {
      return;
    }
    forall i | 0 <= i < |parts| ensures NoNewline(parts[i]) {
      NoNewlineConcat(t.prefix, attributes[i]);
      NoNewlineConcat(t.prefix + attributes[i], t.suffix);
    }
    SplitJoin(parts);
    LinesNameTheirMembers(l, attributes, []);
  }

  /** `attributeLines` holds one line per attribute and `stubs` one stub per
      method, each giving back its member's name in list order; no attributes
      leave the section empty, and newline-free attribute names make the
      section split back into its lines. */
  ghost predicate MemberLines(l: Language, attributes: seq<string>, methods: seq<string>,
                        attributeLines: seq<string>, stubs: seq<string>)
  {
    && |attributeLines| == |attributes|
    && (forall i :: 0 <= i < |attributes| ==> AttributeTemplate(l).Match(attributeLines[i]) == Some(attributes[i]))
    && (|attributes| == 0 ==> Join(attributeLines) == "")
    && ((forall i :: 0 <= i < |attributes| ==> NoNewline(attributes[i])) && |attributes| > 0 ==>
          Split(Join(attributeLines)) == attributeLines)
    && |stubs| == |methods|
    && (forall i :: 0 <= i < |methods| ==> MethodTemplate(l).Match(stubs[i]) == Some(methods[i]))
  }

  lemma FilledMemberLines(l: Language, attributes: seq<string>, methods: seq<string>)
    ensures MemberLines(l, attributes, methods,
                        AttributeTemplate(l).FillAll(attributes), MethodTemplate(l).FillAll(methods))
  {
    LinesNameTheirMembers(l, attributes, methods);
    if (forall i :: 0 <= i < |attributes| ==> NoNewline(attributes[i])) && |attributes| > 0 {
      AttributeSectionLines(l, attributes);
    }
  }

  lemma BlockShape(l: Language, name: string, attributes: seq<string>, methods: seq<string>,
                   parent: Option<string>)
    ensures BlockFromTemplates(l, name, attributes, methods, parent)
            == HeaderTemplate(l).Fill(name + InheritanceClause(l, parent))
               + Join(AttributeTemplate(l).FillAll(attributes)) + "\n"
               + Join(MethodTemplate(l).FillAll(methods)) + Closing(l)
  {
    var clause := if HasParent(parent) then ParentTemplate(l).Fill(parent.value) else "";
    assert InheritanceClause(l, parent) == clause;
    BodyRegroup(HeaderTemplate(l).Fill(name + clause), Join(AttributeTemplate(l).FillAll(attributes)),
                Join(MethodTemplate(l).FillAll(methods)), Closing(l));
  }

  lemma BodyRegroup(header: string, a: string, m: string, closing: string)
    ensures header + (a + "\n" + m) + closing == header + a + "\n" + m + closing
  {
  }

  /** A block is the header, the attribute section, a newline, the method stubs
      and the closing text, where the section and the stubs give back the
      class's attributes and methods in order. */
  lemma BlockMembers(l: Language, name: string, attributes: seq<string>, methods: seq<string>,
                     parent: Option<string>)
    ensures exists attributeLines: seq<string>, stubs: seq<string> ::
      && MemberLines(l, attributes, methods, attributeLines, stubs)
      && FormatClass(l, name, attributes, methods, parent)
         == HeaderTemplate(l).Fill(name + InheritanceClause(l, parent))
            + Join(attributeLines) + "\n" + Join(stubs) + Closing(l)
  {
    var attributeLines := AttributeTemplate(l).FillAll(attributes);
    var stubs := MethodTemplate(l).FillAll(methods);
    FilledMemberLines(l, attributes, methods);
    FormatClassByTemplates(l, name, attributes, methods, parent);
    BlockShape(l, name, attributes, methods, parent);
    assert MemberLines(l, attributes, methods, attributeLines, stubs);
  }

  lemma ConcatFraming(head: string, middle: string, tail: string)
    ensures StartsWith(head + middle + tail, head)
    ensures EndsWith(head + middle + tail, tail)
  {
    var s := head + middle + tail;
    assert s[..|head|] == head;
    assert s[|s| - |tail|..] == tail;
  }

  /** The fixed framing of a block: its opening up to the end of the header,
      and its closing. */
  lemma BlockFraming(l: Language, name: string, attributes: seq<string>, methods: seq<string>,
                     parent: Option<string>)
    ensures var b := FormatClass(l, name, attributes, methods, parent);
      var h := name + InheritanceClause(l, parent);
      && (l == Python ==> StartsWith(b, "class " + h + ":\n    def __init__(self):\n") && EndsWith(b, "\n"))
      && (l == Java ==> StartsWith(b, "public class " + h + " {\n") && EndsWith(b, "\n}\n"))
      && (l == Php ==> StartsWith(b, "<?php\nclass " + h + " {\n") && EndsWith(b, "\n}\n?>\n"))
  {
    var clause := if HasParent(parent) then ParentTemplate(l).Fill(parent.value) else "";
    assert InheritanceClause(l, parent) == clause;
    var body := Join(AttributeTemplate(l).FillAll(attributes)) + "\n" + Join(MethodTemplate(l).FillAll(methods));
    FormatClassByTemplates(l, name, attributes, methods, parent);
    ConcatFraming(HeaderTemplate(l).Fill(name + clause), body, Closing(l));
  }
}
