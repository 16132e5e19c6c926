/** `parseXmlToMermaid` (client/src/utils/parseXmlToMermaid.js): the Mermaid class diagram
    of a parsed class/relationship tree. The DOM is replaced by the tree below; an attribute
    that `getAttribute` does not find is `None`. */
module Mermaid {
  import opened Optional
  import Strings = Text

  datatype Parameter = Parameter(name: Option<string>, paramType: Option<string>)

  datatype Property = Property(name: Option<string>, propType: Option<string>)

  datatype Method = Method(name: Option<string>, returnType: Option<string>, parameters: seq<Parameter>)

  datatype Class = Class(name: Option<string>, properties: seq<Property>, methods: seq<Method>)

  /** A child of `<Relationships>`: its tag name and its attributes. */
  datatype Relationship = Relationship(tag: string, attributes: map<string, string>)

  datatype Document = Document(classes: seq<Class>, relationships: seq<Relationship>)

  /** What the XML parser produced: the text of its `parsererror` element, or the tree. */
  datatype Parsed = ParseError(errorText: string) | Parsed(doc: Document)

  // ---------------------------------------------------------------------------
  // Sequences of text
  // ---------------------------------------------------------------------------

  /** The texts of the items, one after the other. */
  function Concat<T>(xs: seq<T>, f: T -> string): string {
    if xs == [] then "" else Concat(xs[..|xs| - 1], f) + f(xs[|xs| - 1])
  }

  lemma ConcatStep<T>(xs: seq<T>, f: T -> string, i: nat)
    requires i < |xs|
    ensures Concat(xs[..i + 1], f) == Concat(xs[..i], f) + f(xs[i])
  {
    assert xs[..i + 1][..i] == xs[..i];
  }

  /** The text of two runs of items is the text of the first then that of the second. */
  lemma {:induction false} ConcatAppend<T>(xs: seq<T>, ys: seq<T>, f: T -> string)
    ensures Concat(xs + ys, f) == Concat(xs, f) + Concat(ys, f)
    decreases |ys|
  {
    if ys != [] {
      var zs := xs + ys;
      assert zs[..|zs| - 1] == xs + ys[..|ys| - 1];
      ConcatAppend(xs, ys[..|ys| - 1], f);
    } else {
      assert xs + ys == xs;
    }
  }

  /** `items.join(sep)`. */
  function Join(items: seq<string>, sep: string): string {
    if items == [] then ""
    else if |items| == 1 then items[0]
    else Join(items[..|items| - 1], sep) + sep + items[|items| - 1]
  }

  // ---------------------------------------------------------------------------
  // Lines of the diagram
  // ---------------------------------------------------------------------------

  /** An attribute interpolated into a template literal: a missing one reads "null". */
  function Text(a: Option<string>): string {
    if a.Some? then a.value else "null"
  }

  /** `value || fallback`: a missing or empty attribute gives `fallback`. */
  function OrElse(a: Option<string>, fallback: string): string {
    if a.Some? && a.value != "" then a.value else fallback
  }

  const Header: string := "classDiagram\n"

  function PropertyLine(p: Property): string {
    "    " + Text(p.name) + ": " + OrElse(p.propType, "") + "\n"
  }

  function ParameterText(p: Parameter): string {
    Text(p.name) + ": " + OrElse(p.paramType, "")
  }

  function ParameterList(ps: seq<Parameter>): string {
    Join(seq(|ps|, k requires 0 <= k < |ps| => ParameterText(ps[k])), ", ")
  }

  function MethodLine(m: Method): string {
    "    " + Text(m.name) + "(" + ParameterList(m.parameters) + "): " + OrElse(m.returnType, "void") + "\n"
  }

  function ClassOpening(c: Class): string {
    "  class " + Text(c.name) + " {\n"
  }

  const ClassClosing: string := "  }\n"

  function ClassBlock(c: Class): string {
    ClassOpening(c) + Concat(c.properties, PropertyLine) + Concat(c.methods, MethodLine) + ClassClosing
  }

  /** The value of a relationship attribute, as interpolated. */
  function Attribute(r: Relationship, key: string): string {
    if key in r.attributes then r.attributes[key] else "null"
  }

  /** The four relationship tags that produce a line. */
  predicate KnownTag(tag: string) {
    tag == "Inheritance" || tag == "Composition" || tag == "Aggregation" || tag == "Association"
  }

  /** `  <from> <arrow> <to>` and a newline. */
  function ArrowLine(from: string, arrow: string, to: string): (line: string)
    ensures |line| > 2 && line[..2] == "  " && line[|line| - 1] == '\n'
  {
    var rest := from + arrow + to + "\n";
    assert rest[|rest| - 1] == '\n';
    Indented(rest);
    "  " + rest
  }

  lemma Indented(rest: string)
    requires |rest| > 0
    ensures ("  " + rest)[..2] == "  " && ("  " + rest)[|rest| + 1] == rest[|rest| - 1]
  {
  }

  /** A relationship gives one line when its tag is one of the four, and nothing otherwise. */
  function RelationshipLine(r: Relationship): (line: string)
    ensures line == "" <==> !KnownTag(r.tag)
    ensures line != "" ==> |line| > 2 && line[..2] == "  " && line[|line| - 1] == '\n'
  {
    if r.tag == "Inheritance" then ArrowLine(Attribute(r, "child"), " --|> ", Attribute(r, "parent"))
    else if r.tag == "Composition" then ArrowLine(Attribute(r, "container"), " *-- ", Attribute(r, "contained"))
    else if r.tag == "Aggregation" then ArrowLine(Attribute(r, "container"), " o-- ", Attribute(r, "contained"))
    else if r.tag == "Association" then ArrowLine(Attribute(r, "from"), " --> ", Attribute(r, "to"))
    else ""
  }

  /** The diagram of a parsed document: the header, every class block in document order,
      then every relationship line in document order. */
  function DiagramText(doc: Document): string {
    Header + Concat(doc.classes, ClassBlock) + Concat(doc.relationships, RelationshipLine)
  }

  /** The diagram shown when the XML does not parse (the message carries the parser's
      text after "Invalid XML: "); it has no final newline. */
  function ErrorDiagram(errorText: string): string {
    Header + "  class Error {\n" + "    Error parsing XML: " + "Invalid XML: " + errorText + "\n  }"
  }

  function MermaidText(x: Parsed): string {
    match x
    case ParseError(errorText) => ErrorDiagram(errorText)
    case Parsed(doc) => DiagramText(doc)
  }

  // ---------------------------------------------------------------------------
  // The serialiser
  // ---------------------------------------------------------------------------

  /** One class block (client/src/utils/parseXmlToMermaid.js:24-55): the declaration, the
      property loop, the method loop, the closing brace. */
  method AppendClass(code: string, c: Class) returns (mermaidCode: string)
    ensures mermaidCode == code + ClassBlock(c)
  {
    var opening := ClassOpening(c);
    mermaidCode := code + opening;
    ghost var start := mermaidCode;
    for j := 0 to |c.properties|
      invariant mermaidCode == start + Concat(c.properties[..j], PropertyLine)
    {
      ConcatStep(c.properties, PropertyLine, j);
      var line := PropertyLine(c.properties[j]);
      Strings.Associate(start, Concat(c.properties[..j], PropertyLine), line);
      mermaidCode := mermaidCode + line;
    }
    assert c.properties[..|c.properties|] == c.properties;
    ghost var withProperties := mermaidCode;
    for j := 0 to |c.methods|
      invariant mermaidCode == withProperties + Concat(c.methods[..j], MethodLine)
    {
      ConcatStep(c.methods, MethodLine, j);
      var line := MethodLine(c.methods[j]);
      Strings.Associate(withProperties, Concat(c.methods[..j], MethodLine), line);
      mermaidCode := mermaidCode + line;
    }
    assert c.methods[..|c.methods|] == c.methods;
    mermaidCode := mermaidCode + ClassClosing;
    BlockParts(code, opening, Concat(c.properties, PropertyLine), Concat(c.methods, MethodLine), ClassClosing);
  }

  lemma BlockParts(code: string, a: string, b: string, c: string, d: string)
    ensures code + a + b + c + d == code + (a + b + c + d)
  {
  }

  /** The class loop (client/src/utils/parseXmlToMermaid.js:22-56). */
  method AppendClasses(code: string, classes: seq<Class>) returns (mermaidCode: string)
    ensures mermaidCode == code + Concat(classes, ClassBlock)
  {
    mermaidCode := code;
    for i := 0 to |classes|
      invariant mermaidCode == code + Concat(classes[..i], ClassBlock)
    {
      ConcatStep(classes, ClassBlock, i);
      Strings.Associate(code, Concat(classes[..i], ClassBlock), ClassBlock(classes[i]));
      mermaidCode := AppendClass(mermaidCode, classes[i]);
    }
    assert classes[..|classes|] == classes;
  }

  /** The relationship loop (client/src/utils/parseXmlToMermaid.js:59-80). */
  method AppendRelationships(code: string, relationships: seq<Relationship>) returns (mermaidCode: string)
    ensures mermaidCode == code + Concat(relationships, RelationshipLine)
  {
    mermaidCode := code;
    for k := 0 to |relationships|
      invariant mermaidCode == code + Concat(relationships[..k], RelationshipLine)
    {
      ConcatStep(relationships, RelationshipLine, k);
      var line := RelationshipLine(relationships[k]);
      Strings.Associate(code, Concat(relationships[..k], RelationshipLine), line);
      mermaidCode := mermaidCode + line;
    }
    assert relationships[..|relationships|] == relationships;
  }

  /** `parseXmlToMermaid` (client/src/utils/parseXmlToMermaid.js:6-87). */
  method ParseXmlToMermaid(x: Parsed) returns (mermaidCode: string)
    ensures mermaidCode == MermaidText(x)
  {
    if x.ParseError? {
      return ErrorDiagram(x.errorText);
    }
    mermaidCode := Header;
    mermaidCode := AppendClasses(mermaidCode, x.doc.classes);
    mermaidCode := AppendRelationships(mermaidCode, x.doc.relationships);
  }

  // ---------------------------------------------------------------------------
  // Properties of the diagram
  // ---------------------------------------------------------------------------

  /** Every output, the error diagram included, starts with the `classDiagram` header. */
  lemma HeaderFirst(x: Parsed)
    ensures |MermaidText(x)| >= |Header| && MermaidText(x)[..|Header|] == Header
  {
    if x.Parsed? {
      HeaderPrefix(Concat(x.doc.classes, ClassBlock) + Concat(x.doc.relationships, RelationshipLine));
    } else {
      HeaderPrefix("  class Error {\n" + "    Error parsing XML: " + "Invalid XML: " + x.errorText + "\n  }");
    }
  }

  lemma HeaderPrefix(rest: string)
    ensures |Header + rest| >= |Header| && (Header + rest)[..|Header|] == Header
  {
  }

  /** A relationship with any other tag leaves the diagram as it was. */
  lemma UnknownTagIgnored(doc: Document, r: Relationship)
    requires !KnownTag(r.tag)
    ensures DiagramText(Document(doc.classes, doc.relationships + [r])) == DiagramText(doc)
  {
    var rs := doc.relationships + [r];
    assert rs[..|rs| - 1] == doc.relationships;
  }

  /** A missing return type is printed as `void`, and a missing type as an empty one. */
  lemma MissingTypes(name: Option<string>, parameters: seq<Parameter>)
    ensures MethodLine(Method(name, None, parameters)) == MethodLine(Method(name, Some("void"), parameters))
    ensures MethodLine(Method(name, Some(""), parameters)) == MethodLine(Method(name, Some("void"), parameters))
    ensures PropertyLine(Property(name, None)) == PropertyLine(Property(name, Some("")))
    ensures ParameterText(Parameter(name, None)) == ParameterText(Parameter(name, Some("")))
  {
  }

  /** The document of one class `Error` whose one property is named "Error parsing XML"
      and typed with the parser's message. */
  function ErrorDocument(errorText: string): Document {
    Document([Class(Some("Error"), [Property(Some("Error parsing XML"), Some("Invalid XML: " + errorText))], [])], [])
  }

  lemma ErrorPropertyLine(errorText: string)
    ensures PropertyLine(ErrorDocument(errorText).classes[0].properties[0])
         == "    Error parsing XML: " + ("Invalid XML: " + errorText) + "\n"
  {
    assert "    " + "Error parsing XML" + ": " == "    Error parsing XML: ";
  }

  lemma ErrorClassBlock(errorText: string)
    ensures ClassBlock(ErrorDocument(errorText).classes[0])
         == "  class Error {\n" + ("    Error parsing XML: " + ("Invalid XML: " + errorText) + "\n") + ClassClosing
  {
    var c := ErrorDocument(errorText).classes[0];
    var opening, line := "  class Error {\n", "    Error parsing XML: " + ("Invalid XML: " + errorText) + "\n";
    assert ClassOpening(c) == opening;
    ErrorPropertyLine(errorText);
    SingleConcat(c.properties[0], PropertyLine);
    assert Concat(c.methods, MethodLine) == "";
    DropEmptyText(opening + line, ClassClosing);
  }

  /** The error diagram is the diagram of the error document, less its final newline. */
  lemma ErrorDiagramShape(errorText: string)
    ensures ErrorDiagram(errorText) + "\n" == DiagramText(ErrorDocument(errorText))
  {
    var doc := ErrorDocument(errorText);
    var c := doc.classes[0];
    ErrorClassBlock(errorText);
    SingleConcat(c, ClassBlock);
    assert Concat(doc.relationships, RelationshipLine) == "";
    DropEmptyText(Header + ClassBlock(c), "");
    assert "\n  }" + "\n" == "\n" + ClassClosing;
    Regroup(Header, "  class Error {\n", "    Error parsing XML: ", "Invalid XML: ", errorText, "\n", ClassClosing, "\n  }", "\n");
  }

  lemma SingleConcat<T>(x: T, f: T -> string)
    ensures Concat([x], f) == f(x)
  {
    assert [x][..0] == [];
  }

  lemma DropEmptyText(a: string, b: string)
    ensures a + "" + b == a + b
  {
  }

  lemma Regroup(h: string, a: string, b: string, t: string, m: string, nl: string, close: string, x: string, y: string)
    requires x + y == nl + close
    ensures h + a + b + t + m + x + y == h + (a + (b + (t + m) + nl) + close)
  {
    assert h + a + b + t + m + x + y == h + a + b + t + m + (x + y);
  }

  // ---------------------------------------------------------------------------
  // Line counts
  // ---------------------------------------------------------------------------

  /** The number of newline characters in `s`. */
  function Newlines(s: string): nat {
    if s == [] then 0 else Newlines(s[..|s| - 1]) + (if s[|s| - 1] == '\n' then 1 else 0)
  }

  lemma {:induction false} NewlinesAppend(a: string, b: string)
    ensures Newlines(a + b) == Newlines(a) + Newlines(b)
    decreases |b|
  {
    if b == [] {
      assert a + b == a;
    } else {
      assert (a + b)[..|a + b| - 1] == a + b[..|b| - 1];
      NewlinesAppend(a, b[..|b| - 1]);
    }
  }

  predicate SingleLine(s: string) {
    forall k | 0 <= k < |s| :: s[k] != '\n'
  }

  lemma {:induction false} SingleLineNewlines(s: string)
    requires SingleLine(s)
    ensures Newlines(s) == 0
  {
    if s != [] {
      SingleLineNewlines(s[..|s| - 1]);
    }
  }

  lemma SingleLineAppend(a: string, b: string)
    requires SingleLine(a) && SingleLine(b)
    ensures SingleLine(a + b)
  {
    forall k | 0 <= k < |a + b| ensures (a + b)[k] != '\n' {
      if k < |a| {
        assert (a + b)[k] == a[k];
      } else {
        assert (a + b)[k] == b[k - |a|];
      }
    }
  }

  /** Text, literal, text: the shape of every line of the diagram. */
  lemma SingleLine3(a: string, b: string, c: string)
    requires SingleLine(a) && SingleLine(b) && SingleLine(c)
    ensures SingleLine(a + b + c)
  {
    SingleLineAppend(a, b);
    SingleLineAppend(a + b, c);
  }

  /** A line made of text without newlines and a final newline counts once. */
  lemma OneLine(text: string)
    requires SingleLine(text)
    ensures Newlines(text + "\n") == 1
  {
    SingleLineNewlines(text);
    NewlinesAppend(text, "\n");
  }

  /** No attribute value of the document holds a newline. */
  predicate AttributeSingle(a: Option<string>) {
    a.Some? ==> SingleLine(a.value)
  }

  predicate ParameterSingle(p: Parameter) {
    AttributeSingle(p.name) && AttributeSingle(p.paramType)
  }

  predicate MethodSingle(m: Method) {
    AttributeSingle(m.name) && AttributeSingle(m.returnType)
    && forall k | 0 <= k < |m.parameters| :: ParameterSingle(m.parameters[k])
  }

  predicate ClassSingle(c: Class) {
    AttributeSingle(c.name)
    && (forall k | 0 <= k < |c.properties| :: AttributeSingle(c.properties[k].name) && AttributeSingle(c.properties[k].propType))
    && (forall k | 0 <= k < |c.methods| :: MethodSingle(c.methods[k]))
  }

  predicate RelationshipSingle(r: Relationship) {
    forall key | key in r.attributes :: SingleLine(r.attributes[key])
  }

  predicate DocumentSingle(doc: Document) {
    (forall k | 0 <= k < |doc.classes| :: ClassSingle(doc.classes[k]))
    && (forall k | 0 <= k < |doc.relationships| :: RelationshipSingle(doc.relationships[k]))
  }

  /** The lines a class block takes: declaration, properties, methods, closing brace. */
  function ClassLines(c: Class): nat {
    2 + |c.properties| + |c.methods|
  }

  function TotalClassLines(cs: seq<Class>): nat {
    if cs == [] then 0 else TotalClassLines(cs[..|cs| - 1]) + ClassLines(cs[|cs| - 1])
  }

  function KnownCount(rs: seq<Relationship>): nat {
    if rs == [] then 0 else KnownCount(rs[..|rs| - 1]) + (if KnownTag(rs[|rs| - 1].tag) then 1 else 0)
  }

  lemma {:induction false} JoinSingle(items: seq<string>, sep: string)
    requires SingleLine(sep) && forall k | 0 <= k < |items| :: SingleLine(items[k])
    ensures SingleLine(Join(items, sep))
  {
    if |items| > 1 {
      JoinSingle(items[..|items| - 1], sep);
    }
  }

  lemma AttributeText(a: Option<string>, fallback: string)
    requires AttributeSingle(a) && SingleLine(fallback)
    ensures SingleLine(Text(a)) && SingleLine(OrElse(a, fallback))
  {
  }

  lemma PropertyLineCount(p: Property)
    requires AttributeSingle(p.name) && AttributeSingle(p.propType)
    ensures Newlines(PropertyLine(p)) == 1
  {
    AttributeText(p.name, "");
    AttributeText(p.propType, "");
    SingleLine3("    " + Text(p.name), ": ", OrElse(p.propType, ""));
    SingleLineAppend("    ", Text(p.name));
    OneLine("    " + Text(p.name) + ": " + OrElse(p.propType, ""));
  }

  lemma ParameterListSingle(ps: seq<Parameter>)
    requires forall k | 0 <= k < |ps| :: ParameterSingle(ps[k])
    ensures SingleLine(ParameterList(ps))
  {
    var texts := seq(|ps|, k requires 0 <= k < |ps| => ParameterText(ps[k]));
    forall k | 0 <= k < |ps| ensures SingleLine(texts[k]) {
      AttributeText(ps[k].name, "");
      AttributeText(ps[k].paramType, "");
      SingleLine3(Text(ps[k].name), ": ", OrElse(ps[k].paramType, ""));
    }
    JoinSingle(texts, ", ");
  }

  lemma MethodLineCount(m: Method)
    requires MethodSingle(m)
    ensures Newlines(MethodLine(m)) == 1
  {
    AttributeText(m.name, "");
    AttributeText(m.returnType, "void");
    ParameterListSingle(m.parameters);
    var head := "    " + Text(m.name) + "(";
    SingleLine3("    ", Text(m.name), "(");
    SingleLine3(head, ParameterList(m.parameters), "): ");
    SingleLineAppend(head + ParameterList(m.parameters) + "): ", OrElse(m.returnType, "void"));
    OneLine(head + ParameterList(m.parameters) + "): " + OrElse(m.returnType, "void"));
  }

  /** Items of one line each give as many lines as there are items. */
  lemma {:induction false} OneLineEach<T>(xs: seq<T>, f: T -> string)
    requires forall k | 0 <= k < |xs| :: Newlines(f(xs[k])) == 1
    ensures Newlines(Concat(xs, f)) == |xs|
  {
    if xs != [] {
      OneLineEach(xs[..|xs| - 1], f);
      NewlinesAppend(Concat(xs[..|xs| - 1], f), f(xs[|xs| - 1]));
    }
  }

  lemma PropertiesCount(ps: seq<Property>)
    requires forall k | 0 <= k < |ps| :: AttributeSingle(ps[k].name) && AttributeSingle(ps[k].propType)
    ensures Newlines(Concat(ps, PropertyLine)) == |ps|
  {
    forall k | 0 <= k < |ps| ensures Newlines(PropertyLine(ps[k])) == 1 {
      PropertyLineCount(ps[k]);
    }
    OneLineEach(ps, PropertyLine);
  }

  lemma MethodsCount(ms: seq<Method>)
    requires forall k | 0 <= k < |ms| :: MethodSingle(ms[k])
    ensures Newlines(Concat(ms, MethodLine)) == |ms|
  {
    forall k | 0 <= k < |ms| ensures Newlines(MethodLine(ms[k])) == 1 {
      MethodLineCount(ms[k]);
    }
    OneLineEach(ms, MethodLine);
  }

  lemma OpeningCount(c: Class)
    requires AttributeSingle(c.name)
    ensures Newlines(ClassOpening(c)) == 1
  {
    AttributeText(c.name, "");
    SingleLine3("  class ", Text(c.name), " {");
    OneLine("  class " + Text(c.name) + " {");
    assert ClassOpening(c) == "  class " + Text(c.name) + " {" + "\n";
  }

  lemma ClosingCount()
    ensures Newlines(ClassClosing) == 1
  {
    OneLine("  }");
    assert ClassClosing == "  }" + "\n";
  }

  lemma HeaderCount()
    ensures Newlines(Header) == 1
  {
    OneLine("classDiagram");
    assert Header == "classDiagram" + "\n";
  }

  lemma ClassBlockCount(c: Class)
    requires ClassSingle(c)
    ensures Newlines(ClassBlock(c)) == ClassLines(c)
  {
    var opening, props, meths := ClassOpening(c), Concat(c.properties, PropertyLine), Concat(c.methods, MethodLine);
    OpeningCount(c);
    PropertiesCount(c.properties);
    MethodsCount(c.methods);
    ClosingCount();
    NewlinesAppend(opening, props);
    NewlinesAppend(opening + props, meths);
    NewlinesAppend(opening + props + meths, ClassClosing);
  }

  lemma {:induction false} ClassesLineCount(cs: seq<Class>)
    requires forall k | 0 <= k < |cs| :: ClassSingle(cs[k])
    ensures Newlines(Concat(cs, ClassBlock)) == TotalClassLines(cs)
  {
    if cs != [] {
      ClassesLineCount(cs[..|cs| - 1]);
      ClassBlockCount(cs[|cs| - 1]);
      NewlinesAppend(Concat(cs[..|cs| - 1], ClassBlock), ClassBlock(cs[|cs| - 1]));
    }
  }

  lemma ArrowLineCount(from: string, arrow: string, to: string)
    requires SingleLine(from) && SingleLine(arrow) && SingleLine(to)
    ensures Newlines(ArrowLine(from, arrow, to)) == 1
  {
    SingleLine3(from, arrow, to);
    OneLine(from + arrow + to);
    SingleLineNewlines("  ");
    NewlinesAppend("  ", from + arrow + to + "\n");
  }

  lemma RelationshipAttribute(r: Relationship, key: string)
    requires RelationshipSingle(r)
    ensures SingleLine(Attribute(r, key))
  {
  }

  lemma RelationshipLineCount(r: Relationship)
    requires RelationshipSingle(r)
    ensures Newlines(RelationshipLine(r)) == if KnownTag(r.tag) then 1 else 0
  {
    if KnownTag(r.tag) {
      var from, to := if r.tag == "Inheritance" then "child" else if r.tag == "Association" then "from" else "container",
                      if r.tag == "Inheritance" then "parent" else if r.tag == "Association" then "to" else "contained";
      var arrow := if r.tag == "Inheritance" then " --|> " else if r.tag == "Composition" then " *-- "
                   else if r.tag == "Aggregation" then " o-- " else " --> ";
      RelationshipAttribute(r, from);
      RelationshipAttribute(r, to);
      ArrowLineCount(Attribute(r, from), arrow, Attribute(r, to));
      assert RelationshipLine(r) == ArrowLine(Attribute(r, from), arrow, Attribute(r, to));
    }
  }

  lemma {:induction false} RelationshipsLineCount(rs: seq<Relationship>)
    requires forall k | 0 <= k < |rs| :: RelationshipSingle(rs[k])
    ensures Newlines(Concat(rs, RelationshipLine)) == KnownCount(rs)
  {
    if rs != [] {
      RelationshipsLineCount(rs[..|rs| - 1]);
      RelationshipLineCount(rs[|rs| - 1]);
      NewlinesAppend(Concat(rs[..|rs| - 1], RelationshipLine), RelationshipLine(rs[|rs| - 1]));
    }
  }

  /** When no attribute holds a newline, the diagram has one line for the header, two per
      class plus one per property and per method, and one per relationship with a known
      tag. */
  lemma DiagramLineCount(doc: Document)
    requires DocumentSingle(doc)
    ensures Newlines(DiagramText(doc)) == 1 + TotalClassLines(doc.classes) + KnownCount(doc.relationships)
  {
    ClassesLineCount(doc.classes);
    RelationshipsLineCount(doc.relationships);
    HeaderCount();
    NewlinesAppend(Header, Concat(doc.classes, ClassBlock));
    NewlinesAppend(Header + Concat(doc.classes, ClassBlock), Concat(doc.relationships, RelationshipLine));
  }
}
