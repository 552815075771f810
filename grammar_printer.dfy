/**
 * The `Printer` visitor of the grammar nodes, as functions of the node and the printer's
 * indentation. A printer is never changed after construction; a composite node renders its
 * children with a fresh printer one level deeper. Python's results are modelled as a
 * rendered string, the `None` that `visit_error` and `visit_pseudo` return, or a failure
 * (a method looked up on `None`, or `None` inside `'\n'.join`).
 */
module GrammarPrinter {
  import opened Wrappers
  import opened GrammarNodes
  import L = CodepointLexerSpec

  datatype Rendering = Printed(text: Text) | Nothing | Fails

  /** The newline that separates the lines of a rendering. */
  const Break: Text := [0x0A]

  /** Four spaces per level of indentation. */
  function Indent(d: nat): (r: Text)
    ensures |r| == 4 * d
    ensures forall k :: 0 <= k < |r| ==> r[k] == 0x20
  {
    if d == 0 then [] else [0x20, 0x20, 0x20, 0x20] + Indent(d - 1)
  }

  /** Texts joined with newlines, as `'\n'.join` does. */
  function JoinTexts(ts: seq<Text>): (r: Text)
    ensures |ts| > 0 ==> |r| >= |ts[0]|
  {
    if |ts| == 0 then [] else if |ts| == 1 then ts[0] else ts[0] + Break + JoinTexts(ts[1..])
  }

  /** `affixes(node)`: the head line opens the class name, the tail line closes it. */
  function Head(n: Node, d: nat): (r: Text)
    ensures |r| > 4 * d
  {
    Indent(d) + ClassName(n) + Chars("(")
  }

  function Tail(d: nat): Text
  {
    Indent(d) + Chars(")")
  }

  /** What an f-string makes of a child's rendering: `None` becomes the text `None`. */
  function Interpolated(r: Rendering): Text
    requires !r.Fails?
  {
    if r.Printed? then r.text else Chars("None")
  }

  /** `f"{head}\n{a}\n{tail}"`. */
  function Wrap1(n: Node, d: nat, a: Rendering): (r: Rendering)
    ensures r.Printed? ==> |r.text| > 4 * d
  {
    if a.Fails? then Fails else Printed(JoinTexts([Head(n, d), Interpolated(a), Tail(d)]))
  }

  /** `f"{head}\n{a}\n{b}\n{tail}"`. */
  function Wrap2(n: Node, d: nat, a: Rendering, b: Rendering): (r: Rendering)
    ensures r.Printed? ==> |r.text| > 4 * d
  {
    if a.Fails? || b.Fails? then Fails
    else Printed(JoinTexts([Head(n, d), Interpolated(a), Interpolated(b), Tail(d)]))
  }

  /**
   * The visits of Optional, Parenthetical and Production: the output line is printed only
   * when the output is present, true, and renders to a non-empty string.
   */
  function WithOutput(n: Node, d: nat, expression: Rendering, o: Option<Node>, output: Rendering): (r: Rendering)
    ensures r.Printed? ==> |r.text| > 4 * d
  {
    if expression.Fails? then Fails
    else if o.Some? && Truthy(o.value) && output.Fails? then Fails
    else if o.Some? && Truthy(o.value) && output.Printed? && |output.text| > 0 then
      Printed(JoinTexts([Head(n, d), Interpolated(expression), output.text, Tail(d)]))
    else Printed(JoinTexts([Head(n, d), Interpolated(expression), Tail(d)]))
  }

  /** A block of `'\n'.join`ed children between the affixes; None if the join fails. */
  function Block(n: Node, d: nat, body: Option<seq<Text>>): (r: Rendering)
    ensures r.Printed? ==> |r.text| > 4 * d
  {
    if body.None? then Fails else Printed(JoinTexts([Head(n, d), JoinTexts(body.value), Tail(d)]))
  }

  /** The visits of the leaves: `Kind('literal')` after the indentation. */
  function Leaf(kind: string, t: Option<Token>, d: nat): (r: Rendering)
    ensures r.Printed? ==> |r.text| > 4 * d
  {
    if t.None? then Fails else Printed(Indent(d) + Quoted(kind, t.value.literal))
  }

  /** `node.accept(Printer(d))`. */
  function Print(n: Node, d: nat): (r: Rendering)
    ensures r.Printed? ==> |r.text| > 4 * d
    decreases n, 1
  {
    match n
    case Alternation(xs) => Block(n, d, Collect(n, xs, 0, d + 1))
    case Annotation(e) => Wrap1(n, d, Child(n, e, d + 1))
    case Assignment(i, e) => Wrap2(n, d, Print(i, d + 1), Child(n, e, d + 1))
    case Call(i, p) => Wrap2(n, d, Print(i, d + 1), Print(p, d + 1))
    case Concatenation(xs) => Block(n, d, Collect(n, xs, 0, d + 1))
    case Definition(s, p) => Wrap2(n, d, Print(s, d + 1), Print(p, d + 1))
    case Error => Nothing
    case Identifier(t) => Leaf("Identifier", t, d)
    case Number(t) => Leaf("Number", t, d)
    case Optional(e, o) => WithOutput(n, d, Child(n, e, d + 1), o, Child(n, o, d + 1))
    case Output(e) => Wrap1(n, d, Child(n, e, d + 1))
    case Parenthetical(e, o) => WithOutput(n, d, Child(n, e, d + 1), o, Child(n, o, d + 1))
    case Plus(e) => Wrap1(n, d, Child(n, e, d + 1))
    case Production(e, o) => WithOutput(n, d, Child(n, e, d + 1), o, Child(n, o, d + 1))
    case Pseudo => Nothing
    case Root(_, defs) => Wrap1(n, d, Print(defs, d + 1))
    case Sequence(xs) =>
      if |xs| > 0 then Block(n, d, Collect(n, xs, 0, d + 1)) else Printed(Indent(d) + Chars("Sequence()"))
    case Signature(i, a) => Wrap2(n, d, Print(i, d + 1), Print(a, d + 1))
    case Star(e) => Wrap1(n, d, Child(n, e, d + 1))
    case String(t) => Leaf("String", t, d)
  }

  /** A possibly missing child: `None.accept` fails. */
  function Child(n: Node, o: Option<Node>, d: nat): Rendering
    requires o.Some? ==> o.value < n
    decreases n, 0, 0
  {
    if o.None? then Fails else Print(o.value, d)
  }

  /** The renderings of `xs[i..]` for `'\n'.join`, which fails on a failure or a `None`. */
  function Collect(n: Node, xs: seq<Option<Node>>, i: nat, d: nat): Option<seq<Text>>
    requires i <= |xs| && forall k :: 0 <= k < |xs| && xs[k].Some? ==> xs[k].value < n
    decreases n, 0, |xs| - i
  {
    if i == |xs| then Some([])
    else
      var r := Child(n, xs[i], d);
      var rest := Collect(n, xs, i + 1, d);
      if r.Printed? && rest.Some? then Some([r.text] + rest.value) else None
  }

  // ---------------------------------------------------------------------------------------
  // An independent reference: the outline of a tree
  // ---------------------------------------------------------------------------------------

  /** One printed line: its depth and what follows the indentation. */
  datatype Line = Line(depth: nat, text: Text)

  /** The lines, each indented four spaces per level, joined with newlines. */
  function Render(lines: seq<Line>): Text
  {
    JoinTexts(Texts(lines))
  }

  function Texts(lines: seq<Line>): (ts: seq<Text>)
    ensures |ts| == |lines|
    ensures forall k :: 0 <= k < |lines| ==> ts[k] == Indent(lines[k].depth) + lines[k].text
  {
    if lines == [] then [] else [Indent(lines[0].depth) + lines[0].text] + Texts(lines[1..])
  }

  /**
   * The trees the printer renders without a `None`: no Error or Pseudo node, no missing
   * child or token, and no empty Alternation or Concatenation (whose empty body would
   * print as an empty line).
   */
  predicate Printable(n: Node)
    decreases n, 1
  {
    match n
    case Alternation(xs) => |xs| > 0 && AllPrintable(n, xs, 0)
    case Annotation(e) => SomePrintable(n, e)
    case Assignment(i, e) => Printable(i) && SomePrintable(n, e)
    case Call(i, p) => Printable(i) && Printable(p)
    case Concatenation(xs) => |xs| > 0 && AllPrintable(n, xs, 0)
    case Definition(s, p) => Printable(s) && Printable(p)
    case Error => false
    case Identifier(t) => t.Some?
    case Number(t) => t.Some?
    case Optional(e, o) => SomePrintable(n, e) && (o.Some? ==> SomePrintable(n, o))
    case Output(e) => SomePrintable(n, e)
    case Parenthetical(e, o) => SomePrintable(n, e) && (o.Some? ==> SomePrintable(n, o))
    case Plus(e) => SomePrintable(n, e)
    case Production(e, o) => SomePrintable(n, e) && (o.Some? ==> SomePrintable(n, o))
    case Pseudo => false
    case Root(_, defs) => Printable(defs)
    case Sequence(xs) => AllPrintable(n, xs, 0)
    case Signature(i, a) => Printable(i) && Printable(a)
    case Star(e) => SomePrintable(n, e)
    case String(t) => t.Some?
  }

  predicate SomePrintable(n: Node, o: Option<Node>)
    requires o.Some? ==> o.value < n
    decreases n, 0, 0
  {
    o.Some? && Printable(o.value)
  }

  predicate AllPrintable(n: Node, xs: seq<Option<Node>>, i: nat)
    requires i <= |xs| && forall k :: 0 <= k < |xs| && xs[k].Some? ==> xs[k].value < n
    decreases n, 0, |xs| - i
  {
    i == |xs| || (SomePrintable(n, xs[i]) && AllPrintable(n, xs, i + 1))
  }

  /**
   * The outline of a printable tree at depth `d`: a leaf is one line, an empty Sequence is
   * `Sequence()`, any other node a head line, its children's outlines one level deeper
   * (an output only when present and true), and a tail line.
   */
  function Outline(n: Node, d: nat): (r: seq<Line>)
    requires Printable(n)
    ensures |r| > 0
    decreases n, 1
  {
    match n
    case Alternation(xs) => Framed(n, d, OutlineFrom(n, xs, 0, d + 1))
    case Annotation(e) => Framed(n, d, SubOutline(n, e, d + 1))
    case Assignment(i, e) => Framed(n, d, Outline(i, d + 1) + SubOutline(n, e, d + 1))
    case Call(i, p) => Framed(n, d, Outline(i, d + 1) + Outline(p, d + 1))
    case Concatenation(xs) => Framed(n, d, OutlineFrom(n, xs, 0, d + 1))
    case Definition(s, p) => Framed(n, d, Outline(s, d + 1) + Outline(p, d + 1))
    case Identifier(t) => [Line(d, Quoted("Identifier", t.value.literal))]
    case Number(t) => [Line(d, Quoted("Number", t.value.literal))]
    case Optional(e, o) => Framed(n, d, SubOutline(n, e, d + 1) + OutputOutline(n, o, d + 1))
    case Output(e) => Framed(n, d, SubOutline(n, e, d + 1))
    case Parenthetical(e, o) => Framed(n, d, SubOutline(n, e, d + 1) + OutputOutline(n, o, d + 1))
    case Plus(e) => Framed(n, d, SubOutline(n, e, d + 1))
    case Production(e, o) => Framed(n, d, SubOutline(n, e, d + 1) + OutputOutline(n, o, d + 1))
    case Root(_, defs) => Framed(n, d, Outline(defs, d + 1))
    case Sequence(xs) =>
      if |xs| > 0 then Framed(n, d, OutlineFrom(n, xs, 0, d + 1)) else [Line(d, Chars("Sequence()"))]
    case Signature(i, a) => Framed(n, d, Outline(i, d + 1) + Outline(a, d + 1))
    case Star(e) => Framed(n, d, SubOutline(n, e, d + 1))
    case String(t) => [Line(d, Quoted("String", t.value.literal))]
  }

  /** Head line, body, tail line. */
  function Framed(n: Node, d: nat, body: seq<Line>): seq<Line>
  {
    [Line(d, ClassName(n) + Chars("("))] + body + [Line(d, Chars(")"))]
  }

  function SubOutline(n: Node, o: Option<Node>, d: nat): (r: seq<Line>)
    requires o.Some? ==> o.value < n
    requires SomePrintable(n, o)
    ensures |r| > 0
    decreases n, 0, 0
  {
    Outline(o.value, d)
  }

  /** The output's lines: none when the output is missing or false. */
  function OutputOutline(n: Node, o: Option<Node>, d: nat): seq<Line>
    requires o.Some? ==> o.value < n
    requires o.Some? ==> SomePrintable(n, o)
    decreases n, 0, 0
  {
    if o.Some? && Truthy(o.value) then Outline(o.value, d) else []
  }

  function OutlineFrom(n: Node, xs: seq<Option<Node>>, i: nat, d: nat): (r: seq<Line>)
    requires i <= |xs| && forall k :: 0 <= k < |xs| && xs[k].Some? ==> xs[k].value < n
    requires AllPrintable(n, xs, i)
    ensures i < |xs| ==> |r| > 0
    decreases n, 0, |xs| - i
  {
    if i == |xs| then [] else SubOutline(n, xs[i], d) + OutlineFrom(n, xs, i + 1, d)
  }

  /** All lines lie at depth `d` or deeper. */
  predicate AtLeast(lines: seq<Line>, d: nat)
  {
    forall k :: 0 <= k < |lines| ==> lines[k].depth >= d
  }

  lemma AtLeastAppend(a: seq<Line>, b: seq<Line>, d: nat)
    requires AtLeast(a, d) && AtLeast(b, d)
    ensures AtLeast(a + b, d)
  {
    assert forall k :: 0 <= k < |a + b| ==> (a + b)[k] == if k < |a| then a[k] else b[k - |a|];
  }

  lemma FramedDepths(n: Node, d: nat, body: seq<Line>)
    requires AtLeast(body, d + 1)
    ensures var r := Framed(n, d, body); r[0].depth == d && Last(r).depth == d && AtLeast(r, d)
  {
    var h, t := [Line(d, ClassName(n) + Chars("("))], [Line(d, Chars(")"))];
    AtLeastAppend(h, body, d);
    AtLeastAppend(h + body, t, d);
  }

  /**
   * The outline of a node at depth `d` opens and closes at depth `d`, and every line in
   * between lies deeper: the printer indents a node at tree depth `d` by `4 * d` spaces.
   */
  lemma {:induction false} OutlineDepths(n: Node, d: nat)
    requires Printable(n)
    ensures var r := Outline(n, d); r[0].depth == d && Last(r).depth == d && AtLeast(r, d)
    decreases n, 1
  {
    match n
    case Alternation(xs) => OutlineFromDepths(n, xs, 0, d + 1); FramedDepths(n, d, OutlineFrom(n, xs, 0, d + 1));
    case Concatenation(xs) => OutlineFromDepths(n, xs, 0, d + 1); FramedDepths(n, d, OutlineFrom(n, xs, 0, d + 1));
    case Sequence(xs) =>
      if |xs| > 0 {
        OutlineFromDepths(n, xs, 0, d + 1);
        FramedDepths(n, d, OutlineFrom(n, xs, 0, d + 1));
      }
    case Annotation(e) => OutlineDepths(e.value, d + 1); FramedDepths(n, d, Outline(e.value, d + 1));
    case Output(e) => OutlineDepths(e.value, d + 1); FramedDepths(n, d, Outline(e.value, d + 1));
    case Plus(e) => OutlineDepths(e.value, d + 1); FramedDepths(n, d, Outline(e.value, d + 1));
    case Star(e) => OutlineDepths(e.value, d + 1); FramedDepths(n, d, Outline(e.value, d + 1));
    case Root(_, defs) => OutlineDepths(defs, d + 1); FramedDepths(n, d, Outline(defs, d + 1));
    case Assignment(i, e) => PairDepths(n, d, i, e.value);
    case Call(i, p) => PairDepths(n, d, i, p);
    case Definition(s, p) => PairDepths(n, d, s, p);
    case Signature(i, a) => PairDepths(n, d, i, a);
    case Optional(e, o) => OutputDepths(n, d, e.value, o);
    case Parenthetical(e, o) => OutputDepths(n, d, e.value, o);
    case Production(e, o) => OutputDepths(n, d, e.value, o);
    case _ =>
  }

  lemma PairDepths(n: Node, d: nat, a: Node, b: Node)
    requires a < n && b < n && Printable(a) && Printable(b) && Printable(n)
    requires Outline(n, d) == Framed(n, d, Outline(a, d + 1) + Outline(b, d + 1))
    ensures var r := Outline(n, d); r[0].depth == d && Last(r).depth == d && AtLeast(r, d)
    decreases n, 0
  {
    OutlineDepths(a, d + 1);
    OutlineDepths(b, d + 1);
    AtLeastAppend(Outline(a, d + 1), Outline(b, d + 1), d + 1);
    FramedDepths(n, d, Outline(a, d + 1) + Outline(b, d + 1));
  }

  lemma OutputDepths(n: Node, d: nat, e: Node, o: Option<Node>)
    requires e < n && Printable(e) && (o.Some? ==> o.value < n && Printable(o.value)) && Printable(n)
    requires Outline(n, d) == Framed(n, d, Outline(e, d + 1) + OutputOutline(n, o, d + 1))
    ensures var r := Outline(n, d); r[0].depth == d && Last(r).depth == d && AtLeast(r, d)
    decreases n, 0
  {
    OutlineDepths(e, d + 1);
    if o.Some? && Truthy(o.value) {
      OutlineDepths(o.value, d + 1);
    }
    AtLeastAppend(Outline(e, d + 1), OutputOutline(n, o, d + 1), d + 1);
    FramedDepths(n, d, Outline(e, d + 1) + OutputOutline(n, o, d + 1));
  }

  lemma {:induction false} OutlineFromDepths(n: Node, xs: seq<Option<Node>>, i: nat, d: nat)
    requires i <= |xs| && forall k :: 0 <= k < |xs| && xs[k].Some? ==> xs[k].value < n
    requires AllPrintable(n, xs, i)
    ensures AtLeast(OutlineFrom(n, xs, i, d), d)
    decreases n, 0, |xs| - i
  {
    if i < |xs| {
      OutlineDepths(xs[i].value, d);
      OutlineFromDepths(n, xs, i + 1, d);
      AtLeastAppend(Outline(xs[i].value, d), OutlineFrom(n, xs, i + 1, d), d);
    }
  }

  // ---------------------------------------------------------------------------------------
  // The printer follows the outline
  // ---------------------------------------------------------------------------------------

  /** Joining two non-empty runs of texts puts one newline between them. */
  lemma {:induction false} JoinAppend(a: seq<Text>, b: seq<Text>)
    requires |a| > 0 && |b| > 0
    ensures JoinTexts(a + b) == JoinTexts(a) + Break + JoinTexts(b)
    decreases |a|
  {
    if |a| == 1 {
      assert (a + b)[1..] == b;
    } else {
      JoinAppend(a[1..], b);
      assert (a + b)[1..] == a[1..] + b;
    }
  }

  /** Rendering two non-empty runs of lines puts one newline between them. */
  lemma RenderAppend(a: seq<Line>, b: seq<Line>)
    requires |a| > 0 && |b| > 0
    ensures Render(a + b) == Render(a) + Break + Render(b)
  {
    assert Texts(a + b) == Texts(a) + Texts(b);
    JoinAppend(Texts(a), Texts(b));
  }

  /** `[h, b, t]` joins as `h`, a newline, `b`, a newline and `t`. */
  lemma JoinThree(h: Text, b: Text, t: Text)
    ensures JoinTexts([h, b, t]) == h + Break + b + Break + t
  {
    assert [h, b, t][1..] == [b, t];
    assert [b, t][1..] == [t];
    assert JoinTexts([b, t]) == b + Break + t;
    assert JoinTexts([h, b, t]) == h + Break + (b + Break + t);
  }

  /** `[h, a, b, t]` joins as the four texts with a newline between each two. */
  lemma JoinFour(h: Text, a: Text, b: Text, t: Text)
    ensures JoinTexts([h, a, b, t]) == h + Break + a + Break + b + Break + t
  {
    assert [h, a, b, t][1..] == [a, b, t];
    JoinThree(a, b, t);
    assert JoinTexts([h, a, b, t]) == h + Break + (a + Break + b + Break + t);
  }

  /** A framed body renders as the head, the body's rendering, and the tail, line by line. */
  lemma RenderFramed(n: Node, d: nat, body: seq<Line>)
    requires |body| > 0
    ensures Render(Framed(n, d, body)) == JoinTexts([Head(n, d), Render(body), Tail(d)])
  {
    var h := Line(d, ClassName(n) + Chars("("));
    RenderBetween(h, body, Line(d, Chars(")")));
    assert Indent(d) + h.text == Head(n, d);
  }

  /** Lines around a body render as the first line, the body's rendering, and the last line. */
  lemma RenderBetween(h: Line, body: seq<Line>, t: Line)
    requires |body| > 0
    ensures Render([h] + body + [t]) == JoinTexts([Indent(h.depth) + h.text, Render(body), Indent(t.depth) + t.text])
  {
    RenderAppend([h] + body, [t]);
    RenderAppend([h], body);
    RenderOne(h);
    RenderOne(t);
    JoinThree(Indent(h.depth) + h.text, Render(body), Indent(t.depth) + t.text);
  }

  /** A single line renders as its indentation followed by its text. */
  lemma RenderOne(l: Line)
    ensures Render([l]) == Indent(l.depth) + l.text
  {
    assert Texts([l]) == [Indent(l.depth) + l.text];
  }

  /** Joined child renderings are the rendering of the joined child outlines. */
  lemma {:induction false} CollectFollowsOutline(n: Node, xs: seq<Option<Node>>, i: nat, d: nat)
    requires i < |xs| && forall k :: 0 <= k < |xs| && xs[k].Some? ==> xs[k].value < n
    requires AllPrintable(n, xs, i)
    ensures Collect(n, xs, i, d).Some?
    ensures JoinTexts(Collect(n, xs, i, d).value) == Render(OutlineFrom(n, xs, i, d))
    decreases n, 0, |xs| - i
  {
    PrintFollowsOutline(xs[i].value, d);
    if i + 1 < |xs| {
      CollectFollowsOutline(n, xs, i + 1, d);
      var c := Collect(n, xs, i + 1, d).value;
      JoinAppend([Print(xs[i].value, d).text], c);
      RenderAppend(Outline(xs[i].value, d), OutlineFrom(n, xs, i + 1, d));
    } else {
      assert OutlineFrom(n, xs, i, d) == Outline(xs[i].value, d);
    }
  }

  /**
   * A printable tree prints exactly as its outline renders: every line is its outline
   * line's text after four spaces per level of its depth.
   */
  lemma {:induction false} PrintFollowsOutline(n: Node, d: nat)
    requires Printable(n)
    ensures Print(n, d) == Printed(Render(Outline(n, d)))
    decreases n, 2
  {
    if n.Alternation? || n.Concatenation? || n.Sequence? {
      BlockFollowsOutline(n, d);
    } else if n.Annotation? || n.Output? || n.Plus? || n.Star? || n.Root? {
      WrapFollowsOutline(n, d);
    } else if n.Assignment? || n.Call? || n.Definition? || n.Signature? {
      PairFollowsOutline(n, d);
    } else if n.Optional? || n.Parenthetical? || n.Production? {
      OutputFollowsOutline(n, d);
    }
  }

  lemma {:induction false} BlockFollowsOutline(n: Node, d: nat)
    requires Printable(n) && (n.Alternation? || n.Concatenation? || n.Sequence?)
    ensures Print(n, d) == Printed(Render(Outline(n, d)))
    decreases n, 1
  {
    if !n.Sequence? {
      ManyChildren(n, d, n.expressions);
    } else if |n.elements| > 0 {
      ManyChildren(n, d, n.elements);
    }
  }

  lemma {:induction false} WrapFollowsOutline(n: Node, d: nat)
    requires Printable(n) && (n.Annotation? || n.Output? || n.Plus? || n.Star? || n.Root?)
    ensures Print(n, d) == Printed(Render(Outline(n, d)))
    decreases n, 1
  {
    if n.Root? {
      OneChild(n, d, n.definitions);
    } else {
      OneChild(n, d, n.expression.value);
    }
  }

  lemma {:induction false} PairFollowsOutline(n: Node, d: nat)
    requires Printable(n) && (n.Assignment? || n.Call? || n.Definition? || n.Signature?)
    ensures Print(n, d) == Printed(Render(Outline(n, d)))
    decreases n, 1
  {
    match n
    case Assignment(i, e) => TwoChildren(n, d, i, e.value);
    case Call(i, p) => TwoChildren(n, d, i, p);
    case Definition(s, p) => TwoChildren(n, d, s, p);
    case Signature(i, a) => TwoChildren(n, d, i, a);
  }

  lemma {:induction false} OutputFollowsOutline(n: Node, d: nat)
    requires Printable(n) && (n.Optional? || n.Parenthetical? || n.Production?)
    ensures Print(n, d) == Printed(Render(Outline(n, d)))
    decreases n, 1
  {
    OutputChild(n, d, n.expression.value, n.output);
  }

  lemma ManyChildren(n: Node, d: nat, xs: seq<Option<Node>>)
    requires |xs| > 0 && forall k :: 0 <= k < |xs| && xs[k].Some? ==> xs[k].value < n
    requires AllPrintable(n, xs, 0)
    ensures Block(n, d, Collect(n, xs, 0, d + 1)) == Printed(Render(Framed(n, d, OutlineFrom(n, xs, 0, d + 1))))
    decreases n, 0
  {
    CollectFollowsOutline(n, xs, 0, d + 1);
    RenderFramed(n, d, OutlineFrom(n, xs, 0, d + 1));
  }

  lemma OneChild(n: Node, d: nat, c: Node)
    requires c < n && Printable(c)
    ensures Wrap1(n, d, Print(c, d + 1)) == Printed(Render(Framed(n, d, Outline(c, d + 1))))
    decreases n, 0
  {
    PrintFollowsOutline(c, d + 1);
    RenderFramed(n, d, Outline(c, d + 1));
  }

  lemma TwoChildren(n: Node, d: nat, a: Node, b: Node)
    requires a < n && b < n && Printable(a) && Printable(b)
    ensures Wrap2(n, d, Print(a, d + 1), Print(b, d + 1)) == Printed(Render(Framed(n, d, Outline(a, d + 1) + Outline(b, d + 1))))
    decreases n, 0
  {
    PrintFollowsOutline(a, d + 1);
    PrintFollowsOutline(b, d + 1);
    Framed4(n, d, Outline(a, d + 1), Outline(b, d + 1));
  }

  /** Splitting the middle text of three at a newline gives four texts. */
  lemma JoinSplitMiddle(h: Text, a: Text, b: Text, t: Text)
    ensures JoinTexts([h, a + Break + b, t]) == JoinTexts([h, a, b, t])
  {
    JoinThree(h, a + Break + b, t);
    JoinFour(h, a, b, t);
    assert h + Break + (a + Break + b) + Break + t == h + Break + a + Break + b + Break + t;
  }

  /** A framed pair of outlines renders as the four-part f-string of the visits. */
  lemma Framed4(n: Node, d: nat, a: seq<Line>, b: seq<Line>)
    requires |a| > 0 && |b| > 0
    ensures Render(Framed(n, d, a + b)) == JoinTexts([Head(n, d), Render(a), Render(b), Tail(d)])
  {
    RenderFramed(n, d, a + b);
    RenderAppend(a, b);
    JoinSplitMiddle(Head(n, d), Render(a), Render(b), Tail(d));
  }

  lemma OutputChild(n: Node, d: nat, e: Node, o: Option<Node>)
    requires e < n && Printable(e) && (o.Some? ==> o.value < n && Printable(o.value))
    ensures WithOutput(n, d, Print(e, d + 1), o, Child(n, o, d + 1))
      == Printed(Render(Framed(n, d, Outline(e, d + 1) + OutputOutline(n, o, d + 1))))
    decreases n, 0, 1
  {
    PrintFollowsOutline(e, d + 1);
    if o.Some? && Truthy(o.value) {
      ShownOutput(n, d, Print(e, d + 1), Outline(e, d + 1), o.value);
    } else {
      assert Outline(e, d + 1) + OutputOutline(n, o, d + 1) == Outline(e, d + 1);
      RenderFramed(n, d, Outline(e, d + 1));
    }
  }

  /** A shown output: the expression's rendering `pe` and the output's outline framed together. */
  lemma ShownOutput(n: Node, d: nat, pe: Rendering, a: seq<Line>, p: Node)
    requires p < n && Printable(p) && Truthy(p) && |a| > 0 && pe == Printed(Render(a))
    ensures WithOutput(n, d, pe, Some(p), Print(p, d + 1))
      == Printed(Render(Framed(n, d, a + Outline(p, d + 1))))
    decreases n, 0, 0
  {
    var pp, b := Print(p, d + 1), Outline(p, d + 1);
    PrintFollowsOutline(p, d + 1);
    assert pp.Printed? && |pp.text| > 0;
    ShownOutputText(n, d, pe, p, pp, a, b);
  }

  lemma ShownOutputText(n: Node, d: nat, pe: Rendering, p: Node, pp: Rendering, a: seq<Line>, b: seq<Line>)
    requires |a| > 0 && |b| > 0 && Truthy(p)
    requires pe == Printed(Render(a)) && pp == Printed(Render(b)) && |pp.text| > 0
    ensures WithOutput(n, d, pe, Some(p), pp) == Printed(Render(Framed(n, d, a + b)))
  {
    assert WithOutput(n, d, pe, Some(p), pp) == Printed(JoinTexts([Head(n, d), pe.text, pp.text, Tail(d)]));
    Framed4(n, d, a, b);
  }

  // ---------------------------------------------------------------------------------------
  // Other properties of the visits
  // ---------------------------------------------------------------------------------------

  /**
   * An output that renders to `None` is dropped: the node prints as if it had no output.
   * (No visit renders the empty string, so the emptiness test never drops a printed output.)
   */
  lemma SilentOutputDropped(n: Node, d: nat)
    requires n.Optional? || n.Parenthetical? || n.Production?
    requires n.output.Some? && Print(n.output.value, d + 1).Nothing?
    ensures Print(n, d) == Print(n.(output := None), d)
  {
  }

  /** At indentation 0 a leaf prints as its string form. */
  lemma LeafPrintsRepr(n: Node)
    requires (n.Identifier? || n.Number?) && n.token.Some?
    ensures Print(n, 0) == Printed(Repr(n).value)
  {
  }

  /** A node with no code of its own to print, Error or Pseudo, prints `None`. */
  lemma ErrorAndPseudoPrintNothing(n: Node, d: nat)
    requires n.Error? || n.Pseudo?
    ensures Print(n, d) == Nothing
    ensures Print(Annotation(Some(n)), d) == Printed(JoinTexts([Head(Annotation(Some(n)), d), Chars("None"), Tail(d)]))
  {
  }

  /** A block visit joins strings only, so an Error or Pseudo child makes it fail. */
  lemma BlocksFailOnErrorAndPseudo(n: Node, d: nat)
    requires n.Error? || n.Pseudo?
    ensures Print(Alternation([Some(n)]), d).Fails? && Print(Concatenation([Some(n)]), d).Fails?
    ensures Print(Sequence([Some(n)]), d).Fails?
  {
    assert Print(n, d + 1) == Nothing;
    var a, c, q := Alternation([Some(n)]), Concatenation([Some(n)]), Sequence([Some(n)]);
    assert Collect(a, a.expressions, 0, d + 1).None?;
    assert Print(a, d) == Block(a, d, Collect(a, a.expressions, 0, d + 1));
    assert Collect(c, c.expressions, 0, d + 1).None?;
    assert Print(c, d) == Block(c, d, Collect(c, c.expressions, 0, d + 1));
    assert Collect(q, q.elements, 0, d + 1).None?;
    assert Print(q, d) == Block(q, d, Collect(q, q.elements, 0, d + 1));
  }
}
