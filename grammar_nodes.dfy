/**
 * The nodes the grammar parser builds, as one datatype. Python's `None` where a child node
 * is expected is `Option`'s None; leaves carry the (possibly missing) token they wrap.
 * `start`/`end` and the string forms return an `Outcome`: a value, the exception Python
 * raises (an attribute looked up on `None`), or, for a class whose code is not part of this
 * model, `Unshown`.
 */
module GrammarNodes {
  import opened Wrappers
  import L = CodepointLexerSpec

  type Token = L.Token
  type Text = seq<L.Codepoint>

  datatype Node =
    | Alternation(expressions: seq<Option<Node>>)
    | Annotation(expression: Option<Node>)
    | Assignment(identifier: Node, expression: Option<Node>)
    | Call(identifier: Node, parameters: Node)
    | Concatenation(expressions: seq<Option<Node>>)
    | Definition(signature: Node, productions: Node)
    | Error
    | Identifier(token: Option<Token>)
    | Number(token: Option<Token>)
    | Optional(expression: Option<Node>, output: Option<Node>)
    | Output(expression: Option<Node>)
    | Parenthetical(expression: Option<Node>, output: Option<Node>)
    | Plus(expression: Option<Node>)
    | Production(expression: Option<Node>, output: Option<Node>)
    | Pseudo
    | Root(origin: string, definitions: Node)
    | Sequence(elements: seq<Option<Node>>)
    | Signature(identifier: Node, annotation: Node)
    | Star(expression: Option<Node>)
    | String(token: Option<Token>)

  /** What a property or a string form gives. */
  datatype Outcome<T> = Value(value: T) | Raises | Unshown

  /** ASCII text as codepoints. */
  function Chars(s: string): (r: Text)
    ensures |r| == |s|
  {
    seq(|s|, k requires 0 <= k < |s| => (s[k] as int) as L.Codepoint)
  }

  /** `node.__class__.__name__`. */
  function ClassName(n: Node): Text
  {
    match n
    case Alternation(_) => Chars("Alternation")
    case Annotation(_) => Chars("Annotation")
    case Assignment(_, _) => Chars("Assignment")
    case Call(_, _) => Chars("Call")
    case Concatenation(_) => Chars("Concatenation")
    case Definition(_, _) => Chars("Definition")
    case Error => Chars("Error")
    case Identifier(_) => Chars("Identifier")
    case Number(_) => Chars("Number")
    case Optional(_, _) => Chars("Optional")
    case Output(_) => Chars("Output")
    case Parenthetical(_, _) => Chars("Parenthetical")
    case Plus(_) => Chars("Plus")
    case Production(_, _) => Chars("Production")
    case Pseudo => Chars("Pseudo")
    case Root(_, _) => Chars("Root")
    case Sequence(_) => Chars("Sequence")
    case Signature(_, _) => Chars("Signature")
    case Star(_) => Chars("Star")
    case String(_) => Chars("String")
  }

  /** The class name of a possibly missing node: `None`'s class is `NoneType`. */
  function NameOf(o: Option<Node>): Text
  {
    if o.None? then Chars("NoneType") else ClassName(o.value)
  }

  /**
   * Python truthiness of a node: a Sequence is a container, true when it has elements;
   * every other node is an object, always true.
   */
  predicate Truthy(n: Node)
  {
    !n.Sequence? || |n.elements| > 0
  }

  function Last<T>(s: seq<T>): T
    requires |s| > 0
  {
    s[|s| - 1]
  }

  // ---------------------------------------------------------------------------------------
  // Bounds
  // ---------------------------------------------------------------------------------------

  /**
   * The `start` property: a leaf's token; the first child's start for Production, Optional,
   * Star (their expression), Assignment, Call, Signature (their identifier) and Definition
   * (its signature). A missing child raises.
   */
  function Start(n: Node): Outcome<Option<Token>>
  {
    match n
    case Production(e, _) => if e.None? then Raises else Start(e.value)
    case Optional(e, _) => if e.None? then Raises else Start(e.value)
    case Star(e) => if e.None? then Raises else Start(e.value)
    case Assignment(i, _) => Start(i)
    case Call(i, _) => Start(i)
    case Signature(i, _) => Start(i)
    case Definition(s, _) => Start(s)
    case Identifier(t) => Value(t)
    case Number(t) => Value(t)
    case _ => Unshown
  }

  /**
   * The `end` property: a leaf's token; for Production and Optional the output's end when
   * the output is present and true, else the expression's; the expression's end for
   * Assignment and Star; the annotation's for Signature, the productions' for Definition;
   * for Call the last parameter's end when the parameters are a non-empty Sequence, the
   * identifier's when they are empty.
   */
  function End(n: Node): Outcome<Option<Token>>
  {
    match n
    case Production(e, o) =>
      if o.Some? && Truthy(o.value) then End(o.value) else if e.None? then Raises else End(e.value)
    case Optional(e, o) =>
      if o.Some? && Truthy(o.value) then End(o.value) else if e.None? then Raises else End(e.value)
    case Assignment(_, e) => if e.None? then Raises else End(e.value)
    case Star(e) => if e.None? then Raises else End(e.value)
    case Signature(_, a) => End(a)
    case Definition(_, p) => End(p)
    case Call(i, p) =>
      if !Truthy(p) then End(i)
      else if !p.Sequence? then Unshown
      else if Last(p.elements).None? then Raises
      else End(Last(p.elements).value)
    case Identifier(t) => Value(t)
    case Number(t) => Value(t)
    case _ => Unshown
  }

  /** The tokens of a tree's leaves, left to right. */
  function Leaves(n: Node): seq<Option<Token>>
    decreases n, 1
  {
    match n
    case Alternation(xs) => LeavesFrom(n, xs, 0)
    case Annotation(e) => Sub(n, e)
    case Assignment(i, e) => Leaves(i) + Sub(n, e)
    case Call(i, p) => Leaves(i) + Leaves(p)
    case Concatenation(xs) => LeavesFrom(n, xs, 0)
    case Definition(s, p) => Leaves(s) + Leaves(p)
    case Error => []
    case Identifier(t) => [t]
    case Number(t) => [t]
    case Optional(e, o) => Sub(n, e) + Sub(n, o)
    case Output(e) => Sub(n, e)
    case Parenthetical(e, o) => Sub(n, e) + Sub(n, o)
    case Plus(e) => Sub(n, e)
    case Production(e, o) => Sub(n, e) + Sub(n, o)
    case Pseudo => []
    case Root(_, d) => Leaves(d)
    case Sequence(xs) => LeavesFrom(n, xs, 0)
    case Signature(i, a) => Leaves(i) + Leaves(a)
    case Star(e) => Sub(n, e)
    case String(t) => [t]
  }

  /** The leaves of a possibly missing child of `n`. */
  function Sub(n: Node, o: Option<Node>): seq<Option<Token>>
    requires o.Some? ==> o.value < n
    decreases n, 0, 0
  {
    if o.None? then [] else Leaves(o.value)
  }

  /** The leaves of the children `xs[i..]` of `n`. */
  function LeavesFrom(n: Node, xs: seq<Option<Node>>, i: nat): seq<Option<Token>>
    requires i <= |xs| && forall k :: 0 <= k < |xs| && xs[k].Some? ==> xs[k].value < n
    decreases n, 0, |xs| - i
  {
    if i == |xs| then [] else Sub(n, xs[i]) + LeavesFrom(n, xs, i + 1)
  }

  /** The last child's leaves end the leaves of all children, when it has any. */
  lemma {:induction false} LeavesFromEndsWithLast(n: Node, xs: seq<Option<Node>>, i: nat)
    requires i < |xs| && forall k :: 0 <= k < |xs| && xs[k].Some? ==> xs[k].value < n
    requires |Sub(n, Last(xs))| > 0
    ensures |LeavesFrom(n, xs, i)| > 0 && Last(LeavesFrom(n, xs, i)) == Last(Sub(n, Last(xs)))
    decreases |xs| - i
  {
    if i < |xs| - 1 {
      LeavesFromEndsWithLast(n, xs, i + 1);
    } else {
      assert LeavesFrom(n, xs, i) == Sub(n, xs[i]) + [];
    }
  }

  /** `start`, when it gives a token, gives the first leaf of the tree. */
  lemma {:induction false} StartIsFirstLeaf(n: Node)
    ensures Start(n).Value? ==> |Leaves(n)| > 0 && Leaves(n)[0] == Start(n).value
  {
    match n
    case Production(e, o) =>
      if e.Some? { StartIsFirstLeaf(e.value); }
    case Optional(e, o) =>
      if e.Some? { StartIsFirstLeaf(e.value); }
    case Star(e) =>
      if e.Some? { StartIsFirstLeaf(e.value); }
    case Assignment(i, _) => StartIsFirstLeaf(i);
    case Call(i, _) => StartIsFirstLeaf(i);
    case Signature(i, _) => StartIsFirstLeaf(i);
    case Definition(s, _) => StartIsFirstLeaf(s);
    case _ =>
  }

  /** `end`, when it gives a token, gives the last leaf of the tree. */
  lemma {:induction false} EndIsLastLeaf(n: Node)
    ensures End(n).Value? ==> |Leaves(n)| > 0 && Last(Leaves(n)) == End(n).value
    decreases n, 1
  {
    match n
    case Production(_, _) => EndOfOutputNode(n);
    case Optional(_, _) => EndOfOutputNode(n);
    case Assignment(_, e) =>
      if e.Some? { EndIsLastLeaf(e.value); }
    case Star(e) =>
      if e.Some? { EndIsLastLeaf(e.value); }
    case Signature(_, a) => EndIsLastLeaf(a);
    case Definition(_, p) => EndIsLastLeaf(p);
    case Call(_, _) => EndOfCall(n);
    case _ =>
  }

  /** A production or an optional ends with its output when that is true, else with its expression. */
  lemma {:induction false} EndOfOutputNode(n: Node)
    requires n.Production? || n.Optional?
    ensures End(n).Value? ==> |Leaves(n)| > 0 && Last(Leaves(n)) == End(n).value
    decreases n, 0
  {
    var e, o := n.expression, n.output;
    if o.Some? && Truthy(o.value) {
      EndIsLastLeaf(o.value);
    } else if e.Some? {
      EndIsLastLeaf(e.value);
      if o.Some? {
        assert Leaves(o.value) == [];
      }
    }
  }

  /** A call ends with its last argument, or with its identifier when it has none. */
  lemma {:induction false} EndOfCall(n: Node)
    requires n.Call?
    ensures End(n).Value? ==> |Leaves(n)| > 0 && Last(Leaves(n)) == End(n).value
    decreases n, 0
  {
    var i, p := n.identifier, n.parameters;
    if !Truthy(p) {
      EndIsLastLeaf(i);
      assert Leaves(p) == [];
    } else if p.Sequence? && Last(p.elements).Some? {
      EndIsLastLeaf(Last(p.elements).value);
      if End(n).Value? {
        LeavesFromEndsWithLast(p, p.elements, 0);
      }
    }
  }

  // ---------------------------------------------------------------------------------------
  // String forms
  // ---------------------------------------------------------------------------------------

  /** `node.token.literal`: the leaves have a token, which may be missing. */
  function TokenLiteral(n: Node): Outcome<Text>
  {
    if n.Identifier? || n.Number? || n.String? then
      if n.token.None? then Raises else Value(n.token.value.literal)
    else if n.Production? || n.Optional? || n.Assignment? || n.Call? || n.Definition? || n.Signature? || n.Star? then
      Raises
    else Unshown
  }

  /** `node.identifier`: Assignment, Call and Signature have one. */
  function IdentifierOf(n: Node): Outcome<Node>
  {
    if n.Assignment? || n.Call? || n.Signature? then Value(n.identifier)
    else if n.Production? || n.Optional? || n.Definition? || n.Star? || n.Identifier? || n.Number? then Raises
    else Unshown
  }

  /** `Kind('text')`. */
  function Quoted(kind: string, text: Text): Text
  {
    Chars(kind) + Chars("('") + text + Chars("')")
  }

  /**
   * `stringify()`/`__repr__()`: Production and Optional name the classes of their children
   * (Optional names the output only when it is true), Star the class of its expression;
   * Assignment, Call, Signature and Definition quote an identifier's literal; the leaves
   * quote their own.
   */
  function Repr(n: Node): Outcome<Text>
  {
    match n
    case Production(e, o) =>
      Value(Chars("Production('") + NameOf(e) + Chars("', '") + NameOf(o) + Chars("')"))
    case Optional(e, o) =>
      if o.Some? && Truthy(o.value) then
        Value(Chars("Optional('") + NameOf(e) + Chars("', '") + NameOf(o) + Chars("')"))
      else Value(Quoted("Optional", NameOf(e)))
    case Assignment(i, e) =>
      var l := TokenLiteral(i);
      if l.Value? then Value(Chars("Assignment(") + Quoted("Identifier", l.value) + Chars(", '") + NameOf(e) + Chars("')"))
      else l
    case Call(i, _) =>
      var l := TokenLiteral(i);
      if l.Value? then Value(Quoted("Call", l.value)) else l
    case Signature(i, _) =>
      var l := TokenLiteral(i);
      if l.Value? then Value(Quoted("Signature", l.value)) else l
    case Definition(s, _) =>
      var i := IdentifierOf(s);
      if i.Raises? then Raises
      else if i.Unshown? then Unshown
      else
        var l := TokenLiteral(i.value);
        if l.Value? then Value(Quoted("Definition", l.value)) else l
    case Star(e) => Value(Quoted("Star", NameOf(e)))
    case Identifier(t) => if t.None? then Raises else Value(Quoted("Identifier", t.value.literal))
    case Number(t) => if t.None? then Raises else Value(Quoted("Number", t.value.literal))
    case _ => Unshown
  }

  /** A string form that opens with `prefix` and closes with `')`. */
  predicate Enclosed(r: Text, prefix: Text)
  {
    |r| >= |prefix| + 2 && r[..|prefix|] == prefix && r[|r| - 2..] == Chars("')")
  }

  /** Any text between a prefix and `')` is enclosed by them. */
  lemma Encloses(prefix: Text, middle: Text)
    ensures Enclosed(prefix + middle + Chars("')"), prefix)
  {
    var r := prefix + middle + Chars("')");
    assert r[..|prefix|] == prefix;
    assert r[|r| - 2..] == Chars("')");
  }

  /** Text that begins with the kind's name and `(` and ends with `')`, as `Quoted` builds it. */
  lemma QuotedIsEnclosed(kind: string, text: Text)
    ensures Enclosed(Quoted(kind, text), Chars(kind) + Chars("("))
  {
    Encloses(Chars(kind) + Chars("("), [0x27] + text);
    assert Quoted(kind, text) == Chars(kind) + Chars("(") + ([0x27] + text) + Chars("')");
  }

  /** The codepoints of two strings one after the other. */
  lemma CharsAppend(a: string, b: string)
    ensures Chars(a + b) == Chars(a) + Chars(b)
  {
    var l, r := Chars(a + b), Chars(a) + Chars(b);
    forall k | 0 <= k < |a| + |b|
      ensures l[k] == r[k]
    {
      if k < |a| {
        assert (a + b)[k] == a[k];
      } else {
        assert (a + b)[k] == b[k - |a|];
      }
    }
  }

  /** `Kind('a', 'b')`, as Production and Optional spell it. */
  lemma PairIsEnclosed(opening: string, kind: string, a: Text, b: Text)
    requires opening == kind + "('"
    ensures Enclosed(Chars(opening) + a + Chars("', '") + b + Chars("')"), Chars(kind) + Chars("("))
  {
    CharsAppend(kind, "('");
    CharsAppend("(", "'");
    Encloses(Chars(kind) + Chars("("), Chars("'") + a + Chars("', '") + b);
    assert Chars(kind + "('") + a + Chars("', '") + b + Chars("')") ==
      Chars(kind) + Chars("(") + (Chars("'") + a + Chars("', '") + b) + Chars("')");
  }

  /** `Assignment(Identifier('l'), 'e')`. */
  lemma AssignmentIsEnclosed(l: Text, e: Text)
    ensures Enclosed(Chars("Assignment(") + Quoted("Identifier", l) + Chars(", '") + e + Chars("')"),
      Chars("Assignment") + Chars("("))
  {
    assert Chars("Assignment(") == Chars("Assignment") + Chars("(");
    Encloses(Chars("Assignment") + Chars("("), Quoted("Identifier", l) + Chars(", '") + e);
    assert Chars("Assignment(") + Quoted("Identifier", l) + Chars(", '") + e + Chars("')") ==
      Chars("Assignment") + Chars("(") + (Quoted("Identifier", l) + Chars(", '") + e) + Chars("')");
  }

  /**
   * Every string form the shown classes give begins with the node's own class name and `(`,
   * and ends with `')`.
   */
  lemma ReprNamesClass(n: Node)
    requires Repr(n).Value?
    ensures Enclosed(Repr(n).value, ClassName(n) + Chars("("))
  {
    match n
    case Production(e, o) => PairIsEnclosed("Production('", "Production", NameOf(e), NameOf(o));
    case Optional(e, o) =>
      if o.Some? && Truthy(o.value) {
        PairIsEnclosed("Optional('", "Optional", NameOf(e), NameOf(o));
      } else {
        QuotedIsEnclosed("Optional", NameOf(e));
      }
    case Assignment(i, e) => AssignmentIsEnclosed(TokenLiteral(i).value, NameOf(e));
    case Call(i, _) => QuotedIsEnclosed("Call", TokenLiteral(i).value);
    case Signature(i, _) => QuotedIsEnclosed("Signature", TokenLiteral(i).value);
    case Definition(s, _) => QuotedIsEnclosed("Definition", TokenLiteral(IdentifierOf(s).value).value);
    case Star(e) => QuotedIsEnclosed("Star", NameOf(e));
    case Identifier(t) => QuotedIsEnclosed("Identifier", t.value.literal);
    case Number(t) => QuotedIsEnclosed("Number", t.value.literal);
  }
}
