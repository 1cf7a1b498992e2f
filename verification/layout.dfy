/**
 * The layout the dump promises: a node dumped at level `k` opens on the
 * current line, and every further line of its text begins with at least
 * `indent(k)`, that is `2k` spaces. This holds as long as no string printed
 * with `%s` carries a line break of its own.
 */
module Layout {
  import opened Wrappers
  import opened Stdio
  import opened StdMap
  import opened Ast
  import opened Dump

  /** `t` breaks the line at `i` and goes on after it. */
  predicate BreakAt(t: string, i: int)
  {
    0 <= i < |t| - 1 && t[i] == '\n'
  }

  /** Every line of `t` after the first begins with `indent(k)`. */
  ghost predicate LinesAt(t: string, k: int)
  {
    forall i :: BreakAt(t, i) ==> Spaces(k) <= t[i + 1..]
  }

  /** `t` is empty or its first line begins with `indent(k)`. */
  predicate OpensAt(t: string, k: int)
  {
    t == [] || Spaces(k) <= t
  }

  /** What `%s` prints of `s` holds no line break. */
  predicate Flat(s: string)
  {
    '\n' !in CStr(s)
  }

  /** No string in the expression prints a line break. */
  predicate ExprFlat(e: Expr)
    decreases e
  {
    match e
    case Equation(lhs, rhs, op) => Flat(op) && ExprFlat(lhs) && ExprFlat(rhs)
    case ImmediateInt(digits) => Flat(digits)
    case Variable(name) => Flat(name)
    case ImmediateString(text) => Flat(text)
    case DefineVariable(varType, dest, value) => Flat(varType) && Flat(dest) && ExprFlat(value)
    case Assign(dest, value) => Flat(dest) && ExprFlat(value)
    case FunctionCall(name, args) => Flat(name) && ArgsFlat(args)
  }

  predicate ArgsFlat(args: seq<Expr>)
    decreases args
  {
    forall i :: 0 <= i < |args| ==> ExprFlat(args[i])
  }

  /** No parameter name or type prints a line break. */
  predicate ParamsFlat(arguments: map<string, string>)
  {
    forall n :: n in arguments ==> Flat(n) && Flat(arguments[n])
  }

  /** No string in the statement prints a line break. */
  predicate StmtFlat(s: Stmt)
    decreases s
  {
    match s
    case ExprStatement(expr) => ExprFlat(expr)
    case IfStatement(condition, block, elseBlock) =>
      ExprFlat(condition) && BlockFlat(block) && (elseBlock.None? || BlockFlat(elseBlock.value))
    case WhileStatement(condition, block) => ExprFlat(condition) && BlockFlat(block)
    case ReturnStatement(result) => result.None? || ExprFlat(result.value)
    case FunctionDefine(name, returnType, arguments, body) =>
      Flat(name) && Flat(returnType) && ParamsFlat(arguments) && (body.None? || BlockFlat(body.value))
  }

  predicate BlockFlat(b: Block)
    decreases b
  {
    forall i :: 0 <= i < |b.statements| ==> StmtFlat(b.statements[i])
  }

  // ---------------------------------------------------------------------------
  // Facts about indentation and line structure

  /** A shallower indent is a prefix of a deeper one. */
  lemma {:induction false} SpacesPrefix(j: int, k: int)
    requires j <= k
    ensures Spaces(j) <= Spaces(k)
    decreases k - j
  {
    if j < k && k > 0 {
      SpacesPrefix(j, k - 1);
    }
  }

  /** An indent holds no line break. */
  lemma SpacesFlat(k: int)
    ensures '\n' !in Spaces(k)
  {
  }

  /** A text with no line break has no further line to indent. */
  lemma FlatLines(t: string, k: int)
    requires '\n' !in t
    ensures LinesAt(t, k)
  {
  }

  /** A one-line text ending in its line break has no further line to indent. */
  lemma LineLines(t: string, k: int)
    requires '\n' !in t
    ensures LinesAt(t + "\n", k)
  {
  }

  /** A layout at a deeper level is also one at a shallower level. */
  lemma Weaken(t: string, j: int, k: int)
    requires LinesAt(t, k) && j <= k
    ensures LinesAt(t, j) && (OpensAt(t, k) ==> OpensAt(t, j))
  {
    SpacesPrefix(j, k);
  }

  /**
   * Joining two laid-out texts: only the line `b` may begin right after a
   * line break of `a` needs its own indent.
   */
  lemma Append(a: string, b: string, k: int)
    requires LinesAt(a, k) && LinesAt(b, k)
    requires a != [] && a[|a| - 1] == '\n' ==> OpensAt(b, k)
    ensures LinesAt(a + b, k)
  {
    var t := a + b;
    forall i | BreakAt(t, i)
      ensures Spaces(k) <= t[i + 1..]
    {
      if i < |a| - 1 {
        assert BreakAt(a, i);
        assert t[i + 1..] == a[i + 1..] + b;
      } else if i == |a| - 1 {
        assert t[i + 1..] == b;
      } else {
        assert BreakAt(b, i - |a|);
        assert t[i + 1..] == b[i - |a| + 1..];
      }
    }
  }

  /** A laid-out text written after `indent(j)` opens at every level up to `j`. */
  lemma IndentedLines(j: int, s: string, k: int)
    requires LinesAt(s, k) && k <= j
    ensures LinesAt(Indented(j, s), k) && OpensAt(Indented(j, s), k)
  {
    SpacesFlat(j);
    SpacesPrefix(k, j);
    Append(Spaces(j), s, k);
  }

  /** Appending a text written after `indent(j)`, `j >= k`, keeps the layout. */
  lemma AppendIndented(a: string, j: int, s: string, k: int)
    requires LinesAt(a, k) && LinesAt(s, k) && k <= j
    ensures LinesAt(a + Indented(j, s), k)
  {
    IndentedLines(j, s, k);
    Append(a, Indented(j, s), k);
  }

  /** Appending a laid-out text right after a label on the same line keeps the layout. */
  lemma AppendInline(a: string, b: string, k: int)
    requires LinesAt(a, k) && LinesAt(b, k)
    requires a != [] && a[|a| - 1] != '\n'
    ensures LinesAt(a + b, k)
  {
    Append(a, b, k);
  }

  /** A header line: fixed text and printed strings, then the line break. */
  lemma HeaderLines(opening: string, s: string, k: int)
    requires '\n' !in opening && '\n' !in s
    ensures LinesAt(opening + s + "\n", k)
  {
  }

  /** A text that is one line and its line break. */
  lemma OneLine(s: string, line: string, k: int)
    requires '\n' !in line && s == line + "\n"
    ensures LinesAt(s, k)
  {
  }

  /** A labelled child: `indent(j)`, a one-line label, and the child's text on the label's line. */
  lemma LabelledLines(a: string, j: int, tag: string, x: string, k: int)
    requires LinesAt(a, k) && LinesAt(x, k) && k <= j
    requires tag != [] && '\n' !in tag
    ensures LinesAt(a + Indented(j, tag) + x, k)
  {
    FlatLines(tag, k);
    AppendIndented(a, j, tag, k);
    AppendInline(a + Indented(j, tag), x, k);
  }

  /** A line `indent(j) + s` written after `a`, `s` being `line` and its line break. */
  lemma ClosingLines(a: string, j: int, line: string, s: string, k: int)
    requires LinesAt(a, k) && k <= j
    requires '\n' !in line && s == line + "\n"
    ensures LinesAt(a + Indented(j, s), k)
  {
    LineLines(line, k);
    AppendIndented(a, j, s, k);
  }

  // ---------------------------------------------------------------------------
  // The shape of each node's text, over the texts of its children

  /** A node closed by `indent(k) + ")\n"` after one labelled child on a line of its own. */
  lemma ChildShape(head: string, tag: string, x: string, k: int)
    requires LinesAt(head, k) && LinesAt(x, k)
    requires tag != [] && '\n' !in tag
    ensures LinesAt(head + Indented(k + 1, tag) + x + Indented(k, ")\n"), k)
  {
    LabelledLines(head, k + 1, tag, x, k);
    ClosingLines(head + Indented(k + 1, tag) + x, k, ")", ")\n", k);
  }

  lemma EquationShape(op: string, lhs: string, rhs: string, k: int)
    requires '\n' !in op && LinesAt(lhs, k) && LinesAt(rhs, k)
    ensures LinesAt("Equation(operator: " + op + "\n"
      + Indented(k + 1, "lhs: ") + lhs
      + Indented(k + 1, "rhs: ") + rhs
      + Indented(k, ")\n"), k)
  {
    var t0 := "Equation(operator: " + op + "\n";
    HeaderLines("Equation(operator: ", op, k);
    LabelledLines(t0, k + 1, "lhs: ", lhs, k);
    ChildShape(t0 + Indented(k + 1, "lhs: ") + lhs, "rhs: ", rhs, k);
  }

  /** A bracketed list `args: [` ... `]` one level deeper than the node that holds it. */
  lemma ListFieldShape(head: string, items: string, k: int)
    requires LinesAt(head, k) && LinesAt(items, k) && OpensAt(items, k)
    ensures LinesAt(head + Indented(k + 1, "args: [\n") + items + Indented(k + 1, "]\n"), k)
  {
    ClosingLines(head, k + 1, "args: [", "args: [\n", k);
    var t := head + Indented(k + 1, "args: [\n");
    Append(t, items, k);
    ClosingLines(t + items, k + 1, "]", "]\n", k);
  }

  lemma CallShape(name: string, args: string, k: int)
    requires '\n' !in name && LinesAt(args, k) && OpensAt(args, k)
    ensures LinesAt("FunctionCall(name: " + name + "\n"
      + Indented(k + 1, "args: [\n")
      + args
      + Indented(k + 1, "]\n")
      + Indented(k, ")\n"), k)
  {
    var t0 := "FunctionCall(name: " + name + "\n";
    HeaderLines("FunctionCall(name: ", name, k);
    ListFieldShape(t0, args, k);
    ClosingLines(t0 + Indented(k + 1, "args: [\n") + args + Indented(k + 1, "]\n"), k, ")", ")\n", k);
  }

  /** `opening` and one child on the same line, as the `If` and `While` conditions are written. */
  lemma InlineShape(opening: string, x: string, k: int)
    requires opening != [] && '\n' !in opening && LinesAt(x, k)
    ensures LinesAt(opening + x, k)
  {
    FlatLines(opening, k);
    AppendInline(opening, x, k);
  }

  lemma IfShape(condition: string, yes: string, no: string, k: int)
    requires LinesAt(condition, k) && LinesAt(yes, k) && LinesAt(no, k)
    ensures LinesAt("If(condition: " + condition
      + Indented(k + 1, "true: ") + yes
      + Indented(k + 1, "false: ") + no
      + Indented(k, ")\n"), k)
  {
    InlineShape("If(condition: ", condition, k);
    LabelledLines("If(condition: " + condition, k + 1, "true: ", yes, k);
    ChildShape("If(condition: " + condition + Indented(k + 1, "true: ") + yes, "false: ", no, k);
  }

  lemma ReturnShape(x: string, k: int)
    requires LinesAt(x, k)
    ensures LinesAt("Return(expr: " + x + Indented(k, ")\n"), k)
  {
    InlineShape("Return(expr: ", x, k);
    ClosingLines("Return(expr: " + x, k, ")", ")\n", k);
  }

  /** The opening line of a function definition and its name and return type lines. */
  lemma SignatureShape(name: string, returnType: string, k: int)
    requires '\n' !in name && '\n' !in returnType
    ensures LinesAt("FunctionDef(\n"
      + Indented(k + 1, "name: " + name + "\n")
      + Indented(k + 1, "retType: " + returnType + "\n"), k)
  {
    var t0 := "FunctionDef(\n";
    OneLine(t0, "FunctionDef(", k);
    ClosingLines(t0, k + 1, "name: " + name, "name: " + name + "\n", k);
    var t1 := t0 + Indented(k + 1, "name: " + name + "\n");
    ClosingLines(t1, k + 1, "retType: " + returnType, "retType: " + returnType + "\n", k);
  }

  lemma FunctionHeadShape(name: string, returnType: string, params: string, k: int)
    requires '\n' !in name && '\n' !in returnType
    requires LinesAt(params, k) && OpensAt(params, k)
    ensures LinesAt("FunctionDef(\n"
      + Indented(k + 1, "name: " + name + "\n")
      + Indented(k + 1, "retType: " + returnType + "\n")
      + Indented(k + 1, "args: [\n")
      + params
      + Indented(k + 1, "]\n"), k)
  {
    var t2 := "FunctionDef(\n"
      + Indented(k + 1, "name: " + name + "\n")
      + Indented(k + 1, "retType: " + returnType + "\n");
    SignatureShape(name, returnType, k);
    ListFieldShape(t2, params, k);
  }

  /** A one-line text: `opening`, a printed string, and a closing that holds the only line break, at its end. */
  lemma LeafShape(opening: string, s: string, closing: string, k: int)
    requires '\n' !in opening && '\n' !in s
    requires closing != [] && closing[|closing| - 1] == '\n' && '\n' !in closing[..|closing| - 1]
    ensures LinesAt(opening + s + closing, k)
    ensures var t := opening + s + closing; '\n' !in t[..|t| - 1]
  {
    var t := opening + s + closing;
    assert t[..|t| - 1] == opening + s + closing[..|closing| - 1];
  }

  lemma BlockShape(statements: string, k: int)
    requires LinesAt(statements, k) && OpensAt(statements, k)
    ensures LinesAt("Block: [\n" + statements + Indented(k, "]\n"), k)
  {
    OneLine("Block: [\n", "Block: [", k);
    Append("Block: [\n", statements, k);
    ClosingLines("Block: [\n" + statements, k, "]", "]\n", k);
  }

  // ---------------------------------------------------------------------------
  // The layout of each dump

  /** An expression dumped at level `k` keeps every further line at `indent(k)` or deeper. */
  lemma {:induction false} ExprLines(e: Expr, k: int)
    requires ExprFlat(e)
    ensures LinesAt(ExprText(e, k), k)
    decreases e, 1
  {
    match e
    case Equation(_, _, _) => EquationLines(e, k);
    case ImmediateInt(_) => LeafLines(e, k);
    case Variable(_) => LeafLines(e, k);
    case ImmediateString(_) => LeafLines(e, k);
    case DefineVariable(_, _, _) => DefineVariableLines(e, k);
    case Assign(_, _) => AssignLines(e, k);
    case FunctionCall(_, _) => FunctionCallLines(e, k);
  }

  lemma {:induction false} EquationLines(e: Expr, k: int)
    requires e.Equation? && ExprFlat(e)
    ensures LinesAt(EquationText(e, k), k)
    decreases e, 0
  {
    var Equation(lhs, rhs, op) := e;
    ChildLines(lhs, k);
    ChildLines(rhs, k);
    EquationShape(CStr(op), ExprText(lhs, k + 1), ExprText(rhs, k + 1), k);
  }

  lemma {:induction false} DefineVariableLines(e: Expr, k: int)
    requires e.DefineVariable? && ExprFlat(e)
    ensures LinesAt(DefineVariableText(e, k), k)
    decreases e, 0
  {
    var DefineVariable(varType, dest, value) := e;
    var head := "DefineVariable(type: " + CStr(varType) + ", dest: " + CStr(dest) + "\n";
    HeaderLines("DefineVariable(type: " + CStr(varType) + ", dest: ", CStr(dest), k);
    ChildLines(value, k);
    ChildShape(head, "value: ", ExprText(value, k + 1), k);
  }

  lemma {:induction false} AssignLines(e: Expr, k: int)
    requires e.Assign? && ExprFlat(e)
    ensures LinesAt(AssignText(e, k), k)
    decreases e, 0
  {
    var Assign(dest, value) := e;
    HeaderLines("Assign(dest: ", CStr(dest), k);
    ChildLines(value, k);
    ChildShape("Assign(dest: " + CStr(dest) + "\n", "value: ", ExprText(value, k + 1), k);
  }

  lemma {:induction false} FunctionCallLines(e: Expr, k: int)
    requires e.FunctionCall? && ExprFlat(e)
    ensures LinesAt(FunctionCallText(e, k), k)
    decreases e, 0
  {
    var FunctionCall(name, args) := e;
    ArgsLines(args, k + 2, k);
    CallShape(CStr(name), ArgsText(args, k + 2), k);
  }

  /** A leaf is a single line: its only line break is the last character. */
  lemma LeafLines(e: Expr, k: int)
    requires (e.ImmediateInt? || e.Variable? || e.ImmediateString?) && ExprFlat(e)
    ensures LinesAt(ExprText(e, k), k)
    ensures '\n' !in ExprText(e, k)[..|ExprText(e, k)| - 1]
  {
    assert '\n' !in ")\n"[..1];
    assert '\n' !in "\")\n"[..2];
    match e
    case ImmediateInt(digits) => LeafShape("ImmediateInt(value: ", CStr(digits), ")\n", k);
    case Variable(name) => LeafShape("Variable(name: ", CStr(name), ")\n", k);
    case ImmediateString(text) => LeafShape("ImmediateString(value: \"", CStr(text), "\")\n", k);
  }

  /** The layout of a child dumped one level deeper. */
  lemma {:induction false} ChildLines(e: Expr, k: int)
    requires ExprFlat(e)
    ensures LinesAt(ExprText(e, k + 1), k)
    decreases e, 2
  {
    ExprLines(e, k + 1);
    Weaken(ExprText(e, k + 1), k, k + 1);
  }

  /** Call arguments listed at level `j` open and continue at every level up to `j`. */
  lemma {:induction false} ArgsLines(args: seq<Expr>, j: int, k: int)
    requires ArgsFlat(args) && k <= j
    ensures LinesAt(ArgsText(args, j), k) && OpensAt(ArgsText(args, j), k)
    decreases args
  {
    if args != [] {
      var init := args[..|args| - 1];
      var last := args[|args| - 1];
      assert forall i :: 0 <= i < |init| ==> init[i] == args[i];
      ArgsLines(init, j, k);
      ExprLines(last, j);
      Weaken(ExprText(last, j), k, j);
      ListShape(ArgsText(init, j), j, ExprText(last, j), k);
    }
  }

  /** One more element, written after `indent(j)`, keeps a list's layout. */
  lemma ListShape(init: string, j: int, x: string, k: int)
    requires LinesAt(init, k) && OpensAt(init, k) && LinesAt(x, k) && k <= j
    ensures LinesAt(init + Indented(j, x), k) && OpensAt(init + Indented(j, x), k)
  {
    AppendIndented(init, j, x, k);
    IndentedLines(j, x, k);
  }

  /** The statements of a block listed at level `j` open and continue at every level up to `j`. */
  lemma {:induction false} StmtsLines(ss: seq<Stmt>, j: int, k: int)
    requires forall i :: 0 <= i < |ss| ==> Dumpable(ss[i]) && StmtFlat(ss[i])
    requires k <= j
    ensures LinesAt(StmtsText(ss, j), k) && OpensAt(StmtsText(ss, j), k)
    decreases ss
  {
    if ss != [] {
      var init := ss[..|ss| - 1];
      var last := ss[|ss| - 1];
      assert forall i :: 0 <= i < |init| ==> init[i] == ss[i];
      StmtsLines(init, j, k);
      StmtLines(last, j);
      Weaken(StmtText(last, j), k, j);
      ListShape(StmtsText(init, j), j, StmtText(last, j), k);
    }
  }

  /** A block dumped at level `k` keeps every further line at `indent(k)` or deeper. */
  lemma {:induction false} BlockLines(b: Block, k: int)
    requires BlockDumpable(b) && BlockFlat(b)
    ensures LinesAt(BlockText(b, k), k)
    decreases b, 2
  {
    StmtsLines(b.statements, k + 1, k);
    BlockShape(StmtsText(b.statements, k + 1), k);
  }

  /** The layout of a block dumped one level deeper. */
  lemma {:induction false} ChildBlockLines(b: Block, k: int)
    requires BlockDumpable(b) && BlockFlat(b)
    ensures LinesAt(BlockText(b, k + 1), k)
    decreases b, 3
  {
    BlockLines(b, k + 1);
    Weaken(BlockText(b, k + 1), k, k + 1);
  }

  /** A statement dumped at level `k` keeps every further line at `indent(k)` or deeper. */
  lemma {:induction false} StmtLines(s: Stmt, k: int)
    requires Dumpable(s) && StmtFlat(s)
    ensures LinesAt(StmtText(s, k), k)
    decreases s, 1
  {
    match s
    case ExprStatement(expr) => ExprLines(expr, k);
    case IfStatement(_, _, _) => IfLines(s, k);
    case WhileStatement(_, _) => WhileLines(s, k);
    case ReturnStatement(_) => ReturnLines(s, k);
    case FunctionDefine(_, _, _, _) => FunctionDefineLines(s, k);
  }

  lemma {:induction false} IfLines(s: Stmt, k: int)
    requires s.IfStatement? && Dumpable(s) && StmtFlat(s)
    ensures LinesAt(IfText(s, k), k)
    decreases s, 0
  {
    var IfStatement(condition, block, elseBlock) := s;
    ChildLines(condition, k);
    ChildBlockLines(block, k);
    ChildBlockLines(elseBlock.value, k);
    IfShape(ExprText(condition, k + 1), BlockText(block, k + 1), BlockText(elseBlock.value, k + 1), k);
  }

  lemma {:induction false} WhileLines(s: Stmt, k: int)
    requires s.WhileStatement? && Dumpable(s) && StmtFlat(s)
    ensures LinesAt(WhileText(s, k), k)
    decreases s, 0
  {
    var WhileStatement(condition, block) := s;
    ChildLines(condition, k);
    ChildBlockLines(block, k);
    InlineShape("While(condition: ", ExprText(condition, k + 1), k);
    ChildShape("While(condition: " + ExprText(condition, k + 1), "block: ", BlockText(block, k + 1), k);
  }

  lemma {:induction false} ReturnLines(s: Stmt, k: int)
    requires s.ReturnStatement? && StmtFlat(s)
    ensures LinesAt(ReturnText(s, k), k)
    decreases s, 0
  {
    match s.result
    case None =>
      FlatLines("(void return)", k);
      ReturnShape("(void return)", k);
    case Some(e) =>
      ChildLines(e, k);
      ReturnShape(ExprText(e, k + 1), k);
  }

  /** The parameter lines for `names` at level `j` open and continue at every level up to `j`. */
  lemma {:induction false} ParamLines(arguments: map<string, string>, names: seq<string>, j: int, k: int)
    requires forall n :: n in names ==> n in arguments
    requires ParamsFlat(arguments) && k <= j
    ensures LinesAt(ArgLines(arguments, names, j), k) && OpensAt(ArgLines(arguments, names, j), k)
    decreases names
  {
    if names != [] {
      var n := names[0];
      var head := "Arg(type: " + CStr(arguments[n]) + ", name: " + CStr(n);
      assert head + ")\n" == head + ")" + "\n" by {
        Concat(head, ")", "\n");
      }
      OneLine(head + ")\n", head + ")", k);
      IndentedLines(j, head + ")\n", k);
      ParamLines(arguments, names[1..], j, k);
      Append(ArgLine(arguments, n, j), ArgLines(arguments, names[1..], j), k);
    }
  }

  lemma {:induction false} FunctionDefineLines(s: Stmt, k: int)
    requires s.FunctionDefine? && Dumpable(s) && StmtFlat(s)
    ensures LinesAt(FunctionDefineText(s, k), k)
    decreases s, 0
  {
    var FunctionDefine(name, returnType, arguments, body) := s;
    var params := ArgLines(arguments, SortedKeys(arguments.Keys), k + 2);
    ParamLines(arguments, SortedKeys(arguments.Keys), k + 2, k);
    FunctionHeadShape(CStr(name), CStr(returnType), params, k);
    var head := "FunctionDef(\n"
      + Indented(k + 1, "name: " + CStr(name) + "\n")
      + Indented(k + 1, "retType: " + CStr(returnType) + "\n")
      + Indented(k + 1, "args: [\n")
      + params
      + Indented(k + 1, "]\n");
    match body {
      case None =>
        OneLine("\n", [], k);
        ChildShape(head, "statements: ", "\n", k);
      case Some(b) =>
        ChildBlockLines(b, k);
        ChildShape(head, "statements: ", BlockText(b, k + 1), k);
    }
  }

  /**
   * The whole dump: a program dumped at level `k` keeps every line after
   * its first at `indent(k)` or deeper.
   */
  lemma {:induction false} ProgramLines(p: Program, k: int)
    requires BlockDumpable(p.block) && BlockFlat(p.block)
    ensures LinesAt(ProgramText(p, k), k)
  {
    OneLine("Program(\n", "Program(", k);
    ChildBlockLines(p.block, k);
    ChildShape("Program(\n", "block: ", BlockText(p.block, k + 1), k);
  }
}
