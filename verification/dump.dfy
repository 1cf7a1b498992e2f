/**
 * The indented text dump of the syntax tree (parser/ast.cpp).
 *
 * Each `dump(indentcount, fp)` of the source is a method here that writes to a
 * `Stream`, and is proved to write exactly the text a pure function of the
 * node and the indent count gives. A child printed at a deeper level gets
 * `indentcount + 1` (list elements `indentcount + 2`); a leaf ignores the count.
 */
module Dump {
  import opened Wrappers
  import opened Stdio
  import opened StdMap
  import opened Ast

  /** `indent(count, fp)` followed by writing `s`. */
  function Indented(count: int, s: string): string
  {
    Spaces(count) + s
  }

  /** The class name an expression's dump opens with. */
  function ExprName(e: Expr): string
  {
    match e
    case Equation(_, _, _) => "Equation"
    case ImmediateInt(_) => "ImmediateInt"
    case Variable(_) => "Variable"
    case ImmediateString(_) => "ImmediateString"
    case DefineVariable(_, _, _) => "DefineVariable"
    case Assign(_, _) => "Assign"
    case FunctionCall(_, _) => "FunctionCall"
  }

  /**
   * The source dereferences `IfStatementAST::elseBlock` without a null check,
   * so only a tree in which every `if` has an else block can be dumped.
   */
  predicate Dumpable(s: Stmt)
    decreases s
  {
    match s
    case ExprStatement(_) => true
    case IfStatement(_, block, elseBlock) =>
      BlockDumpable(block) && elseBlock.Some? && BlockDumpable(elseBlock.value)
    case WhileStatement(_, block) => BlockDumpable(block)
    case ReturnStatement(_) => true
    case FunctionDefine(_, _, _, body) => body.None? || BlockDumpable(body.value)
  }

  predicate BlockDumpable(b: Block)
    decreases b
  {
    forall i :: 0 <= i < |b.statements| ==> Dumpable(b.statements[i])
  }

  /** The text `e.dump(k, fp)` writes: the virtual call picks the node's own `dump`. */
  ghost function ExprText(e: Expr, k: int): (r: string)
    ensures |r| > 0 && r[0] == ExprName(e)[0] && r[|r| - 1] == '\n'
    decreases e, 1
  {
    match e
    case Equation(_, _, _) => EquationText(e, k)
    case ImmediateInt(digits) => "ImmediateInt(value: " + CStr(digits) + ")\n"
    case Variable(name) => "Variable(name: " + CStr(name) + ")\n"
    case ImmediateString(text) => "ImmediateString(value: \"" + CStr(text) + "\")\n"
    case DefineVariable(_, _, _) => DefineVariableText(e, k)
    case Assign(_, _) => AssignText(e, k)
    case FunctionCall(_, _) => FunctionCallText(e, k)
  }

  /** What `EquationAST::dump` writes: the operator, then the left and the right operand one level deeper. */
  ghost function EquationText(e: Expr, k: int): (r: string)
    requires e.Equation?
    ensures |r| > 0 && r[0] == 'E' && r[|r| - 1] == '\n'
    decreases e, 0
  {
    "Equation(operator: " + CStr(e.op) + "\n"
    + Indented(k + 1, "lhs: ") + ExprText(e.lhs, k + 1)
    + Indented(k + 1, "rhs: ") + ExprText(e.rhs, k + 1)
    + Indented(k, ")\n")
  }

  /** What `DefineVariableAST::dump` writes. */
  ghost function DefineVariableText(e: Expr, k: int): (r: string)
    requires e.DefineVariable?
    ensures |r| > 0 && r[0] == 'D' && r[|r| - 1] == '\n'
    decreases e, 0
  {
    "DefineVariable(type: " + CStr(e.varType) + ", dest: " + CStr(e.dest) + "\n"
    + Indented(k + 1, "value: ") + ExprText(e.value, k + 1)
    + Indented(k, ")\n")
  }

  /** What `AssignAST::dump` writes. */
  ghost function AssignText(e: Expr, k: int): (r: string)
    requires e.Assign?
    ensures |r| > 0 && r[0] == 'A' && r[|r| - 1] == '\n'
    decreases e, 0
  {
    "Assign(dest: " + CStr(e.dest) + "\n"
    + Indented(k + 1, "value: ") + ExprText(e.value, k + 1)
    + Indented(k, ")\n")
  }

  /** What `FunctionCallAST::dump` writes: the arguments, in order, two levels deeper. */
  ghost function FunctionCallText(e: Expr, k: int): (r: string)
    requires e.FunctionCall?
    ensures |r| > 0 && r[0] == 'F' && r[|r| - 1] == '\n'
    decreases e, 0
  {
    "FunctionCall(name: " + CStr(e.name) + "\n"
    + Indented(k + 1, "args: [\n")
    + ArgsText(e.args, k + 2)
    + Indented(k + 1, "]\n")
    + Indented(k, ")\n")
  }

  /** The call arguments in order, each indented to level `k` and dumped at `k`. */
  ghost function ArgsText(args: seq<Expr>, k: int): (r: string)
    ensures r == [] <==> args == []
    ensures args != [] ==> Spaces(k) <= r && r[|r| - 1] == '\n'
    decreases args
  {
    if args == [] then []
    else ArgsText(args[..|args| - 1], k) + Indented(k, ExprText(args[|args| - 1], k))
  }

  /** Dumping one more argument of a list appends its indented text. */
  lemma ArgsTextSnoc(args: seq<Expr>, i: int, k: int)
    requires 0 <= i < |args|
    ensures ArgsText(args[..i + 1], k) == ArgsText(args[..i], k) + Indented(k, ExprText(args[i], k))
  {
    assert args[..i + 1][..i] == args[..i];
  }

  /** One parameter line of a function definition. */
  function ArgLine(arguments: map<string, string>, name: string, k: int): (r: string)
    requires name in arguments
    ensures Spaces(k) + "Arg(" <= r && r[|r| - 1] == '\n'
  {
    Indented(k, "Arg(type: " + CStr(arguments[name]) + ", name: " + CStr(name) + ")\n")
  }

  /** The parameter lines for `names`, in that order. */
  function ArgLines(arguments: map<string, string>, names: seq<string>, k: int): (r: string)
    requires forall n :: n in names ==> n in arguments
    ensures r == [] <==> names == []
    ensures names != [] ==> Spaces(k) <= r && r[|r| - 1] == '\n'
  {
    if names == [] then [] else ArgLine(arguments, names[0], k) + ArgLines(arguments, names[1..], k)
  }

  /** A range-for over the map writes the line of its least key first. */
  lemma ArgLinesFirst(arguments: map<string, string>, keys: set<string>, k: int)
    requires keys != {} && keys <= arguments.Keys
    ensures ArgLines(arguments, SortedKeys(keys), k)
         == ArgLine(arguments, Least(keys), k) + ArgLines(arguments, SortedKeys(keys - {Least(keys)}), k)
  {
  }

  /** The text `s.dump(k, fp)` writes: the virtual call picks the node's own `dump`. */
  ghost function StmtText(s: Stmt, k: int): (r: string)
    requires Dumpable(s)
    ensures |r| > 0 && r[|r| - 1] == '\n'
    decreases s, 1
  {
    match s
    case ExprStatement(expr) => ExprText(expr, k)
    case IfStatement(_, _, _) => IfText(s, k)
    case WhileStatement(_, _) => WhileText(s, k)
    case ReturnStatement(_) => ReturnText(s, k)
    case FunctionDefine(_, _, _, _) => FunctionDefineText(s, k)
  }

  /** What `IfStatementAST::dump` writes; it needs the else block. */
  ghost function IfText(s: Stmt, k: int): (r: string)
    requires s.IfStatement? && Dumpable(s)
    ensures |r| > 0 && r[|r| - 1] == '\n'
    decreases s, 0
  {
    "If(condition: " + ExprText(s.condition, k + 1)
    + Indented(k + 1, "true: ") + BlockText(s.block, k + 1)
    + Indented(k + 1, "false: ") + BlockText(s.elseBlock.value, k + 1)
    + Indented(k, ")\n")
  }

  /** What `WhileStatementAST::dump` writes. */
  ghost function WhileText(s: Stmt, k: int): (r: string)
    requires s.WhileStatement? && Dumpable(s)
    ensures |r| > 0 && r[|r| - 1] == '\n'
    decreases s, 0
  {
    "While(condition: " + ExprText(s.condition, k + 1)
    + Indented(k + 1, "block: ") + BlockText(s.block, k + 1)
    + Indented(k, ")\n")
  }

  /** What `ReturnStatementAST::dump` writes. */
  ghost function ReturnText(s: Stmt, k: int): (r: string)
    requires s.ReturnStatement?
    ensures |r| > 0 && r[|r| - 1] == '\n'
    decreases s, 0
  {
    "Return(expr: "
    + (match s.result
       case None => "(void return)"
       case Some(e) => ExprText(e, k + 1))
    + Indented(k, ")\n")
  }

  /** What `FunctionDefineAST::dump` writes. */
  ghost function FunctionDefineText(s: Stmt, k: int): (r: string)
    requires s.FunctionDefine? && Dumpable(s)
    ensures |r| > 0 && r[|r| - 1] == '\n'
    decreases s, 0
  {
    "FunctionDef(\n"
    + Indented(k + 1, "name: " + CStr(s.name) + "\n")
    + Indented(k + 1, "retType: " + CStr(s.returnType) + "\n")
    + Indented(k + 1, "args: [\n")
    + ArgLines(s.arguments, SortedKeys(s.arguments.Keys), k + 2)
    + Indented(k + 1, "]\n")
    + Indented(k + 1, "statements: ")
    + (match s.body
       case None => "\n"
       case Some(b) => BlockText(b, k + 1))
    + Indented(k, ")\n")
  }

  /** The text `b.dump(k, fp)` writes. */
  ghost function BlockText(b: Block, k: int): (r: string)
    requires BlockDumpable(b)
    ensures "Block: [\n" <= r
    ensures |r| >= 11 && r[|r| - 2..] == "]\n"
    decreases b, 2
  {
    "Block: [\n" + StmtsText(b.statements, k + 1) + Indented(k, "]\n")
  }

  /** The statements in order, each indented to level `k` and dumped at `k`. */
  ghost function StmtsText(ss: seq<Stmt>, k: int): (r: string)
    requires forall i :: 0 <= i < |ss| ==> Dumpable(ss[i])
    ensures r == [] <==> ss == []
    ensures ss != [] ==> Spaces(k) <= r && r[|r| - 1] == '\n'
    decreases ss
  {
    if ss == [] then []
    else StmtsText(ss[..|ss| - 1], k) + Indented(k, StmtText(ss[|ss| - 1], k))
  }

  /** Dumping one more statement of a list appends its indented text. */
  lemma StmtsTextSnoc(ss: seq<Stmt>, i: int, k: int)
    requires 0 <= i < |ss| && forall j :: 0 <= j < |ss| ==> Dumpable(ss[j])
    ensures StmtsText(ss[..i + 1], k) == StmtsText(ss[..i], k) + Indented(k, StmtText(ss[i], k))
  {
    assert ss[..i + 1][..i] == ss[..i];
  }

  /** The text `p.dump(k, fp)` writes. */
  ghost function ProgramText(p: Program, k: int): (r: string)
    requires BlockDumpable(p.block)
    ensures "Program(\n" <= r
    ensures r[|r| - 1] == '\n'
  {
    "Program(\n" + Indented(k + 1, "block: ") + BlockText(p.block, k + 1) + Indented(k, ")\n")
  }

  /** `indent(count, fp)` and then a write of `s`. */
  method PutsIndented(count: int, s: string, fp: Stream)
    modifies fp
    ensures fp.text == old(fp.text) + Indented(count, s)
  {
    Indent(count, fp);
    fp.Puts(s);
    Concat(old(fp.text), Spaces(count), s);
  }

  /** The virtual `BaseAST::dump`, dispatched on the node's class. */
  method DumpExpr(e: Expr, k: int, fp: Stream)
    modifies fp
    ensures fp.text == old(fp.text) + ExprText(e, k)
    decreases e, 1
  {
    match e
    case Equation(_, _, _) => DumpEquation(e, k, fp);
    case ImmediateInt(digits) => fp.Puts("ImmediateInt(value: " + CStr(digits) + ")\n");
    case Variable(name) => fp.Puts("Variable(name: " + CStr(name) + ")\n");
    case ImmediateString(text) => fp.Puts("ImmediateString(value: \"" + CStr(text) + "\")\n");
    case DefineVariable(_, _, _) => DumpDefineVariable(e, k, fp);
    case Assign(_, _) => DumpAssign(e, k, fp);
    case FunctionCall(_, _) => DumpFunctionCall(e, k, fp);
  }

  /** `EquationAST::dump`. */
  method DumpEquation(e: Expr, k: int, fp: Stream)
    requires e.Equation?
    modifies fp
    ensures fp.text == old(fp.text) + EquationText(e, k)
    decreases e, 0
  {
    ghost var o := old(fp.text);
    var header := "Equation(operator: " + CStr(e.op) + "\n";
    fp.Puts(header);
    PutsIndented(k + 1, "lhs: ", fp);
    Concat(o, header, Indented(k + 1, "lhs: "));
    ghost var acc := header + Indented(k + 1, "lhs: ");
    DumpExpr(e.lhs, k + 1, fp);
    Concat(o, acc, ExprText(e.lhs, k + 1));
    acc := acc + ExprText(e.lhs, k + 1);
    PutsIndented(k + 1, "rhs: ", fp);
    Concat(o, acc, Indented(k + 1, "rhs: "));
    acc := acc + Indented(k + 1, "rhs: ");
    DumpExpr(e.rhs, k + 1, fp);
    Concat(o, acc, ExprText(e.rhs, k + 1));
    acc := acc + ExprText(e.rhs, k + 1);
    PutsIndented(k, ")\n", fp);
    Concat(o, acc, Indented(k, ")\n"));
  }

  /** `DefineVariableAST::dump`. */
  method DumpDefineVariable(e: Expr, k: int, fp: Stream)
    requires e.DefineVariable?
    modifies fp
    ensures fp.text == old(fp.text) + DefineVariableText(e, k)
    decreases e, 0
  {
    ghost var o := old(fp.text);
    var header := "DefineVariable(type: " + CStr(e.varType) + ", dest: " + CStr(e.dest) + "\n";
    fp.Puts(header);
    PutsIndented(k + 1, "value: ", fp);
    Concat(o, header, Indented(k + 1, "value: "));
    ghost var acc := header + Indented(k + 1, "value: ");
    DumpExpr(e.value, k + 1, fp);
    Concat(o, acc, ExprText(e.value, k + 1));
    acc := acc + ExprText(e.value, k + 1);
    PutsIndented(k, ")\n", fp);
    Concat(o, acc, Indented(k, ")\n"));
  }

  /** `AssignAST::dump`. */
  method DumpAssign(e: Expr, k: int, fp: Stream)
    requires e.Assign?
    modifies fp
    ensures fp.text == old(fp.text) + AssignText(e, k)
    decreases e, 0
  {
    ghost var o := old(fp.text);
    var header := "Assign(dest: " + CStr(e.dest) + "\n";
    fp.Puts(header);
    PutsIndented(k + 1, "value: ", fp);
    Concat(o, header, Indented(k + 1, "value: "));
    ghost var acc := header + Indented(k + 1, "value: ");
    DumpExpr(e.value, k + 1, fp);
    Concat(o, acc, ExprText(e.value, k + 1));
    acc := acc + ExprText(e.value, k + 1);
    PutsIndented(k, ")\n", fp);
    Concat(o, acc, Indented(k, ")\n"));
  }

  /** `FunctionCallAST::dump`. */
  method DumpFunctionCall(e: Expr, k: int, fp: Stream)
    requires e.FunctionCall?
    modifies fp
    ensures fp.text == old(fp.text) + FunctionCallText(e, k)
    decreases e, 0
  {
    ghost var o := old(fp.text);
    var header := "FunctionCall(name: " + CStr(e.name) + "\n";
    fp.Puts(header);
    PutsIndented(k + 1, "args: [\n", fp);
    Concat(o, header, Indented(k + 1, "args: [\n"));
    ghost var acc := header + Indented(k + 1, "args: [\n");
    DumpArgs(e.args, k + 2, fp);
    Concat(o, acc, ArgsText(e.args, k + 2));
    acc := acc + ArgsText(e.args, k + 2);
    PutsIndented(k + 1, "]\n", fp);
    Concat(o, acc, Indented(k + 1, "]\n"));
    acc := acc + Indented(k + 1, "]\n");
    PutsIndented(k, ")\n", fp);
    Concat(o, acc, Indented(k, ")\n"));
  }

  /** The argument loop of `FunctionCallAST::dump`: each argument, in vector order, at level `k`. */
  method DumpArgs(args: seq<Expr>, k: int, fp: Stream)
    modifies fp
    ensures fp.text == old(fp.text) + ArgsText(args, k)
    decreases args
  {
    ghost var o := old(fp.text);
    var i := 0;
    while i < |args|
      invariant 0 <= i <= |args|
      invariant fp.text == o + ArgsText(args[..i], k)
    {
      ghost var done := ArgsText(args[..i], k);
      Indent(k, fp);
      DumpExpr(args[i], k, fp);
      Concat(o + done, Spaces(k), ExprText(args[i], k));
      Concat(o, done, Indented(k, ExprText(args[i], k)));
      ArgsTextSnoc(args, i, k);
      i := i + 1;
    }
    assert args[..i] == args;
  }

  /** The parameter loop of `FunctionDefineAST::dump`: a range-for over the map. */
  method DumpArguments(arguments: map<string, string>, k: int, fp: Stream)
    modifies fp
    ensures fp.text == old(fp.text) + ArgLines(arguments, SortedKeys(arguments.Keys), k)
  {
    ghost var o := old(fp.text);
    var remaining := arguments.Keys;
    while remaining != {}
      invariant remaining <= arguments.Keys
      invariant fp.text + ArgLines(arguments, SortedKeys(remaining), k)
             == o + ArgLines(arguments, SortedKeys(arguments.Keys), k)
      decreases remaining
    {
      var name :| name in remaining && IsLeast(name, remaining);
      LeastUnique(name, Least(remaining), remaining);
      ArgLinesFirst(arguments, remaining, k);
      ghost var before := fp.text;
      ghost var rest := ArgLines(arguments, SortedKeys(remaining - {name}), k);
      PutsIndented(k, "Arg(type: " + CStr(arguments[name]) + ", name: " + CStr(name) + ")\n", fp);
      Concat(before, ArgLine(arguments, name, k), rest);
      remaining := remaining - {name};
    }
  }

  /** The virtual `BaseStatementAST::dump`, dispatched on the node's class. */
  method DumpStmt(s: Stmt, k: int, fp: Stream)
    requires Dumpable(s)
    modifies fp
    ensures fp.text == old(fp.text) + StmtText(s, k)
    decreases s, 1
  {
    match s
    case ExprStatement(expr) => DumpExpr(expr, k, fp);
    case IfStatement(_, _, _) => DumpIf(s, k, fp);
    case WhileStatement(_, _) => DumpWhile(s, k, fp);
    case ReturnStatement(_) => DumpReturn(s, k, fp);
    case FunctionDefine(_, _, _, _) => DumpFunctionDefine(s, k, fp);
  }

  /** `IfStatementAST::dump`; `elseBlock` is dereferenced unconditionally. */
  method DumpIf(s: Stmt, k: int, fp: Stream)
    requires s.IfStatement? && Dumpable(s)
    modifies fp
    ensures fp.text == old(fp.text) + IfText(s, k)
    decreases s, 0
  {
    ghost var o := old(fp.text);
    ghost var acc := "If(condition: ";
    fp.Puts("If(condition: ");
    DumpExpr(s.condition, k + 1, fp);
    Concat(o, acc, ExprText(s.condition, k + 1));
    acc := acc + ExprText(s.condition, k + 1);
    PutsIndented(k + 1, "true: ", fp);
    Concat(o, acc, Indented(k + 1, "true: "));
    acc := acc + Indented(k + 1, "true: ");
    DumpBlock(s.block, k + 1, fp);
    Concat(o, acc, BlockText(s.block, k + 1));
    acc := acc + BlockText(s.block, k + 1);
    PutsIndented(k + 1, "false: ", fp);
    Concat(o, acc, Indented(k + 1, "false: "));
    acc := acc + Indented(k + 1, "false: ");
    DumpBlock(s.elseBlock.value, k + 1, fp);
    Concat(o, acc, BlockText(s.elseBlock.value, k + 1));
    acc := acc + BlockText(s.elseBlock.value, k + 1);
    PutsIndented(k, ")\n", fp);
    Concat(o, acc, Indented(k, ")\n"));
  }

  /** `WhileStatementAST::dump`. */
  method DumpWhile(s: Stmt, k: int, fp: Stream)
    requires s.WhileStatement? && Dumpable(s)
    modifies fp
    ensures fp.text == old(fp.text) + WhileText(s, k)
    decreases s, 0
  {
    ghost var o := old(fp.text);
    ghost var acc := "While(condition: ";
    fp.Puts("While(condition: ");
    DumpExpr(s.condition, k + 1, fp);
    Concat(o, acc, ExprText(s.condition, k + 1));
    acc := acc + ExprText(s.condition, k + 1);
    PutsIndented(k + 1, "block: ", fp);
    Concat(o, acc, Indented(k + 1, "block: "));
    acc := acc + Indented(k + 1, "block: ");
    DumpBlock(s.block, k + 1, fp);
    Concat(o, acc, BlockText(s.block, k + 1));
    acc := acc + BlockText(s.block, k + 1);
    PutsIndented(k, ")\n", fp);
    Concat(o, acc, Indented(k, ")\n"));
  }

  /** `ReturnStatementAST::dump`: a null `expr` prints `(void return)` with no line break. */
  method DumpReturn(s: Stmt, k: int, fp: Stream)
    requires s.ReturnStatement?
    modifies fp
    ensures fp.text == old(fp.text) + ReturnText(s, k)
    decreases s, 0
  {
    ghost var o := old(fp.text);
    fp.Puts("Return(expr: ");
    ghost var value;
    if s.result.None? {
      fp.Puts("(void return)");
      value := "(void return)";
    } else {
      DumpExpr(s.result.value, k + 1, fp);
      value := ExprText(s.result.value, k + 1);
    }
    Concat(o, "Return(expr: ", value);
    PutsIndented(k, ")\n", fp);
    Concat(o, "Return(expr: " + value, Indented(k, ")\n"));
  }

  /** `FunctionDefineAST::dump`: a null body prints an empty line after `statements: `. */
  method DumpFunctionDefine(s: Stmt, k: int, fp: Stream)
    requires s.FunctionDefine? && Dumpable(s)
    modifies fp
    ensures fp.text == old(fp.text) + FunctionDefineText(s, k)
    decreases s, 0
  {
    ghost var o := old(fp.text);
    ghost var acc := "FunctionDef(\n";
    fp.Puts("FunctionDef(\n");
    PutsIndented(k + 1, "name: " + CStr(s.name) + "\n", fp);
    Concat(o, acc, Indented(k + 1, "name: " + CStr(s.name) + "\n"));
    acc := acc + Indented(k + 1, "name: " + CStr(s.name) + "\n");
    PutsIndented(k + 1, "retType: " + CStr(s.returnType) + "\n", fp);
    Concat(o, acc, Indented(k + 1, "retType: " + CStr(s.returnType) + "\n"));
    acc := acc + Indented(k + 1, "retType: " + CStr(s.returnType) + "\n");
    PutsIndented(k + 1, "args: [\n", fp);
    Concat(o, acc, Indented(k + 1, "args: [\n"));
    acc := acc + Indented(k + 1, "args: [\n");
    DumpArguments(s.arguments, k + 2, fp);
    Concat(o, acc, ArgLines(s.arguments, SortedKeys(s.arguments.Keys), k + 2));
    acc := acc + ArgLines(s.arguments, SortedKeys(s.arguments.Keys), k + 2);
    PutsIndented(k + 1, "]\n", fp);
    Concat(o, acc, Indented(k + 1, "]\n"));
    acc := acc + Indented(k + 1, "]\n");
    PutsIndented(k + 1, "statements: ", fp);
    Concat(o, acc, Indented(k + 1, "statements: "));
    acc := acc + Indented(k + 1, "statements: ");
    ghost var body;
    if s.body.Some? {
      DumpBlock(s.body.value, k + 1, fp);
      body := BlockText(s.body.value, k + 1);
    } else {
      fp.Puts("\n");
      body := "\n";
    }
    Concat(o, acc, body);
    acc := acc + body;
    PutsIndented(k, ")\n", fp);
    Concat(o, acc, Indented(k, ")\n"));
  }

  /** `BlockAST::dump`. */
  method DumpBlock(b: Block, k: int, fp: Stream)
    requires BlockDumpable(b)
    modifies fp
    ensures fp.text == old(fp.text) + BlockText(b, k)
    decreases b, 2
  {
    ghost var o := old(fp.text);
    fp.Puts("Block: [\n");
    DumpStatements(b.statements, k + 1, fp);
    Concat(o, "Block: [\n", StmtsText(b.statements, k + 1));
    ghost var acc := "Block: [\n" + StmtsText(b.statements, k + 1);
    PutsIndented(k, "]\n", fp);
    Concat(o, acc, Indented(k, "]\n"));
  }

  /** The statement loop of `BlockAST::dump`: each statement, in vector order, at level `k`. */
  method DumpStatements(ss: seq<Stmt>, k: int, fp: Stream)
    requires forall i :: 0 <= i < |ss| ==> Dumpable(ss[i])
    modifies fp
    ensures fp.text == old(fp.text) + StmtsText(ss, k)
    decreases ss
  {
    ghost var o := old(fp.text);
    var i := 0;
    while i < |ss|
      invariant 0 <= i <= |ss|
      invariant fp.text == o + StmtsText(ss[..i], k)
    {
      ghost var done := StmtsText(ss[..i], k);
      Indent(k, fp);
      DumpStmt(ss[i], k, fp);
      Concat(o + done, Spaces(k), StmtText(ss[i], k));
      Concat(o, done, Indented(k, StmtText(ss[i], k)));
      StmtsTextSnoc(ss, i, k);
      i := i + 1;
    }
    assert ss[..i] == ss;
  }

  /** `ProgramAST::dump`. */
  method DumpProgram(p: Program, k: int, fp: Stream)
    requires BlockDumpable(p.block)
    modifies fp
    ensures fp.text == old(fp.text) + ProgramText(p, k)
  {
    fp.Puts("Program(\n");
    ghost var t1 := fp.text;
    Indent(k + 1, fp);
    fp.Puts("block: ");
    Concat(t1, Spaces(k + 1), "block: ");
    ghost var t2 := fp.text;
    DumpBlock(p.block, k + 1, fp);
    ghost var t3 := fp.text;
    Indent(k, fp);
    fp.Puts(")\n");
    Concat(t3, Spaces(k), ")\n");
    Concat(old(fp.text), "Program(\n", Indented(k + 1, "block: "));
    Concat(old(fp.text), "Program(\n" + Indented(k + 1, "block: "), BlockText(p.block, k + 1));
    Concat(old(fp.text), "Program(\n" + Indented(k + 1, "block: ") + BlockText(p.block, k + 1), Indented(k, ")\n"));
  }
}
