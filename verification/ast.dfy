/**
 * The syntax tree of the compiler front end (parser/ast.hpp).
 *
 * Every node class that holds data becomes a constructor. A child pointer the
 * source may leave null is an `Option`; every other child pointer is a plain
 * field. Because a datatype value owns its fields, each node has exactly one
 * parent and destroying a node destroys its whole subtree, as the destructors
 * of ast.hpp do by hand.
 */
module Ast {
  import opened Wrappers
  import opened Stdio

  /** Expression nodes: the classes derived from `BaseAST`. */
  datatype Expr =
    | Equation(lhs: Expr, rhs: Expr, op: string)
      /** The literal as its digit string, with no width limit and no conversion. */
    | ImmediateInt(digits: string)
    | Variable(name: string)
    | ImmediateString(text: string)
    | DefineVariable(varType: string, dest: string, value: Expr)
    | Assign(dest: string, value: Expr)
      /** The arguments in call-site order. */
    | FunctionCall(name: string, args: seq<Expr>)

  /** Statement nodes: the classes derived from `BaseStatementAST`. */
  datatype Stmt =
    | ExprStatement(expr: Expr)
      /** `elseBlock` is a plain pointer in the source; the destructor accepts null. */
    | IfStatement(condition: Expr, block: Block, elseBlock: Option<Block>)
    | WhileStatement(condition: Expr, block: Block)
      /** `None` is a void return. */
    | ReturnStatement(result: Option<Expr>)
      /** Parameters keyed by name (name to type); `None` is a declaration without a body. */
    | FunctionDefine(name: string, returnType: string, arguments: map<string, string>, body: Option<Block>)

  /** A statement list in execution order. */
  datatype Block = Block(statements: seq<Stmt>)

  datatype Program = Program(block: Block)

  /** What `indent(count, fp)` writes: two spaces per level, nothing for `count <= 0`. */
  function Spaces(count: int): (r: string)
    ensures |r| == if count <= 0 then 0 else 2 * count
    decreases count
  {
    if count <= 0 then [] else Spaces(count - 1) + "  "
  }

  /** `indent` writes spaces and nothing else. */
  lemma {:induction false} SpacesOnly(count: int)
    ensures forall i :: 0 <= i < |Spaces(count)| ==> Spaces(count)[i] == ' '
    decreases count
  {
    if count > 0 {
      SpacesOnly(count - 1);
    }
  }

  /** `indent(count, fp)`: one `fputc(' ')` per iteration, `count * 2` iterations. */
  method Indent(count: int, fp: Stream)
    modifies fp
    ensures fp.text == old(fp.text) + Spaces(count)
  {
    SpacesOnly(count);
    var i := 0;
    while i < count * 2
      invariant 0 <= i <= |Spaces(count)|
      invariant fp.text == old(fp.text) + Spaces(count)[..i]
    {
      fp.Putc(' ');
      i := i + 1;
    }
  }

  /** The number of nodes in a tree. */
  function ExprSize(e: Expr): (n: nat)
    ensures n >= 1
    decreases e
  {
    match e
    case Equation(lhs, rhs, _) => 1 + ExprSize(lhs) + ExprSize(rhs)
    case ImmediateInt(_) => 1
    case Variable(_) => 1
    case ImmediateString(_) => 1
    case DefineVariable(_, _, value) => 1 + ExprSize(value)
    case Assign(_, value) => 1 + ExprSize(value)
    case FunctionCall(_, args) => 1 + ExprsSize(args)
  }

  function ExprsSize(es: seq<Expr>): nat
    decreases es
  {
    if es == [] then 0 else ExprsSize(es[..|es| - 1]) + ExprSize(es[|es| - 1])
  }

  function StmtSize(s: Stmt): (n: nat)
    ensures n >= 1
    decreases s
  {
    match s
    case ExprStatement(expr) => 1 + ExprSize(expr)
    case IfStatement(condition, block, elseBlock) =>
      1 + ExprSize(condition) + BlockSize(block)
        + (match elseBlock case None => 0 case Some(b) => BlockSize(b))
    case WhileStatement(condition, block) => 1 + ExprSize(condition) + BlockSize(block)
    case ReturnStatement(result) => 1 + (match result case None => 0 case Some(e) => ExprSize(e))
    case FunctionDefine(_, _, _, body) => 1 + (match body case None => 0 case Some(b) => BlockSize(b))
  }

  function BlockSize(b: Block): (n: nat)
    ensures n >= 1
    decreases b
  {
    1 + StmtsSize(b.statements)
  }

  function StmtsSize(ss: seq<Stmt>): nat
    decreases ss
  {
    if ss == [] then 0 else StmtsSize(ss[..|ss| - 1]) + StmtSize(ss[|ss| - 1])
  }

  function ProgramSize(p: Program): nat
  {
    1 + BlockSize(p.block)
  }

  /** Every element of a child list is no larger than the whole list. */
  lemma {:induction false} ExprsSizeBound(es: seq<Expr>, i: int)
    requires 0 <= i < |es|
    ensures ExprSize(es[i]) <= ExprsSize(es)
    decreases es
  {
    if i < |es| - 1 {
      ExprsSizeBound(es[..|es| - 1], i);
    }
  }

  lemma {:induction false} StmtsSizeBound(ss: seq<Stmt>, i: int)
    requires 0 <= i < |ss|
    ensures StmtSize(ss[i]) <= StmtsSize(ss)
    decreases ss
  {
    if i < |ss| - 1 {
      StmtsSizeBound(ss[..|ss| - 1], i);
    }
  }

  /** The structure is a tree: every child of an expression node is strictly smaller than it. */
  lemma ExprChildrenSmaller(e: Expr)
    ensures e.Equation? ==> ExprSize(e.lhs) < ExprSize(e) && ExprSize(e.rhs) < ExprSize(e)
    ensures e.DefineVariable? || e.Assign? ==> ExprSize(e.value) < ExprSize(e)
    ensures e.FunctionCall? ==> forall i :: 0 <= i < |e.args| ==> ExprSize(e.args[i]) < ExprSize(e)
  {
    if e.FunctionCall? {
      forall i | 0 <= i < |e.args|
        ensures ExprSize(e.args[i]) < ExprSize(e)
      {
        ExprsSizeBound(e.args, i);
      }
    }
  }

  /** Every child of a statement is strictly smaller than it. */
  lemma StmtChildrenSmaller(s: Stmt)
    ensures s.ExprStatement? ==> ExprSize(s.expr) < StmtSize(s)
    ensures s.IfStatement? ==>
      ExprSize(s.condition) < StmtSize(s) && BlockSize(s.block) < StmtSize(s)
      && (s.elseBlock.Some? ==> BlockSize(s.elseBlock.value) < StmtSize(s))
    ensures s.WhileStatement? ==> ExprSize(s.condition) < StmtSize(s) && BlockSize(s.block) < StmtSize(s)
    ensures s.ReturnStatement? && s.result.Some? ==> ExprSize(s.result.value) < StmtSize(s)
    ensures s.FunctionDefine? && s.body.Some? ==> BlockSize(s.body.value) < StmtSize(s)
  {
  }

  /** Every statement of a block is strictly smaller than the block. */
  lemma BlockChildrenSmaller(b: Block)
    ensures forall i :: 0 <= i < |b.statements| ==> StmtSize(b.statements[i]) < BlockSize(b)
  {
    forall i | 0 <= i < |b.statements|
      ensures StmtSize(b.statements[i]) < BlockSize(b)
    {
      StmtsSizeBound(b.statements, i);
    }
  }

  /** The block of a program is strictly smaller than the program. */
  lemma ProgramChildSmaller(p: Program)
    ensures BlockSize(p.block) < ProgramSize(p)
  {
  }
}
