/**
 * Properties of the dump text: what it keeps (order, literal text), what it
 * makes visible (absent children) and where it cannot be produced at all.
 */
module DumpProperties {
  import opened Wrappers
  import opened Stdio
  import opened StdMap
  import opened Ast
  import opened Dump

  /** Statements are printed in vector order: the dump of a concatenation is the concatenation of the dumps. */
  lemma {:induction false} StatementsInOrder(a: seq<Stmt>, b: seq<Stmt>, k: int)
    requires forall i :: 0 <= i < |a| ==> Dumpable(a[i])
    requires forall i :: 0 <= i < |b| ==> Dumpable(b[i])
    ensures forall i :: 0 <= i < |a + b| ==> Dumpable((a + b)[i])
    ensures StmtsText(a + b, k) == StmtsText(a, k) + StmtsText(b, k)
    decreases |b|
  {
    assert forall i :: 0 <= i < |a + b| ==> Dumpable((a + b)[i]) by {
      forall i | 0 <= i < |a + b|
        ensures Dumpable((a + b)[i])
      {
        if i >= |a| {
          assert (a + b)[i] == b[i - |a|];
        }
      }
    }
    if b == [] {
      assert a + b == a;
    } else {
      var front := b[..|b| - 1];
      var last := b[|b| - 1];
      assert (a + b)[..|a + b| - 1] == a + front;
      assert (a + b)[|a + b| - 1] == last;
      StatementsInOrder(a, front, k);
      Concat(StmtsText(a, k), StmtsText(front, k), Indented(k, StmtText(last, k)));
    }
  }

  /** Call arguments are printed in vector order. */
  lemma {:induction false} ArgumentsInOrder(a: seq<Expr>, b: seq<Expr>, k: int)
    ensures ArgsText(a + b, k) == ArgsText(a, k) + ArgsText(b, k)
    decreases |b|
  {
    if b == [] {
      assert a + b == a;
    } else {
      var front := b[..|b| - 1];
      var last := b[|b| - 1];
      assert (a + b)[..|a + b| - 1] == a + front;
      assert (a + b)[|a + b| - 1] == last;
      ArgumentsInOrder(a, front, k);
      Concat(ArgsText(a, k), ArgsText(front, k), Indented(k, ExprText(last, k)));
    }
  }

  /** An empty block prints its brackets only, the closing one indented to the block's level. */
  lemma EmptyBlockDump(k: int)
    ensures BlockText(Block([]), k) == "Block: [\n" + Spaces(k) + "]\n"
  {
    assert StmtsText([], k + 1) == [];
  }

  /** An `if` without an else block cannot be dumped: `IfStatementAST::dump` dereferences a null pointer. */
  lemma IfWithoutElseNotDumpable(condition: Expr, block: Block)
    ensures !Dumpable(IfStatement(condition, block, None))
  {
  }

  /** A void return and a return of any expression print differently. */
  lemma VoidReturnVisible(e: Expr, k: int)
    ensures StmtText(ReturnStatement(None), k) != StmtText(ReturnStatement(Some(e)), k)
  {
    var opening := "Return(expr: ";
    var closing := Indented(k, ")\n");
    var value := ExprText(e, k + 1);
    var v := ReturnText(ReturnStatement(None), k);
    var w := ReturnText(ReturnStatement(Some(e)), k);
    assert v == opening + "(void return)" + closing;
    assert w == opening + value + closing;
    assert v[|opening|] == '(';
    assert w[|opening|] == value[0] == ExprName(e)[0] != '(';
  }

  /** A function declared without a body and one defined with a body print differently. */
  lemma MissingBodyVisible(name: string, returnType: string, arguments: map<string, string>, b: Block, k: int)
    requires BlockDumpable(b)
    ensures StmtText(FunctionDefine(name, returnType, arguments, None), k)
         != StmtText(FunctionDefine(name, returnType, arguments, Some(b)), k)
  {
  }

  /** A leaf prints the same text at every indent level. */
  lemma LeavesIgnoreIndent(e: Expr, j: int, k: int)
    requires e.ImmediateInt? || e.Variable? || e.ImmediateString?
    ensures ExprText(e, j) == ExprText(e, k)
  {
  }

  /** An expression statement prints exactly its expression, at the same level. */
  lemma ExprStatementTransparent(e: Expr, k: int)
    ensures StmtText(ExprStatement(e), k) == ExprText(e, k)
  {
  }

  /**
   * An integer literal prints its digit string unchanged, whatever its
   * length: nothing converts it to a bounded number.
   */
  lemma IntegerVerbatim(digits: string, k: int)
    requires '\0' !in digits
    ensures ExprText(ImmediateInt(digits), k) == "ImmediateInt(value: " + digits + ")\n"
  {
  }

  /** A string literal prints unescaped between the quotes: quotes and line breaks in it come out as they are. */
  lemma StringVerbatim(text: string, k: int)
    requires '\0' !in text
    ensures ExprText(ImmediateString(text), k) == "ImmediateString(value: \"" + text + "\")\n"
  {
  }

  /** `%s` stops at the first NUL: a name with an embedded NUL prints only up to it. */
  lemma NulTruncates(name: string, i: int, k: int)
    requires 0 <= i < |name| && name[i] == '\0' && '\0' !in name[..i]
    ensures ExprText(Variable(name), k) == "Variable(name: " + name[..i] + ")\n"
  {
    assert CStr(name) == name[..i];
  }

  /** A void return prints the placeholder and closes on the same line, after the indent. */
  lemma VoidReturnText(k: int)
    ensures StmtText(ReturnStatement(None), k) == "Return(expr: (void return)" + Spaces(k) + ")\n"
  {
  }

  /**
   * Parameters print in ascending name order, whatever the order they were
   * declared in: of any two names in the map, the smaller one comes first in
   * the order the dump writes the `Arg` lines.
   */
  lemma ParametersSorted(arguments: map<string, string>, a: string, b: string)
    requires a in arguments && b in arguments && Less(a, b)
    ensures exists i, j ::
              0 <= i < j < |SortedKeys(arguments.Keys)|
              && SortedKeys(arguments.Keys)[i] == a && SortedKeys(arguments.Keys)[j] == b
  {
    var names := SortedKeys(arguments.Keys);
    assert a in names && b in names;
    SortedBefore(names, a, b);
  }
}
