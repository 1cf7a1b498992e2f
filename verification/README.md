# kanolang syntax tree and its text dump, in Dafny

This project models the syntax tree of the kanolang compiler front end
(`parser/ast.hpp`) and the `dump` methods that print such a tree as
indented text (`parser/ast.cpp`).

- **Nodes.** The node classes become datatypes:
  - `Ast.Expr`: Equation, ImmediateInt, Variable, ImmediateString, DefineVariable, Assign and FunctionCall.
  - `Ast.Stmt`: ExprStatement, If, While, Return and FunctionDefine.
  - `Ast.Block` and `Ast.Program`.

  A child pointer the source allows to be null is an `Option`: the Return expression, the FunctionDefine body, and the If else block. The destructors delete each child exactly once, which makes the structure a tree. A datatype value owns its fields, and the size lemmas show that every child is strictly smaller than its parent.
- **Output stream.** `FILE *` is the class `Stdio.Stream`, which holds the text written so far. `fputc`, `fputs` and `fprintf` append to it.
  - `%s` applied to `c_str()` prints the string only up to its first NUL character (`Stdio.CStr`).
  - `std::map<std::string, std::string>` iterates its keys in ascending order, using `char_traits<char>::lt`, which compares characters by code (`StdMap.SortedKeys`).
- **Dump, in two layers.**
  - Each `dump` is a method that writes to the stream: `Dump.DumpEquation`, `Dump.DumpBlock`, and so on. The virtual call is a dispatch method (`Dump.DumpExpr`, `Dump.DumpStmt`).
  - Each method is proved to append exactly the text a pure function gives for the node and the indent count (`Dump.EquationText`, `Dump.BlockText`, and so on).
  - The loops over call arguments, block statements and the parameter map are `while` loops. Their invariants say how much of that text has been written so far.
- **Properties proved about that text:**
  - order is kept;
  - literals are printed verbatim;
  - absent children are visible;
  - an `if` without an `else` cannot be dumped;
  - the layout theorem (`Layout.ProgramLines`): in a dump at level `k`, every line after the first begins with at least `2k` spaces, as long as no printed string carries a line break of its own.

In `parser/ast.hpp:90-122`, variable definitions and assignments derive from `BaseAST`. They are therefore expressions here, even though a description of the language might list them as statements.

## Model

| member | source | states |
|---|---|---|
| Stdio.Stream.Putc | parser/ast.hpp:15 | `fputc` appends exactly one character to the stream |
| Stdio.Stream.Puts | parser/ast.cpp:95 | `fputs` (and `fprintf` without conversions) appends exactly the string |
| Stdio.CStr | parser/ast.cpp:10 | what `%s` of `c_str()` prints is a prefix of the string, holds no NUL, and stops exactly at the first NUL when there is one |
| Stdio.CStrWhole | parser/ast.cpp:26 | a string without NUL is printed whole |
| Stdio.CStrChars | parser/ast.cpp:31 | `%s` prints no character the string does not hold |
| StdMap.LessIrreflexive | parser/ast.hpp:238 | the key order of the map is irreflexive |
| StdMap.LessTransitive | parser/ast.hpp:238 | the key order is transitive |
| StdMap.LessTotal | parser/ast.hpp:238 | any two distinct keys are ordered one way or the other |
| StdMap.LessAsymmetric | parser/ast.hpp:238 | the key order is asymmetric |
| StdMap.LeastExists | parser/ast.hpp:238 | every non-empty key set has a least key |
| StdMap.LeastUnique | parser/ast.hpp:238 | the least key is unique |
| StdMap.Least | parser/ast.cpp:156 | a range-for over the map starts at the key below every other key |
| StdMap.SortedKeys | parser/ast.cpp:156 | the iteration order of the map visits every key exactly once, in strictly ascending order |
| StdMap.SortedPair | parser/ast.hpp:238 | two keys iterate in ascending order, whatever the insertion order |
| StdMap.Less | parser/ast.hpp:238 | defines the key order of the map, `std::less<std::string>`: lexicographic by character code, a proper prefix first |
| StdMap.SortedBefore | parser/ast.cpp:156 | in a strictly ascending key sequence, a smaller key sits before a larger one |
| Ast.Spaces | parser/ast.hpp:12-16 | `indent(count)` writes `2*count` characters, none for `count <= 0` |
| Ast.SpacesOnly | parser/ast.hpp:14-15 | every character `indent` writes is a space |
| Ast.Indent | parser/ast.hpp:12-16 | the loop appends exactly `Spaces(count)` to the stream and nothing else |
| Ast.ExprsSizeBound | parser/ast.hpp:128 | no call argument is larger than the argument list |
| Ast.StmtsSizeBound | parser/ast.hpp:168 | no statement is larger than the statement list |
| Ast.ExprChildrenSmaller | parser/ast.hpp:34-140 | every child of an expression node is strictly smaller than it: the expressions form a tree |
| Ast.StmtChildrenSmaller | parser/ast.hpp:182-250 | every child of a statement node, including an optional child that is present, is strictly smaller than it |
| Ast.BlockChildrenSmaller | parser/ast.hpp:165-180 | every statement of a block is strictly smaller than the block |
| Ast.ProgramChildSmaller | parser/ast.hpp:252-264 | the block of a program is strictly smaller than the program |
| Dump.ExprText | parser/ast.cpp:8-74 | an expression's dump is non-empty, opens with the first letter of its class name and ends with a line break |
| Dump.EquationText | parser/ast.cpp:8-22 | the Equation dump opens with `E` and ends with a line break |
| Dump.DefineVariableText | parser/ast.cpp:39-47 | the DefineVariable dump opens with `D` and ends with a line break |
| Dump.AssignText | parser/ast.cpp:49-57 | the Assign dump opens with `A` and ends with a line break |
| Dump.FunctionCallText | parser/ast.cpp:59-74 | the FunctionCall dump opens with `F` and ends with a line break |
| Dump.ArgsText | parser/ast.cpp:65-69 | the text of the argument loop: empty exactly for no arguments, otherwise opening with `indent(k)` and ending with a line break |
| Dump.ArgsTextSnoc | parser/ast.cpp:65-69 | one more turn of the argument loop appends `indent(k)` and the argument's dump |
| Dump.ArgLine | parser/ast.cpp:158-159 | one parameter line: `indent(k)`, then `Arg(`, ending with a line break |
| Dump.ArgLines | parser/ast.cpp:156-160 | the text of the map loop over the given names: empty exactly for no names, otherwise opening with `indent(k)` and ending with a line break |
| Dump.ArgLinesFirst | parser/ast.cpp:156-160 | the parameter loop writes the line of the least remaining name first, then the rest in order |
| Dump.Dumpable | parser/ast.cpp:109 | defines the statements whose dump does not dereference a null pointer: every If, at any depth, has an else block |
| Dump.BlockDumpable | parser/ast.cpp:89-93 | defines a block as dumpable when every one of its statements is |
| Dump.StmtText | parser/ast.cpp:81-178 | a statement's dump is non-empty and ends with a line break |
| Dump.IfText | parser/ast.cpp:98-113 | the If dump, defined only when the else block is present, is non-empty and ends with a line break |
| Dump.WhileText | parser/ast.cpp:115-126 | the While dump is non-empty and ends with a line break |
| Dump.ReturnText | parser/ast.cpp:128-141 | the Return dump is non-empty and ends with a line break |
| Dump.FunctionDefineText | parser/ast.cpp:143-178 | the FunctionDef dump is non-empty and ends with a line break |
| Dump.BlockText | parser/ast.cpp:86-96 | a block dump opens with `Block: [` and its line break, and closes with `]` and a line break |
| Dump.StmtsText | parser/ast.cpp:89-93 | the text of the statement loop: empty exactly for no statements, otherwise opening with `indent(k)` and ending with a line break |
| Dump.StmtsTextSnoc | parser/ast.cpp:89-93 | one more turn of the statement loop appends `indent(k)` and the statement's dump |
| Dump.ProgramText | parser/ast.cpp:180-190 | a program dump opens with `Program(` and its line break, and ends with a line break |
| Dump.PutsIndented | parser/ast.cpp:12-13 | `indent(count)` followed by a fixed label appends the spaces and then the label |
| Dump.DumpExpr | parser/ast.cpp:24-37 | the virtual `dump` of any expression (the leaves written in place) appends exactly `ExprText(e, k)` |
| Dump.DumpEquation | parser/ast.cpp:8-22 | `EquationAST::dump` appends exactly `EquationText(e, k)`: the operator header, the lhs then the rhs one level deeper, and the closing line |
| Dump.DumpDefineVariable | parser/ast.cpp:39-47 | `DefineVariableAST::dump` appends exactly `DefineVariableText(e, k)` |
| Dump.DumpAssign | parser/ast.cpp:49-57 | `AssignAST::dump` appends exactly `AssignText(e, k)` |
| Dump.DumpFunctionCall | parser/ast.cpp:59-74 | `FunctionCallAST::dump` appends exactly `FunctionCallText(e, k)` |
| Dump.DumpArgs | parser/ast.cpp:65-69 | the argument loop appends every argument in vector order, each after `indent(k)` and dumped at `k` |
| Dump.DumpArguments | parser/ast.cpp:156-160 | the map loop appends one `Arg(type: T, name: N)` line per parameter, in ascending name order |
| Dump.DumpStmt | parser/ast.cpp:81-84 | the virtual `dump` of any dumpable statement appends exactly `StmtText(s, k)`; an expression statement dumps its expression at the same level |
| Dump.DumpIf | parser/ast.cpp:98-113 | `IfStatementAST::dump`, given an else block, appends exactly `IfText(s, k)` |
| Dump.DumpWhile | parser/ast.cpp:115-126 | `WhileStatementAST::dump` appends exactly `WhileText(s, k)` |
| Dump.DumpReturn | parser/ast.cpp:128-141 | `ReturnStatementAST::dump` appends exactly `ReturnText(s, k)`, taking the void branch when the expression is absent |
| Dump.DumpFunctionDefine | parser/ast.cpp:143-178 | `FunctionDefineAST::dump` appends exactly `FunctionDefineText(s, k)`, with a bare line break when the body is absent |
| Dump.DumpBlock | parser/ast.cpp:86-96 | `BlockAST::dump` appends exactly `BlockText(b, k)` |
| Dump.DumpStatements | parser/ast.cpp:89-93 | the statement loop appends every statement in vector order, each after `indent(k)` and dumped at `k` |
| Dump.DumpProgram | parser/ast.cpp:180-190 | `ProgramAST::dump` appends exactly `ProgramText(p, k)` |
| DumpProperties.StatementsInOrder | parser/ast.cpp:89-93 | the dump of a statement list is the dumps of its parts in order: concatenating lists concatenates their texts |
| DumpProperties.ArgumentsInOrder | parser/ast.cpp:65-69 | the same for call arguments |
| DumpProperties.EmptyBlockDump | parser/ast.cpp:86-96 | an empty block prints `Block: [`, a line break, `2k` spaces and `]` with a line break |
| DumpProperties.IfWithoutElseNotDumpable | parser/ast.cpp:109 | an If without an else block is outside the dumpable trees, because its dump dereferences the null pointer |
| DumpProperties.VoidReturnVisible | parser/ast.cpp:131-138 | a void return and a return of any expression print different texts |
| DumpProperties.MissingBodyVisible | parser/ast.cpp:167-174 | a function declared without a body and the same function with any body print different texts |
| DumpProperties.LeavesIgnoreIndent | parser/ast.cpp:24-37 | a leaf prints the same text at every indent level |
| DumpProperties.ExprStatementTransparent | parser/ast.cpp:81-84 | an expression statement prints exactly its expression's dump at the same level |
| DumpProperties.IntegerVerbatim | parser/ast.hpp:57-59 | an integer literal prints its digit string unchanged, whatever its length |
| DumpProperties.StringVerbatim | parser/ast.cpp:34-37 | a string literal prints unescaped between the quotes |
| DumpProperties.NulTruncates | parser/ast.cpp:31 | a variable name whose first NUL is at position `i` prints exactly its first `i` characters |
| DumpProperties.VoidReturnText | parser/ast.cpp:128-141 | a void return prints `(void return)`, then directly `2k` spaces and `)` with a line break, with no line break in between |
| DumpProperties.ParametersSorted | parser/ast.cpp:156-160 | for any parameter map and any two of its names, the smaller name comes first in the order the `Arg` lines are written, whatever the insertion order |
| Layout.SpacesPrefix | parser/ast.hpp:12-16 | a shallower indent is a prefix of a deeper one |
| Layout.ExprLines | parser/ast.cpp:8-74 | every line after the first of an expression dumped at level `k` begins with at least `2k` spaces |
| Layout.EquationLines | parser/ast.cpp:8-22 | the same for an Equation |
| Layout.DefineVariableLines | parser/ast.cpp:39-47 | the same for a DefineVariable |
| Layout.AssignLines | parser/ast.cpp:49-57 | the same for an Assign |
| Layout.FunctionCallLines | parser/ast.cpp:59-74 | the same for a FunctionCall |
| Layout.LeafLines | parser/ast.cpp:24-37 | a leaf is one line: no line break before its last character, which is its line break |
| Layout.ArgsLines | parser/ast.cpp:65-69 | the argument list at level `j` begins and continues with at least `2j` spaces on every line |
| Layout.StmtsLines | parser/ast.cpp:89-93 | the statement list at level `j` begins and continues with at least `2j` spaces on every line |
| Layout.BlockLines | parser/ast.cpp:86-96 | every line after the first of a block dumped at level `k` begins with at least `2k` spaces |
| Layout.StmtLines | parser/ast.cpp:81-84 | the same for every dumpable statement |
| Layout.IfLines | parser/ast.cpp:98-113 | the same for an If |
| Layout.WhileLines | parser/ast.cpp:115-126 | the same for a While |
| Layout.ReturnLines | parser/ast.cpp:128-141 | the same for a Return |
| Layout.ParamLines | parser/ast.cpp:156-160 | each parameter line at level `j` begins with at least `2j` spaces |
| Layout.FunctionDefineLines | parser/ast.cpp:143-178 | every line after the first of a FunctionDef dumped at level `k` begins with at least `2k` spaces |
| Layout.ProgramLines | parser/ast.cpp:180-190 | the same for a whole program dump |

## Left out

- `main.cpp`, which does command-line handling, file output and LLVM object emission. It is I/O and calls into LLVM.
- The lexer, the parser and the IR generator are not part of this model. Only their headers are included, and their behaviour is unknown. This also means the model does not say how a parameter map or a statement vector gets built.
- `error/error.hpp` is not part of this model.
- `BaseAST::dump` and `BaseStatementAST::dump` (parser/ast.cpp:3-6, parser/ast.cpp:76-79). They run only for a bare base-class object, and the model has no constructor for one.
- `new`/`delete` and the destructors are not modelled. Datatype values own their fields, and only the tree shape is kept, as the size lemmas.
- A null child pointer the source does not expect is not modelled: the Equation operands, conditions, blocks, values and arguments. These are plain fields here, so they are always present.
- The null `elseBlock` of an If is representable but excluded from dumping by the `Dumpable` precondition.
- Write errors of `fputc`/`fputs`/`fprintf` and their return values. The stream always accepts the text.
- The default `fp = stdout` of `ProgramAST::dump`. The stream is always a parameter.
- Ast.Indent: does not model 32-bit `int` overflow of `count * 2` and of `indentcount + 1`. Indent levels are unbounded integers, and the source would only wrap past about 2^30 levels.
- Keys and names are sequences of Unicode characters ordered by code point, where `std::string` holds bytes compared as `unsigned char`. UTF-8 keeps code-point order, NUL and the line break, so no dump text depends on the difference.
- Layout.ProgramLines: the layout is proved only for trees whose printed strings hold no line break. A line break inside a name or a string literal is printed as is and starts an unindented line.
