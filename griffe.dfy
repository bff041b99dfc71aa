/** What the doc-stub generator reads from griffe's view of a loaded package:
    annotation expressions, module members and the package's submodules.
    Loading a package is outside the model; a loaded package is an input. */
module Griffe {
  import opened Wrappers
  import opened Seqs
  import opened Text

  /** Annotation and value expressions. `Str` is a plain Python string in a
      place where griffe allows `str | Expr` (an unparsed annotation, a string
      subscript slice); it is not an instance of `Expr`. */
  datatype Expr =
    | Name(name: string, path: string)                  // `ExprName`; `path` is its resolved canonical path
    | Subscript(left: Expr, slice: Expr)                // `ExprSubscript`, `left[slice]`
    | Tuple(elements: seq<Expr>)                        // `ExprTuple`, as it stands inside a subscript
    | BinOp(left: Expr, operator: string, right: Expr)  // `ExprBinOp`, `left op right`
    | Str(text: string)
  {
    /** `isinstance(x, Expr)`. */
    predicate IsExpr() { !Str? }
  }

  /** `str(e)`: the source text griffe prints for an expression. */
  function Render(e: Expr): string
    decreases e
  {
    match e
    case Name(n, _) => n
    case Subscript(l, s) => Render(l) + "[" + Render(s) + "]"
    case Tuple(es) => Join(seq(|es|, i requires 0 <= i < |es| => Render(es[i])), ", ")
    case BinOp(l, op, r) => Render(l) + " " + op + " " + Render(r)
    case Str(t) => t
  }

  /** `e.canonical_path`: a name's resolved path, a subscript's left side's
      path, and the printed text of any other expression. */
  function CanonicalPath(e: Expr): string
  {
    match e
    case Name(_, p) => p
    case Subscript(l, _) => CanonicalPath(l)
    case _ => Render(e)
  }

  /** `p.rsplit(".", 1)[-1]`: what follows the last dot, or all of `p`. */
  function LastSegment(p: string): (r: string)
    ensures '.' !in r
    ensures EndsWith(p, r)
    ensures |r| == |p| || p[|p| - |r| - 1] == '.'
    decreases |p|
  {
    if p == [] then []
    else if p[|p| - 1] == '.' then []
    else
      var r := LastSegment(p[..|p| - 1]);
      assert p[..|p| - 1][|p| - 1 - |r|..] == r;
      r + [p[|p| - 1]]
  }

  /** `e.canonical_name`. */
  function CanonicalName(e: Expr): string
  {
    LastSegment(CanonicalPath(e))
  }

  /** A parameter of a function, with its annotation (`None` when absent). */
  datatype Param = Param(name: string, annotation: Option<Expr>)

  /** A function defined in a class: its name, canonical path, whether it is
      private, its parameters and its return annotation. */
  datatype Function = Function(
    name: string,
    path: string,
    isPrivate: bool,
    parameters: seq<Param>,
    returnAnnotation: Option<Expr>)
  {
    /** `is_init_method`. */
    predicate IsInitMethod() { name == "__init__" }
  }

  datatype MemberKind =
    | ClassKind(bases: seq<Expr>, functions: seq<Function>)
    | AttributeKind(value: Option<Expr>)
    | FunctionKind
    | ModuleKind

  /** A member of a module, with griffe's `is_imported` and `is_private` flags. */
  datatype Member = Member(
    name: string,
    path: string,
    kind: MemberKind,
    isImported: bool,
    isPrivate: bool)

  /** A module's members, in declaration order; a name stands at most once. */
  datatype Module = Module(members: seq<Member>)

  /** A loaded package: its submodules by name. */
  type Package = map<string, Module>

  /** The first member from position `i` on whose name is `name`. */
  function GetFrom(members: seq<Member>, name: string, i: nat): (r: Option<Member>)
    requires i <= |members|
    ensures r.Some? ==> r.value in members && r.value.name == name
    ensures r.None? ==> forall k :: i <= k < |members| ==> members[k].name != name
    decreases |members| - i
  {
    if i == |members| then None
    else if members[i].name == name then Some(members[i])
    else GetFrom(members, name, i + 1)
  }

  /** `members.get(name)`. */
  function Get(members: seq<Member>, name: string): (r: Option<Member>)
    ensures r.Some? ==> r.value in members && r.value.name == name
    ensures r.None? ==> forall i :: 0 <= i < |members| ==> members[i].name != name
  {
    GetFrom(members, name, 0)
  }
}
