/**
 * The static vetting of player scripts in `src/core/code_executor.py`: a syntax tree
 * is accepted exactly when every node in it passes the local checks.
 */
module Vetting {
  import opened Wrappers

  /**
   * The syntax-tree shapes the walk distinguishes. `Other` stands for every other node
   * kind (statements, expressions, contexts, constants) with its children in order.
   * A name's load/store context is a childless node and always passes, so `Name` carries
   * none.
   */
  datatype Node =
    | Import
    | ImportFrom
    | Call(func: Node, args: seq<Node>)
    | Name(id: string)
    | Attribute(value: Node, attr: string)
    | Other(children: seq<Node>)

  /** The eleven game functions a script may call by bare name. */
  const AllowedFunctions: set<string> := {
    "move_forward", "turn_left", "turn_right", "turn_around",
    "is_clear", "is_gem", "is_goal", "at_goal",
    "get_position", "get_direction", "get_gem_count"
  }

  /** The ten builtins a script may call by bare name. */
  const AllowedBuiltins: set<string> := {
    "print", "len", "range", "enumerate", "zip", "min", "max", "sum", "abs", "round"
  }

  /** Attribute names that may not be called as methods. */
  const DeniedAttributes: set<string> := {"__import__", "exec", "eval"}

  /** Names that may not appear at all, called or not. */
  const DeniedNames: set<string> := {"__import__", "exec", "eval", "open", "file"}

  /** The checks `_validate_ast` makes at one node before looking at its children. */
  predicate LocalOk(n: Node) {
    match n
    case Import => false
    case ImportFrom => false
    case Call(f, _) =>
      && (f.Name? ==> f.id in AllowedFunctions || f.id in AllowedBuiltins)
      && (f.Attribute? ==> f.attr !in DeniedAttributes)
    case Name(id) => id !in DeniedNames
    case _ => true
  }

  /** `_validate_ast`: the local checks, then every child in order. */
  predicate ValidateAst(n: Node)
    decreases n
  {
    && LocalOk(n)
    && match n
       case Call(f, args) => ValidateAst(f) && forall i | 0 <= i < |args| :: ValidateAst(args[i])
       case Attribute(v, _) => ValidateAst(v)
       case Other(ch) => forall i | 0 <= i < |ch| :: ValidateAst(ch[i])
       case _ => true
  }

  /** `m` is `n` itself or a node somewhere below it. */
  ghost predicate Occurs(m: Node, n: Node)
    decreases n
  {
    || m == n
    || match n
       case Call(f, args) => Occurs(m, f) || exists i | 0 <= i < |args| :: Occurs(m, args[i])
       case Attribute(v, _) => Occurs(m, v)
       case Other(ch) => exists i | 0 <= i < |ch| :: Occurs(m, ch[i])
       case _ => false
  }

  /** The reference reading of vetting: no node anywhere in the tree fails its local checks. */
  ghost predicate EveryNodeOk(n: Node) {
    forall m :: Occurs(m, n) ==> LocalOk(m)
  }

  /** The children of a node in the order the walk visits them. */
  function Children(n: Node): seq<Node> {
    match n
    case Call(f, args) => [f] + args
    case Attribute(v, _) => [v]
    case Other(ch) => ch
    case _ => []
  }

  /** Every node below a child also occurs below its parent. */
  lemma OccursThroughChild(m: Node, c: Node, n: Node)
    requires Occurs(m, c)
    requires c in Children(n)
    ensures Occurs(m, n)
  {
    match n {
      case Call(f, args) =>
        if c != f {
          var i :| 0 <= i < |args| && args[i] == c;
        }
      case Attribute(v, _) =>
      case Other(ch) =>
        var i :| 0 <= i < |ch| && ch[i] == c;
    }
  }

  /**
   * Vetting is all-or-nothing: the walk accepts a tree exactly when every node in it
   * passes the local checks, so one failing node anywhere rejects the whole tree.
   */
  lemma {:induction false} ValidateIffEveryNodeOk(n: Node)
    ensures ValidateAst(n) <==> EveryNodeOk(n)
    decreases n
  {
    match n {
      case Call(f, args) =>
        ValidateIffEveryNodeOk(f);
        forall i | 0 <= i < |args| {
          ValidateIffEveryNodeOk(args[i]);
        }
        if ValidateAst(n) {
          forall m | Occurs(m, n) ensures LocalOk(m) {
            if m != n && !Occurs(m, f) {
              var i :| 0 <= i < |args| && Occurs(m, args[i]);
            }
          }
        } else if LocalOk(n) {
          if !ValidateAst(f) {
            var m :| Occurs(m, f) && !LocalOk(m);
            OccursThroughChild(m, f, n);
          } else {
            var i :| 0 <= i < |args| && !ValidateAst(args[i]);
            var m :| Occurs(m, args[i]) && !LocalOk(m);
            OccursThroughChild(m, args[i], n);
          }
        }
      case Attribute(v, _) =>
        ValidateIffEveryNodeOk(v);
        if !ValidateAst(n) && LocalOk(n) {
          var m :| Occurs(m, v) && !LocalOk(m);
          OccursThroughChild(m, v, n);
        }
      case Other(ch) =>
        forall i | 0 <= i < |ch| {
          ValidateIffEveryNodeOk(ch[i]);
        }
        if ValidateAst(n) {
          forall m | Occurs(m, n) ensures LocalOk(m) {
            if m != n {
              var i :| 0 <= i < |ch| && Occurs(m, ch[i]);
            }
          }
        } else if LocalOk(n) {
          var i :| 0 <= i < |ch| && !ValidateAst(ch[i]);
          var m :| Occurs(m, ch[i]) && !LocalOk(m);
          OccursThroughChild(m, ch[i], n);
        }
      case _ =>
        assert forall m :: Occurs(m, n) ==> m == n;
    }
  }

  /** `_validate_ast` as written: the local checks, then a loop over the children that stops at the first rejection. */
  method Validate(n: Node) returns (ok: bool)
    ensures ok <==> EveryNodeOk(n)
    decreases n
  {
    ValidateIffEveryNodeOk(n);
    if !LocalOk(n) {
      return false;
    }
    match n {
      case Call(f, args) =>
        ok := Validate(f);
        ValidateIffEveryNodeOk(f);
        if !ok {
          return;
        }
        var i := 0;
        while i < |args|
          invariant 0 <= i <= |args|
          invariant forall j :: 0 <= j < i ==> ValidateAst(args[j])
        {
          ok := Validate(args[i]);
          ValidateIffEveryNodeOk(args[i]);
          if !ok {
            return;
          }
          i := i + 1;
        }
        return true;
      case Attribute(v, _) =>
        ok := Validate(v);
        ValidateIffEveryNodeOk(v);
      case Other(ch) =>
        var i := 0;
        while i < |ch|
          invariant 0 <= i <= |ch|
          invariant forall j :: 0 <= j < i ==> ValidateAst(ch[j])
        {
          ok := Validate(ch[i]);
          ValidateIffEveryNodeOk(ch[i]);
          if !ok {
            return;
          }
          i := i + 1;
        }
        return true;
      case _ =>
        return true;
    }
  }

  /**
   * `validate_code`: text that does not parse (`None`) is rejected; a parsed tree is
   * accepted exactly when every node in it passes the local checks.
   */
  function ValidateCode(parsed: Option<Node>): (ok: bool)
    ensures ok <==> parsed.Some? && EveryNodeOk(parsed.value)
  {
    match parsed
    case None => false
    case Some(tree) => ValidateIffEveryNodeOk(tree); ValidateAst(tree)
  }

  /** An import statement anywhere in the tree rejects it. */
  lemma ImportAnywhereRejects(n: Node)
    requires Occurs(Import, n) || Occurs(ImportFrom, n)
    ensures !ValidateAst(n)
  {
    ValidateIffEveryNodeOk(n);
  }

  /** A denied name anywhere in the tree rejects it, whether or not it is called. */
  lemma DeniedNameAnywhereRejects(n: Node, id: string)
    requires id in DeniedNames && Occurs(Name(id), n)
    ensures !ValidateAst(n)
  {
    ValidateIffEveryNodeOk(n);
  }

  /** In an accepted tree every call by bare name is to one of the 21 allowed functions. */
  lemma AcceptedBareCallsAreAllowed(n: Node, id: string, args: seq<Node>)
    requires ValidateAst(n) && Occurs(Call(Name(id), args), n)
    ensures id in AllowedFunctions || id in AllowedBuiltins
  {
    ValidateIffEveryNodeOk(n);
  }

  /** In an accepted tree no method call uses a denied attribute. */
  lemma AcceptedMethodCallsAreNotDenied(n: Node, v: Node, attr: string, args: seq<Node>)
    requires ValidateAst(n) && Occurs(Call(Attribute(v, attr), args), n)
    ensures attr !in DeniedAttributes
  {
    ValidateIffEveryNodeOk(n);
  }

  /** The tree of a one-statement module whose statement is the expression `e`. */
  function Stmt(e: Node): Node {
    Other([e])
  }

  /** `import os` is rejected. */
  lemma ImportRejected()
    ensures !ValidateCode(Some(Other([Import])))
  {
    assert !ValidateAst(Other([Import]).children[0]);
  }

  /** `move_forward()` then `turn_right()` is accepted. */
  lemma MovesAccepted()
    ensures ValidateCode(Some(Other([Stmt(Call(Name("move_forward"), [])), Stmt(Call(Name("turn_right"), []))])))
  {
    assert ValidateAst(Stmt(Call(Name("move_forward"), [])));
    assert ValidateAst(Stmt(Call(Name("turn_right"), [])));
  }

  /** A lone `move_forward()` is accepted. */
  lemma MoveForwardAccepted()
    ensures ValidateCode(Some(Other([Stmt(Call(Name("move_forward"), []))])))
  {
    assert ValidateAst(Stmt(Call(Name("move_forward"), [])));
  }

  /**
   * A method call on an arbitrary object passes: `os.system('rm -rf /')` is accepted,
   * although the method's own example claims it is blocked. Naming `open` without
   * calling it (`x = open`) is rejected.
   */
  lemma AttributeCallAcceptedBareOpenRejected()
    ensures ValidateCode(Some(Other([Stmt(Call(Attribute(Name("os"), "system"), [Other([])]))])))
    ensures !ValidateCode(Some(Other([Other([Name("x"), Name("open")])])))
  {
    var call := Call(Attribute(Name("os"), "system"), [Other([])]);
    assert ValidateAst(call.func);
    assert ValidateAst(call.args[0]);
    assert ValidateAst(call);
    assert ValidateAst(Stmt(call));
    var assign := Other([Name("x"), Name("open")]);
    assert !ValidateAst(assign.children[1]);
    assert !ValidateAst(Other([assign]).children[0]);
  }
}
