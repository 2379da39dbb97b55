/**
 * `extractNamedFunctionsFromSource`: the visitor pass over one file's
 * syntax tree that collects the names of named `function` declarations and
 * of `const x = () => …` arrow bindings. The tree is an abstract rendering of
 * the parser's output, reduced to the node kinds the visitor tells apart.
 */
module Extract {
  import opened Wrappers
  import opened InsertionSet

  /**
   * The target of a variable declarator: a plain identifier or a
   * destructuring pattern. A pattern holds the nodes written inside it
   * (default values, computed keys), in traversal order.
   */
  datatype Pattern =
    | Identifier(name: string)
    | ObjectPattern(elements: seq<Node>)
    | ArrayPattern(elements: seq<Node>)

  datatype Node =
    | FunctionDeclaration(id: Option<string>, body: seq<Node>)
    | VariableDeclaration(declarations: seq<Declarator>)
    | ArrowFunctionExpression(body: seq<Node>)
    | FunctionExpression(id: Option<string>, body: seq<Node>)
    /** Any other node kind, with its child nodes in traversal order. */
    | OtherNode(children: seq<Node>)

  /** `id = init`, or a bare `id` when there is no initialiser. */
  datatype Declarator = Initialised(id: Pattern, init: Node) | Uninitialised(id: Pattern)

  /** The declarator binds a plain identifier to an arrow function. */
  predicate IsArrowBinding(d: Declarator) {
    d.Initialised? && d.id.Identifier? && d.init.ArrowFunctionExpression?
  }

  /** The names the `VariableDeclaration` visitor adds, in declarator order. */
  function ArrowBindingNames(ds: seq<Declarator>): (names: seq<string>)
  {
    if ds == [] then []
    else
      var d := ds[|ds| - 1];
      ArrowBindingNames(ds[..|ds| - 1]) + (if IsArrowBinding(d) then [d.id.name] else [])
  }

  /**
   * The names the visitors add while the traversal walks `nodes`, in the
   * order they are added (a name may occur more than once). A node's own
   * visitor runs before the traversal enters its children.
   */
  function NamesInNodes(nodes: seq<Node>): (names: seq<string>)
    decreases nodes
  {
    if nodes == [] then []
    else NamesInNodes(nodes[..|nodes| - 1]) + NamesInNode(nodes[|nodes| - 1])
  }

  function NamesInNode(n: Node): (names: seq<string>)
    decreases n
  {
    match n
    case FunctionDeclaration(id, body) =>
      (if id.Some? then [id.value] else []) + NamesInNodes(body)
    case VariableDeclaration(ds) => ArrowBindingNames(ds) + NamesInDeclarators(ds)
    case ArrowFunctionExpression(body) => NamesInNodes(body)
    case FunctionExpression(_, body) => NamesInNodes(body)
    case OtherNode(children) => NamesInNodes(children)
  }

  /** The names found inside the declarators' targets and initialisers. */
  function NamesInDeclarators(ds: seq<Declarator>): (names: seq<string>)
    decreases ds
  {
    if ds == [] then []
    else
      NamesInDeclarators(ds[..|ds| - 1]) + NamesInDeclarator(ds[|ds| - 1])
  }

  /** A declarator's children are entered target first, then initialiser. */
  function NamesInDeclarator(d: Declarator): (names: seq<string>)
    decreases d
  {
    NamesInPattern(d.id) + (if d.Initialised? then NamesInNode(d.init) else [])
  }

  function NamesInPattern(p: Pattern): (names: seq<string>)
    decreases p
  {
    if p.Identifier? then [] else NamesInNodes(p.elements)
  }

  // Reference definition of what the pass finds: the nodes of the tree, at
  // any depth, and the name each of them defines.

  /** `m` is one of `nodes` or lies somewhere inside one of them. */
  ghost predicate OccursIn(m: Node, nodes: seq<Node>)
    decreases nodes
  {
    exists i :: 0 <= i < |nodes| && OccursInNode(m, nodes[i])
  }

  ghost predicate OccursInNode(m: Node, n: Node)
    decreases n
  {
    m == n ||
    match n
    case FunctionDeclaration(_, body) => OccursIn(m, body)
    case VariableDeclaration(ds) => OccursInDeclarators(m, ds)
    case ArrowFunctionExpression(body) => OccursIn(m, body)
    case FunctionExpression(_, body) => OccursIn(m, body)
    case OtherNode(children) => OccursIn(m, children)
  }

  ghost predicate OccursInDeclarators(m: Node, ds: seq<Declarator>)
    decreases ds
  {
    exists i :: 0 <= i < |ds| && DeclaratorOccurs(m, ds[i])
  }

  /** `m` lies inside the declarator's pattern or its initialiser. */
  ghost predicate DeclaratorOccurs(m: Node, d: Declarator)
    decreases d
  {
    (!d.id.Identifier? && OccursIn(m, d.id.elements)) ||
    (d.Initialised? && OccursInNode(m, d.init))
  }

  /**
   * `m` itself defines `name`: a function declaration with that id, or a
   * variable declaration with a declarator binding `name` to an arrow function.
   */
  ghost predicate Defines(m: Node, name: string) {
    match m
    case FunctionDeclaration(id, _) => id == Some(name)
    case VariableDeclaration(ds) =>
      exists i :: 0 <= i < |ds| && IsArrowBinding(ds[i]) && ds[i].id.name == name
    case _ => false
  }

  lemma {:induction false} ArrowBindingNamesExact(ds: seq<Declarator>, name: string)
    ensures name in ArrowBindingNames(ds) <==>
      exists i :: 0 <= i < |ds| && IsArrowBinding(ds[i]) && ds[i].id.name == name
  {
    if ds != [] {
      var init := ds[..|ds| - 1];
      ArrowBindingNamesExact(init, name);
      if exists i :: 0 <= i < |ds| && IsArrowBinding(ds[i]) && ds[i].id.name == name {
        var i :| 0 <= i < |ds| && IsArrowBinding(ds[i]) && ds[i].id.name == name;
        if i < |init| {
          assert init[i] == ds[i];
        }
      }
      if exists i :: 0 <= i < |init| && IsArrowBinding(init[i]) && init[i].id.name == name {
        var i :| 0 <= i < |init| && IsArrowBinding(init[i]) && init[i].id.name == name;
        assert ds[i] == init[i];
      }
    }
  }

  /**
   * The pass finds exactly the names defined by the nodes of the tree, at
   * any depth: named function declarations and arrow bindings, and nothing
   * else (no anonymous declarations, function-expression initialisers,
   * missing initialisers or destructuring targets; the nodes inside a
   * destructuring pattern are searched like any others).
   */
  lemma {:induction false} NamesInNodesExact(nodes: seq<Node>, name: string)
    ensures name in NamesInNodes(nodes) <==> exists m :: OccursIn(m, nodes) && Defines(m, name)
    decreases nodes
  {
    if nodes != [] {
      var init, last := nodes[..|nodes| - 1], nodes[|nodes| - 1];
      NamesInNodesExact(init, name);
      NamesInNodeExact(last, name);
      if exists m :: OccursIn(m, nodes) && Defines(m, name) {
        var m :| OccursIn(m, nodes) && Defines(m, name);
        OccursInSplit(m, nodes);
      }
      if exists m :: OccursIn(m, init) && Defines(m, name) {
        var m :| OccursIn(m, init) && Defines(m, name);
        OccursInSplit(m, nodes);
      }
      if exists m :: OccursInNode(m, last) && Defines(m, name) {
        var m :| OccursInNode(m, last) && Defines(m, name);
        OccursInSplit(m, nodes);
      }
    }
  }

  /** A node occurs under a non-empty sequence iff under its front or its last element. */
  lemma OccursInSplit(m: Node, nodes: seq<Node>)
    requires nodes != []
    ensures OccursIn(m, nodes) <==> OccursIn(m, nodes[..|nodes| - 1]) || OccursInNode(m, nodes[|nodes| - 1])
  {
    var init := nodes[..|nodes| - 1];
    if OccursIn(m, nodes) {
      var i :| 0 <= i < |nodes| && OccursInNode(m, nodes[i]);
      if i < |init| {
        assert init[i] == nodes[i];
      }
    }
    if OccursIn(m, init) {
      var i :| 0 <= i < |init| && OccursInNode(m, init[i]);
      assert nodes[i] == init[i];
    }
  }


  lemma {:induction false} NamesInNodeExact(n: Node, name: string)
    ensures name in NamesInNode(n) <==> exists m :: OccursInNode(m, n) && Defines(m, name)
    decreases n
  {
    match n
    case FunctionDeclaration(id, body) =>
      NamesInNodesExact(body, name);
      if id == Some(name) {
        assert OccursInNode(n, n) && Defines(n, name);
      }
      if exists m :: OccursIn(m, body) && Defines(m, name) {
        var m :| OccursIn(m, body) && Defines(m, name);
        assert OccursInNode(m, n);
      }
      if exists m :: OccursInNode(m, n) && Defines(m, name) {
        var m :| OccursInNode(m, n) && Defines(m, name);
        if m != n {
          assert OccursIn(m, body);
        }
      }
    case VariableDeclaration(ds) =>
      ArrowBindingNamesExact(ds, name);
      NamesInDeclaratorsExact(ds, name);
      if name in ArrowBindingNames(ds) {
        assert OccursInNode(n, n) && Defines(n, name);
      }
      if exists m :: OccursInDeclarators(m, ds) && Defines(m, name) {
        var m :| OccursInDeclarators(m, ds) && Defines(m, name);
        assert OccursInNode(m, n);
      }
      if exists m :: OccursInNode(m, n) && Defines(m, name) {
        var m :| OccursInNode(m, n) && Defines(m, name);
        if m != n {
          assert OccursInDeclarators(m, ds);
        }
      }
    case ArrowFunctionExpression(body) =>
      NamesInNodesExact(body, name);
      ChildOccurrence(n, body, name);
    case FunctionExpression(_, body) =>
      NamesInNodesExact(body, name);
      ChildOccurrence(n, body, name);
    case OtherNode(children) =>
      NamesInNodesExact(children, name);
      ChildOccurrence(n, children, name);
  }

  /** For a node that defines nothing itself, the definitions inside it are those of its children. */
  lemma ChildOccurrence(n: Node, children: seq<Node>, name: string)
    requires n.ArrowFunctionExpression? || n.FunctionExpression? || n.OtherNode?
    requires children == (if n.OtherNode? then n.children else n.body)
    ensures (exists m :: OccursInNode(m, n) && Defines(m, name)) <==>
            (exists m :: OccursIn(m, children) && Defines(m, name))
  {
    if exists m :: OccursIn(m, children) && Defines(m, name) {
      var m :| OccursIn(m, children) && Defines(m, name);
      assert OccursInNode(m, n);
    }
  }

  lemma {:induction false} NamesInDeclaratorsExact(ds: seq<Declarator>, name: string)
    ensures name in NamesInDeclarators(ds) <==> exists m :: OccursInDeclarators(m, ds) && Defines(m, name)
    decreases ds
  {
    if ds != [] {
      var init, d := ds[..|ds| - 1], ds[|ds| - 1];
      NamesInDeclaratorsExact(init, name);
      NamesInDeclaratorExact(d, name);
      if exists m :: OccursInDeclarators(m, ds) && Defines(m, name) {
        var m :| OccursInDeclarators(m, ds) && Defines(m, name);
        OccursInDeclaratorsSplit(m, ds);
      }
      if exists m :: OccursInDeclarators(m, init) && Defines(m, name) {
        var m :| OccursInDeclarators(m, init) && Defines(m, name);
        OccursInDeclaratorsSplit(m, ds);
      }
      if exists m :: DeclaratorOccurs(m, d) && Defines(m, name) {
        var m :| DeclaratorOccurs(m, d) && Defines(m, name);
        OccursInDeclaratorsSplit(m, ds);
      }
    }
  }

  /** A node occurs under a non-empty declarator list iff under its front or its last declarator. */
  lemma OccursInDeclaratorsSplit(m: Node, ds: seq<Declarator>)
    requires ds != []
    ensures OccursInDeclarators(m, ds) <==>
      OccursInDeclarators(m, ds[..|ds| - 1]) || DeclaratorOccurs(m, ds[|ds| - 1])
  {
    var init := ds[..|ds| - 1];
    if OccursInDeclarators(m, ds) {
      var i :| 0 <= i < |ds| && DeclaratorOccurs(m, ds[i]);
      if i < |init| {
        assert init[i] == ds[i];
      }
    }
    if OccursInDeclarators(m, init) {
      var i :| 0 <= i < |init| && DeclaratorOccurs(m, init[i]);
      assert ds[i] == init[i];
    }
  }

  lemma {:induction false} NamesInDeclaratorExact(d: Declarator, name: string)
    ensures name in NamesInDeclarator(d) <==> exists m :: DeclaratorOccurs(m, d) && Defines(m, name)
    decreases d
  {
    var fromId := NamesInPattern(d.id);
    var fromInit := if d.Initialised? then NamesInNode(d.init) else [];
    if !d.id.Identifier? {
      NamesInNodesExact(d.id.elements, name);
    }
    if d.Initialised? {
      NamesInNodeExact(d.init, name);
    }
    assert name in NamesInDeclarator(d) <==> name in fromId || name in fromInit;
    if exists m :: DeclaratorOccurs(m, d) && Defines(m, name) {
      var m :| DeclaratorOccurs(m, d) && Defines(m, name);
      if !d.id.Identifier? && OccursIn(m, d.id.elements) {
        assert name in fromId;
      } else {
        assert name in fromInit;
      }
    }
  }

  /** The name set of one file: `Set` insertion of every name, in the order found. */
  function FileFunctionNames(program: seq<Node>): (names: seq<string>)
    ensures Distinct(names)
    ensures forall x :: x in names <==> x in NamesInNodes(program)
  {
    AddAll([], NamesInNodes(program))
  }

  /** The `VariableDeclaration` visitor: `declarations.forEach(…)` adding arrow bindings. */
  method VisitVariableDeclaration(ds: seq<Declarator>, names: seq<string>) returns (names': seq<string>)
    ensures names' == AddAll(names, ArrowBindingNames(ds))
  {
    names' := names;
    for i := 0 to |ds|
      invariant names' == AddAll(names, ArrowBindingNames(ds[..i]))
    {
      var declaration := ds[i];
      assert ds[..i + 1][..i] == ds[..i];
      if IsArrowBinding(declaration) {
        assert ArrowBindingNames(ds[..i + 1]) == ArrowBindingNames(ds[..i]) + [declaration.id.name];
        AddAllConcat(names, ArrowBindingNames(ds[..i]), [declaration.id.name]);
        AddAllOne(names', declaration.id.name);
        names' := Add(names', declaration.id.name);
      } else {
        assert ArrowBindingNames(ds[..i + 1]) == ArrowBindingNames(ds[..i]) + [];
        assert ArrowBindingNames(ds[..i]) + [] == ArrowBindingNames(ds[..i]);
      }
    }
    assert ds[..|ds|] == ds;
  }

  /** The traversal of a sequence of sibling nodes, in order. */
  method TraverseNodes(nodes: seq<Node>, names: seq<string>) returns (names': seq<string>)
    ensures names' == AddAll(names, NamesInNodes(nodes))
    decreases nodes
  {
    names' := names;
    for i := 0 to |nodes|
      invariant names' == AddAll(names, NamesInNodes(nodes[..i]))
    {
      assert nodes[..i + 1][..i] == nodes[..i];
      AddAllConcat(names, NamesInNodes(nodes[..i]), NamesInNode(nodes[i]));
      names' := TraverseNode(nodes[i], names');
    }
    assert nodes[..|nodes|] == nodes;
  }

  /** Entering one node: its own visitor first, then its children. */
  method TraverseNode(n: Node, names: seq<string>) returns (names': seq<string>)
    ensures names' == AddAll(names, NamesInNode(n))
    decreases n
  {
    match n
    case FunctionDeclaration(id, body) =>
      var own := if id.Some? then [id.value] else [];
      names' := if id.Some? then Add(names, id.value) else names;
      assert names' == AddAll(names, own) by {
        if id.Some? {
          assert own[..0] == [];
        }
      }
      AddAllConcat(names, own, NamesInNodes(body));
      names' := TraverseNodes(body, names');
    case VariableDeclaration(ds) =>
      names' := VisitVariableDeclaration(ds, names);
      AddAllConcat(names, ArrowBindingNames(ds), NamesInDeclarators(ds));
      names' := TraverseDeclarators(ds, names');
    case ArrowFunctionExpression(body) =>
      names' := TraverseNodes(body, names);
    case FunctionExpression(_, body) =>
      names' := TraverseNodes(body, names);
    case OtherNode(children) =>
      names' := TraverseNodes(children, names);
  }

  /** Entering each declarator, in declarator order. */
  method TraverseDeclarators(ds: seq<Declarator>, names: seq<string>) returns (names': seq<string>)
    ensures names' == AddAll(names, NamesInDeclarators(ds))
    decreases ds
  {
    names' := names;
    for i := 0 to |ds|
      invariant names' == AddAll(names, NamesInDeclarators(ds[..i]))
    {
      assert ds[..i + 1][..i] == ds[..i];
      AddAllConcat(names, NamesInDeclarators(ds[..i]), NamesInDeclarator(ds[i]));
      names' := TraverseDeclarator(ds[i], names');
    }
    assert ds[..|ds|] == ds;
  }

  /** Entering one declarator: the nodes inside its pattern, then its initialiser, when it has one. */
  method TraverseDeclarator(d: Declarator, names: seq<string>) returns (names': seq<string>)
    ensures names' == AddAll(names, NamesInDeclarator(d))
    decreases d
  {
    var fromInit := if d.Initialised? then NamesInNode(d.init) else [];
    AddAllConcat(names, NamesInPattern(d.id), fromInit);
    if d.id.Identifier? {
      names' := names;
    } else {
      names' := TraverseNodes(d.id.elements, names);
    }
    if d.Initialised? {
      names' := TraverseNode(d.init, names');
    }
  }

  /**
   * `extractNamedFunctionsFromSource` on a file that parsed: the set of
   * names, in the order the traversal first meets them.
   */
  method ExtractNamedFunctionsFromSource(program: seq<Node>) returns (namedFunctions: seq<string>)
    ensures namedFunctions == FileFunctionNames(program)
    ensures Distinct(namedFunctions)
  {
    namedFunctions := TraverseNodes(program, []);
  }
}
