/**
 * The namespace extension of the scaffolder: it puts the generated package
 * inside a hierarchy of namespace packages (package `mypkg` under namespace
 * `bigcorp.division` becomes importable as `bigcorp.division.mypkg`).
 *
 * Two actions run on the pair (file tree, options):
 * - `enforce_namespace_options` defaults and normalises the `namespace`
 *   option and derives `root_pkg` and `namespace_pkg` from it;
 * - `add_namespace` moves the package directory down one new directory per
 *   namespace segment, each new directory holding an `__init__.py`.
 *
 * `utils.prepare_namespace` and `templates.namespace` are not part of this
 * model; they are passed in as functions.
 */
module Namespace {
  import opened Wrappers
  import opened Strings
  import opened Structure

  /** The option values the two actions look at. */
  datatype Value = Null | Str(s: string) | List(items: seq<string>)

  type Options = map<string, Value>

  /** What `utils.prepare_namespace` returns: a non-empty list of names. */
  type Namespaces = s: seq<string> | |s| > 0 witness [""]

  /** The exceptions the two actions can raise. */
  datatype Error = KeyError(key: Value) | TypeError

  /** The state left behind by an action that may stop with an exception. */
  datatype Effect<S> = Effect(state: S, raised: Option<Error>)

  /** The package marker file written into every namespace directory. */
  const InitFile := "__init__.py"

  /** Python truth value of an option: `None`, `""` and `[]` are false. */
  predicate Truthy(v: Value): (b: bool)
    ensures b <==> v != Null && v != Str("") && v != List([])
  {
    match v
    case Null => false
    case Str(s) => s != ""
    case List(items) => items != []
  }

  /** `opts.get('namespace', None)`: the value `opts.setdefault('namespace', None)` leaves. */
  function NamespaceOf(opts: Options): (r: Value)
    ensures "namespace" in opts ==> opts["namespace" := r] == opts
    ensures "namespace" !in opts ==> r == Null
  {
    if "namespace" in opts then opts["namespace"] else Null
  }

  // ---------------------------------------------------------------------------
  // enforce_namespace_options
  // ---------------------------------------------------------------------------

  /**
   * The options after `enforce_namespace_options`, and the exception it raises
   * if any. An exception from reading `opts['package']` leaves the updates made
   * before it (the normalised `namespace` and `root_pkg`) in place.
   */
  function EnforcedOptions(opts: Options, prepare: Value -> Namespaces): (r: Effect<Options>)
    // `namespace` is always present afterwards, `None` when it was absent
    ensures "namespace" in r.state
    ensures "namespace" !in opts ==> r.state["namespace"] == Null
    // only the three namespace options can change or appear
    ensures r.state.Keys <= opts.Keys + {"namespace", "root_pkg", "namespace_pkg"}
    ensures forall k :: k in opts && k != "namespace" && k != "root_pkg" && k != "namespace_pkg" ==>
                          k in r.state && r.state[k] == opts[k]
    // a false namespace changes nothing else and never raises
    ensures !Truthy(NamespaceOf(opts)) ==>
              r.raised == None && r.state.Keys == opts.Keys + {"namespace"} &&
              forall k :: k in opts ==> r.state[k] == opts[k]
    // a true namespace is normalised and names the root package
    ensures Truthy(NamespaceOf(opts)) ==>
              var names := prepare(NamespaceOf(opts));
              r.state["namespace"] == List(names) &&
              "root_pkg" in r.state && r.state["root_pkg"] == Str(names[0])
    // the namespace package is the last name, a dot and the package name
    ensures Truthy(NamespaceOf(opts)) && r.raised == None ==>
              var names := prepare(NamespaceOf(opts));
              "package" in opts && opts["package"].Str? && "namespace_pkg" in r.state &&
              r.state["namespace_pkg"] == Str(names[|names| - 1] + "." + opts["package"].s)
    // it raises exactly when the package name is needed and missing or not a string
    ensures r.raised == Some(KeyError(Str("package"))) <==> Truthy(NamespaceOf(opts)) && "package" !in opts
    ensures r.raised == Some(TypeError) <==>
              Truthy(NamespaceOf(opts)) && "package" in opts && !opts["package"].Str?
    ensures r.raised.Some? ==> r.raised == Some(KeyError(Str("package"))) || r.raised == Some(TypeError)
    // raising before the assignment leaves `namespace_pkg` as it was
    ensures r.raised.Some? ==> ("namespace_pkg" in r.state <==> "namespace_pkg" in opts)
    ensures r.raised.Some? && "namespace_pkg" in opts ==> r.state["namespace_pkg"] == opts["namespace_pkg"]
  {
    var ns := NamespaceOf(opts);
    var defaulted := opts["namespace" := ns];
    if !Truthy(ns) then Effect(defaulted, None)
    else
      var names := prepare(ns);
      var partial := defaulted["namespace" := List(names)]["root_pkg" := Str(names[0])];
      if "package" !in partial then Effect(partial, Some(KeyError(Str("package"))))
      else
        var package := partial["package"];
        if !package.Str? then Effect(partial, Some(TypeError))
        else
          var joined := Join([names[|names| - 1], package.s], '.');
          Effect(partial["namespace_pkg" := Str(joined)], None)
  }

  // ---------------------------------------------------------------------------
  // add_namespace
  // ---------------------------------------------------------------------------

  /** Where the package directory sits: `struct[project][package]`. */
  datatype Location = Location(project: string, package: string)

  /**
   * `opts['namespace'][-1]`: the last name of the normalised list. Should the
   * option still be a plain string, Python indexes its last character instead.
   */
  function LastNamespace(ns: Value): (r: string)
    requires Truthy(ns)
    ensures ns.List? ==> ns.items == ns.items[..|ns.items| - 1] + [r]
    ensures ns.Str? ==> |r| == 1 && ns.s == ns.s[..|ns.s| - 1] + r
  {
    if ns.Str? then [ns.s[|ns.s| - 1]] else ns.items[|ns.items| - 1]
  }

  /** `opts['namespace'][-1].split('.')`: the segments, outermost first. */
  function Segments(ns: Value): (r: seq<string>)
    requires Truthy(ns)
    ensures |r| >= 1
    ensures forall i :: 0 <= i < |r| ==> '.' !in r[i] && r[i] != InitFile
    ensures Join(r, '.') == LastNamespace(ns)
  {
    assert InitFile[8] == '.';
    Split(LastNamespace(ns), '.')
  }

  /**
   * The lookup `struct[opts['project']][opts['package']]`, in Python's order of
   * evaluation: a missing key raises `KeyError`, an unhashable key (a list) or
   * a file in place of the project directory raises `TypeError`.
   */
  function Locate(struct: map<string, Node>, opts: Options): (r: Result<Location, Error>)
    ensures r.Success? <==>
              "project" in opts && opts["project"].Str? && opts["project"].s in struct &&
              struct[opts["project"].s].Dir? &&
              "package" in opts && opts["package"].Str? &&
              opts["package"].s in struct[opts["project"].s].entries
    ensures r.Success? ==> r.value == Location(opts["project"].s, opts["package"].s)
    // each failure of the lookup, in the order Python evaluates the expression
    ensures "project" !in opts ==> r == Failure(KeyError(Str("project")))
    ensures "project" in opts && opts["project"].List? ==> r == Failure(TypeError)
    ensures "project" in opts && (opts["project"].Null? || (opts["project"].Str? && opts["project"].s !in struct)) ==>
              r == Failure(KeyError(opts["project"]))
    ensures "project" in opts && opts["project"].Str? && opts["project"].s in struct && "package" !in opts ==>
              r == Failure(KeyError(Str("package")))
    ensures "project" in opts && opts["project"].Str? && opts["project"].s in struct && "package" in opts &&
            (struct[opts["project"].s].File? || opts["package"].List?) ==>
              r == Failure(TypeError)
    ensures "project" in opts && opts["project"].Str? && opts["project"].s in struct &&
            struct[opts["project"].s].Dir? && "package" in opts && opts["package"].Null? ==>
              r == Failure(KeyError(Null))
    ensures "project" in opts && opts["project"].Str? && opts["project"].s in struct &&
            struct[opts["project"].s].Dir? &&
            "package" in opts && opts["package"].Str? &&
            opts["package"].s !in struct[opts["project"].s].entries ==>
              r == Failure(KeyError(opts["package"]))
  {
    if "project" !in opts then Failure(KeyError(Str("project")))
    else
      var project := opts["project"];
      if project.List? then Failure(TypeError)
      else if project.Null? || project.s !in struct then Failure(KeyError(project))
      else if "package" !in opts then Failure(KeyError(Str("package")))
      else
        var package := opts["package"];
        if struct[project.s].File? || package.List? then Failure(TypeError)
        else if package.Null? || package.s !in struct[project.s].entries then Failure(KeyError(package))
        else Success(Location(project.s, package.s))
  }

  /**
   * The entries a chain of namespace directories adds: one directory per
   * segment, nested in order, each holding `__init__.py` with `init` and the
   * next directory; the innermost one also holds `leaf`.
   */
  function Nest(segs: seq<string>, init: string, leaf: map<string, Node>): (r: map<string, Node>)
    ensures r.Keys == if segs == [] then leaf.Keys else {segs[0]}
  {
    if segs == [] then leaf
    else map[segs[0] := Dir(map[InitFile := File(init)] + Nest(segs[1..], init, leaf))]
  }

  /**
   * The tree after the package directory `project/package` has been moved
   * below the chain of namespace directories `segs`.
   */
  function Relocate(struct: map<string, Node>, loc: Location, segs: seq<string>, init: string): (r: map<string, Node>)
    requires loc.project in struct && struct[loc.project].Dir?
    requires loc.package in struct[loc.project].entries
    requires |segs| >= 1
    // top-level entries other than the project directory are untouched
    ensures r.Keys == struct.Keys
    ensures forall k :: k in struct && k != loc.project ==> r[k] == struct[k]
    // in the project directory the package gives way to the first segment
    ensures r[loc.project].Dir?
    ensures r[loc.project].entries.Keys ==
              struct[loc.project].entries.Keys - {loc.package} + {segs[0]}
    ensures forall k :: k in struct[loc.project].entries && k != loc.package && k != segs[0] ==>
                          r[loc.project].entries[k] == struct[loc.project].entries[k]
  {
    var project := struct[loc.project].entries;
    var moved := (project - {loc.package}) + Nest(segs, init, map[loc.package := project[loc.package]]);
    struct[loc.project := Dir(moved)]
  }

  /** The tree `add_namespace` returns, or the exception it raises. */
  function AddedNamespace(struct: map<string, Node>, opts: Options, template: Options -> string): (r: Result<map<string, Node>, Error>)
    ensures "namespace" !in opts ==> r == Failure(KeyError(Str("namespace")))
    ensures "namespace" in opts && !Truthy(opts["namespace"]) ==> r == Success(struct)
    ensures "namespace" in opts && Truthy(opts["namespace"]) ==>
              (r.Success? <==> Locate(struct, opts).Success?) &&
              (r.Failure? ==> r.error == Locate(struct, opts).error)
  {
    if "namespace" !in opts then Failure(KeyError(Str("namespace")))
    else if !Truthy(opts["namespace"]) then Success(struct)
    else
      var segs := Segments(opts["namespace"]);
      match Locate(struct, opts)
      case Failure(e) => Failure(e)
      case Success(loc) => Success(Relocate(struct, loc, segs, template(opts)))
  }

  // ---------------------------------------------------------------------------
  // Where things end up after add_namespace
  // ---------------------------------------------------------------------------

  /** Following the segments and then a leaf name leads to that leaf's node. */
  lemma {:induction false} FindInNest(base: map<string, Node>, segs: seq<string>, init: string, leaf: map<string, Node>, name: string)
    requires name in leaf
    ensures Find(Dir(base + Nest(segs, init, leaf)), segs + [name]) == Some(leaf[name])
    decreases |segs|
  {
    if segs != [] {
      var inner := map[InitFile := File(init)];
      assert (base + Nest(segs, init, leaf))[segs[0]] == Dir(inner + Nest(segs[1..], init, leaf));
      assert (segs + [name])[0] == segs[0] && (segs + [name])[1..] == segs[1..] + [name];
      FindInNest(inner, segs[1..], init, leaf, name);
    }
  }

  /** The directory at depth `i + 1` of the chain holds `__init__.py` and the rest of the chain. */
  lemma {:induction false} LevelInNest(base: map<string, Node>, segs: seq<string>, init: string, leaf: map<string, Node>, i: nat)
    requires i < |segs|
    ensures Find(Dir(base + Nest(segs, init, leaf)), segs[..i + 1]) ==
              Some(Dir(map[InitFile := File(init)] + Nest(segs[i + 1..], init, leaf)))
    decreases |segs|
  {
    var inner := map[InitFile := File(init)];
    assert (base + Nest(segs, init, leaf))[segs[0]] == Dir(inner + Nest(segs[1..], init, leaf));
    assert segs[..i + 1][0] == segs[0] && segs[..i + 1][1..] == segs[1..][..i];
    if i == 0 {
      assert segs[..1][1..] == [];
    } else {
      LevelInNest(inner, segs[1..], init, leaf, i - 1);
      assert segs[1..][i - 1 + 1..] == segs[i + 1..];
    }
  }

  /** The name following level `i` of the chain: the next segment, or the package at the bottom. */
  function NextName(segs: seq<string>, package: string, i: nat): string
    requires i < |segs|
  {
    if i + 1 < |segs| then segs[i + 1] else package
  }

  /** Looking below `project` in a tree whose project directory holds `entries`. */
  lemma FindBelowProject(struct: map<string, Node>, project: string, entries: map<string, Node>, path: seq<string>)
    ensures Find(Dir(struct[project := Dir(entries)]), [project] + path) == Find(Dir(entries), path)
  {
    assert ([project] + path)[0] == project && ([project] + path)[1..] == path;
  }

  /** After the move, the package subtree is found unchanged at `project/seg1/.../segk/package`. */
  lemma PackageRelocated(struct: map<string, Node>, loc: Location, segs: seq<string>, init: string)
    requires loc.project in struct && struct[loc.project].Dir?
    requires loc.package in struct[loc.project].entries
    requires |segs| >= 1
    ensures Find(Dir(Relocate(struct, loc, segs, init)), [loc.project] + segs + [loc.package]) ==
              Some(struct[loc.project].entries[loc.package])
  {
    var project := struct[loc.project].entries;
    var leaf := map[loc.package := project[loc.package]];
    var moved := (project - {loc.package}) + Nest(segs, init, leaf);
    FindInNest(project - {loc.package}, segs, init, leaf, loc.package);
    FindBelowProject(struct, loc.project, moved, segs + [loc.package]);
    assert [loc.project] + segs + [loc.package] == [loc.project] + (segs + [loc.package]);
  }

  /**
   * The directory at `project/seg1/.../seg(i+1)` of `tree` is namespace level
   * `i`: it holds exactly `__init__.py` and the next name (the next segment, or
   * the package in the innermost one), and its `__init__.py` has content
   * `init` unless the package itself is called `__init__.py` and overwrites it.
   */
  predicate IsNamespaceLevel(tree: map<string, Node>, loc: Location, segs: seq<string>, init: string, i: nat)
    requires i < |segs|
  {
    var level := Find(Dir(tree), [loc.project] + segs[..i + 1]);
    var next := NextName(segs, loc.package, i);
    && level.Some? && level.value.Dir?
    && level.value.entries.Keys == {InitFile, next}
    && (next != InitFile ==> level.value.entries[InitFile] == File(init))
  }

  /** Every namespace directory the move creates has the shape of its level. */
  lemma NamespaceLevel(struct: map<string, Node>, loc: Location, segs: seq<string>, init: string, i: nat)
    requires loc.project in struct && struct[loc.project].Dir?
    requires loc.package in struct[loc.project].entries
    requires i < |segs|
    ensures IsNamespaceLevel(Relocate(struct, loc, segs, init), loc, segs, init, i)
  {
    var project := struct[loc.project].entries;
    var leaf := map[loc.package := project[loc.package]];
    var moved := (project - {loc.package}) + Nest(segs, init, leaf);
    LevelInNest(project - {loc.package}, segs, init, leaf, i);
    FindBelowProject(struct, loc.project, moved, segs[..i + 1]);
  }

  /**
   * The whole effect of `add_namespace` with a true namespace and an existing
   * package directory: it succeeds; the levels are the segments of the last
   * namespace name in order (no segment is `__init__.py`, so every level but
   * possibly the innermost keeps the template's `__init__.py`); the package
   * subtree sits unchanged below the innermost level.
   */
  lemma AddNamespaceLayout(struct: map<string, Node>, opts: Options, template: Options -> string)
    requires "namespace" in opts && Truthy(opts["namespace"])
    requires Locate(struct, opts).Success?
    ensures var loc := Locate(struct, opts).value;
            var segs := Segments(opts["namespace"]);
            var r := AddedNamespace(struct, opts, template);
            && r.Success?
            && Join(segs, '.') == LastNamespace(opts["namespace"])
            && Find(Dir(r.value), [loc.project] + segs + [loc.package]) ==
                 Some(struct[loc.project].entries[loc.package])
            && forall i :: 0 <= i < |segs| ==> IsNamespaceLevel(r.value, loc, segs, template(opts), i)
  {
    var loc := Locate(struct, opts).value;
    var segs := Segments(opts["namespace"]);
    var init := template(opts);
    var moved := Relocate(struct, loc, segs, init);
    assert AddedNamespace(struct, opts, template) == Success(moved);
    PackageRelocated(struct, loc, segs, init);
    forall i | 0 <= i < |segs| ensures IsNamespaceLevel(moved, loc, segs, init, i) {
      NamespaceLevel(struct, loc, segs, init, i);
    }
  }

  /**
   * Run one after the other, the two actions agree: the `namespace_pkg` option
   * that `enforce_namespace_options` derives is the dotted import path of the
   * package directory that `add_namespace` moves (segments, then the package).
   */
  lemma NamespacePkgIsImportPath(opts: Options, prepare: Value -> Namespaces)
    requires Truthy(NamespaceOf(opts))
    requires EnforcedOptions(opts, prepare).raised == None
    ensures var o := EnforcedOptions(opts, prepare).state;
            && Truthy(o["namespace"])
            && "package" in o && o["package"].Str?
            && "namespace_pkg" in o
            && o["namespace_pkg"] == Str(Join(Segments(o["namespace"]) + [o["package"].s], '.'))
  {
    var o := EnforcedOptions(opts, prepare).state;
    var names := prepare(NamespaceOf(opts));
    var segs := Segments(o["namespace"]);
    JoinSnoc(segs, o["package"].s, '.');
    assert LastNamespace(o["namespace"]) == names[|names| - 1];
  }

  // ---------------------------------------------------------------------------
  // The actions as the scaffolder runs them: in place on (struct, opts)
  // ---------------------------------------------------------------------------

  /** One step of the cursor loop below the project directory, on the chain built so far. */
  lemma {:induction false} PutInNest(base: map<string, Node>, segs: seq<string>, init: string, leaf: map<string, Node>, name: string, child: Node)
    ensures PutAt(base + Nest(segs, init, leaf), segs, name, child) == base + Nest(segs, init, leaf[name := child])
    decreases |segs|
  {
    if segs != [] {
      var inner := map[InitFile := File(init)];
      var m := base + Nest(segs, init, leaf);
      var below := inner + Nest(segs[1..], init, leaf);
      var updated := inner + Nest(segs[1..], init, leaf[name := child]);
      assert m == base + map[segs[0] := Dir(below)];
      assert segs[0] in m && m[segs[0]] == Dir(below);
      PutInNest(inner, segs[1..], init, leaf, name, child);
      assert PutAt(m, segs, name, child) == m[segs[0] := Dir(updated)];
      assert Nest(segs, init, leaf[name := child]) == map[segs[0] := Dir(updated)];
      assert m[segs[0] := Dir(updated)] == base + map[segs[0] := Dir(updated)];
    }
  }

  /** A chain one segment longer is the shorter chain with a fresh directory at the bottom. */
  lemma {:induction false} NestSnoc(segs: seq<string>, seg: string, init: string, leaf: map<string, Node>)
    ensures Nest(segs + [seg], init, leaf) == Nest(segs, init, map[seg := Dir(map[InitFile := File(init)] + leaf)])
  {
    if segs != [] {
      assert (segs + [seg])[0] == segs[0] && (segs + [seg])[1..] == segs[1..] + [seg];
      NestSnoc(segs[1..], seg, init, leaf);
    }
  }

  /** `PutAt` along `[project] + path` descends into the project directory first. */
  lemma PutBelowProject(struct: map<string, Node>, project: string, entries: map<string, Node>,
                        path: seq<string>, name: string, child: Node)
    ensures PutAt(struct[project := Dir(entries)], [project] + path, name, child) ==
              struct[project := Dir(PutAt(entries, path, name, child))]
  {
    assert ([project] + path)[0] == project && ([project] + path)[1..] == path;
  }

  /**
   * One pass of the cursor loop: a fresh directory holding `__init__.py` is
   * stored under the next segment at the cursor, which lengthens the chain by one level.
   */
  lemma DescendStep(tree: map<string, Node>, project: string, base: map<string, Node>,
                    cursor: seq<string>, seg: string, init: string)
    ensures PutAt(tree[project := Dir(base + Nest(cursor, init, map[]))], [project] + cursor,
                  seg, Dir(map[InitFile := File(init)])) ==
            tree[project := Dir(base + Nest(cursor + [seg], init, map[]))]
  {
    var level := Dir(map[InitFile := File(init)]);
    PutBelowProject(tree, project, base + Nest(cursor, init, map[]), cursor, seg, level);
    PutInNest(base, cursor, init, map[], seg, level);
    NestSnoc(cursor, seg, init, map[]);
    assert map[InitFile := File(init)] + map[] == map[InitFile := File(init)];
    assert map[][seg := level] == map[seg := level];
  }

  /** The final assignment at the cursor puts the package below the innermost level. */
  lemma AttachPackage(tree: map<string, Node>, project: string, base: map<string, Node>,
                      segs: seq<string>, package: string, subtree: Node, init: string)
    ensures PutAt(tree[project := Dir(base + Nest(segs, init, map[]))], [project] + segs, package, subtree) ==
            tree[project := Dir(base + Nest(segs, init, map[package := subtree]))]
  {
    PutBelowProject(tree, project, base + Nest(segs, init, map[]), segs, package, subtree);
    PutInNest(base, segs, init, map[], package, subtree);
    assert map[][package := subtree] == map[package := subtree];
  }

  /** With a true namespace and the package found, `add_namespace` is the relocation. */
  lemma AddedNamespaceMoves(struct: map<string, Node>, opts: Options, template: Options -> string)
    requires "namespace" in opts && Truthy(opts["namespace"])
    requires Locate(struct, opts).Success?
    ensures AddedNamespace(struct, opts, template) ==
              Success(Relocate(struct, Locate(struct, opts).value, Segments(opts["namespace"]), template(opts)))
  {
  }

  /** The pair `(struct, opts)` that the scaffolder's actions receive and update in place. */
  class Project {
    var struct: map<string, Node>
    var opts: Options

    constructor (struct: map<string, Node>, opts: Options)
      ensures this.struct == struct && this.opts == opts
    {
      this.struct := struct;
      this.opts := opts;
    }

    /** `enforce_namespace_options`: updates the options in place; the tree is returned as it is. */
    method EnforceNamespaceOptions(prepare: Value -> Namespaces) returns (raised: Option<Error>)
      modifies this`opts
      ensures Effect(opts, raised) == EnforcedOptions(old(opts), prepare)
      ensures struct == old(struct)
    {
      if "namespace" !in opts {
        opts := opts["namespace" := Null];
      }
      assert opts == old(opts)["namespace" := NamespaceOf(old(opts))];
      raised := None;
      if Truthy(opts["namespace"]) {
        var names := prepare(opts["namespace"]);
        opts := opts["namespace" := List(names)];
        opts := opts["root_pkg" := Str(names[0])];
        if "package" !in opts {
          raised := Some(KeyError(Str("package")));
          return;
        }
        var package := opts["package"];
        if !package.Str? {
          raised := Some(TypeError);
          return;
        }
        opts := opts["namespace_pkg" := Str(Join([names[|names| - 1], package.s], '.'))];
      }
    }

    /**
     * The rewrite at the heart of `add_namespace`: the package directory leaves the project
     * directory, and a cursor walks down one fresh namespace directory per
     * segment before the package is stored at the bottom.
     */
    method MovePackage(loc: Location, segs: seq<string>, init: string)
      requires loc.project in struct && struct[loc.project].Dir?
      requires loc.package in struct[loc.project].entries
      requires |segs| >= 1
      modifies this`struct
      ensures struct == Relocate(old(struct), loc, segs, init)
    {
      var project := struct[loc.project].entries;
      var package := project[loc.package];
      var base := project - {loc.package};

      // del struct[package], below the project directory
      struct := struct[loc.project := Dir(base)];
      assert base + Nest([], init, map[]) == base;

      var cursor: seq<string> := [];
      for i := 0 to |segs|
        invariant cursor == segs[..i]
        invariant struct == old(struct)[loc.project := Dir(base + Nest(cursor, init, map[]))]
      {
        DescendStep(old(struct), loc.project, base, cursor, segs[i], init);
        struct := PutAt(struct, [loc.project] + cursor, segs[i], Dir(map[InitFile := File(init)]));
        cursor := cursor + [segs[i]];
        assert cursor == segs[..i + 1];
      }

      assert cursor == segs;
      AttachPackage(old(struct), loc.project, base, cursor, loc.package, package, init);
      struct := PutAt(struct, [loc.project] + cursor, loc.package, package);
      assert struct == Relocate(old(struct), loc, segs, init);
    }

    /**
     * `add_namespace`: with a true namespace, finds the package directory and
     * moves it below the namespace directories in place; the options are
     * returned as they are.
     */
    method AddNamespace(template: Options -> string) returns (raised: Option<Error>)
      modifies this`struct
      ensures opts == old(opts)
      ensures raised == None ==> AddedNamespace(old(struct), opts, template) == Success(struct)
      ensures raised.Some? ==>
                AddedNamespace(old(struct), opts, template) == Failure(raised.value) && struct == old(struct)
    {
      if "namespace" !in opts {
        return Some(KeyError(Str("namespace")));
      }
      if !Truthy(opts["namespace"]) {
        return None;
      }
      var segs := Segments(opts["namespace"]);
      var located := Locate(struct, opts);
      if located.Failure? {
        return Some(located.error);
      }
      var loc := located.value;
      MovePackage(loc, segs, template(opts));
      AddedNamespaceMoves(old(struct), opts, template);
      return None;
    }
  }
}
