# Namespace extension of PyScaffold, in Dafny

PyScaffold generates Python projects. Its actions pass along a pair: an
in-memory description of the project's file tree and a dictionary of options.
The namespace extension adds two actions to that pipeline:

- `enforce_namespace_options` gives the `namespace` option a default of `None`.
  When the namespace is given, it normalises it with `utils.prepare_namespace` and
  derives two options from it. `root_pkg` is the first namespace.
  `namespace_pkg` is the last namespace, a dot and the package name.
- `add_namespace` moves the package directory `project/package` down a chain of
  new directories, one per dot-separated segment of the namespace. Each new
  directory holds an `__init__.py` rendered by `templates.namespace`.

The model has four modules:

- `Wrappers` holds `Option` and `Result`.
- `Strings` holds Python's `str.split` and `str.join` for a one-character
  separator, with their round trip proved in both directions.
- `Structure` holds the file tree: a directory maps names to file contents or to
  further directories. It also holds a path lookup (`Find`) and a store at a path
  (`PutAt`), the model's form of the dictionary cursor.
- `Namespace` holds the extension itself. The value-level functions
  `EnforcedOptions` and `AddedNamespace` state what each action produces,
  including the exceptions it raises. The class `Project` holds the pair
  `(struct, opts)`. Its methods update the pair in place, as the actions do.
  Each method is proved to leave exactly the state its specification function
  describes. The lemmas then say where the package ends up and what every new
  directory contains. One lemma shows that `namespace_pkg` is the dotted import
  path of the package directory that `add_namespace` moves.

`utils.prepare_namespace` and `templates.namespace` are not part of this model.
Both are parameters: `prepare: Value -> Namespaces` returns a non-empty list of
names, and `template: Options -> string` returns the content of each
`__init__.py`.

The exceptions are modelled, not excluded by preconditions:

- `add_namespace` raises `KeyError` when the `namespace` option is missing, and
  when `project`, `package`, `struct[project]` or `struct[project][package]` is
  missing.
- It raises `TypeError` when a key is a list (unhashable), or when
  `struct[project]` is a file rather than a directory.
- Every one of these is raised before anything is changed, so the tree is left as
  it was.
- Within the model, `enforce_namespace_options` can only fail at lines 63-64,
  when `opts['package']` is missing or is not a string. By then it has already
  stored the normalised `namespace` and `root_pkg`, and the model keeps those
  two updates.

## Model

| member | source | states |
|---|---|---|
| `Strings.Split` | pyscaffold/extensions/namespace.py:83 | `s.split(sep)` returns one more piece than `s` has separators, no piece contains the separator, and joining the pieces with the separator gives back `s` |
| `Strings.SplitJoin` | pyscaffold/extensions/namespace.py:83 | splitting a join of separator-free parts gives back the parts, so the segments are exactly the dot-separated names, in order |
| `Strings.JoinSnoc` | pyscaffold/extensions/namespace.py:63-64 | joining parts with one more part appended gives the old join, the separator and that part |
| `Strings.Join` | pyscaffold/extensions/namespace.py:63-64 | `sep.join` of two parts is the first part, the separator and the second part, the form `".".join([last, package])` takes |
| `Strings.JoinSeparators` | pyscaffold/extensions/namespace.py:63-64 | joining separator-free parts puts exactly one separator between neighbours: the result holds one separator fewer than there are parts |
| `Namespace.Truthy` | pyscaffold/extensions/namespace.py:60 | an option value is false exactly when it is `None`, the empty string or the empty list, the test at lines 60 and 80 |
| `Namespace.NamespaceOf` | pyscaffold/extensions/namespace.py:58 | `opts.setdefault('namespace', None)`: an existing value is kept with the options unchanged, and a missing one reads as `None` |
| `Namespace.LastNamespace` | pyscaffold/extensions/namespace.py:83 | `opts['namespace'][-1]`: for a list, its last element; for a plain string, a one-character string holding its last character |
| `Namespace.Nest` | pyscaffold/extensions/namespace.py:88-90 | the chain of directories the loop builds has the first segment as its only top-level name; with no segments it is just the entries stored at the cursor |
| `Structure.PutAtStores` | pyscaffold/extensions/namespace.py:89-91 | a cursor store `d[name] = child` along a path that ends at a directory makes `path + [name]` lead to `child`, and the directory at `path` keeps every other entry it had; along any other path the tree is left unchanged |
| `Structure.PutAtFrame` | pyscaffold/extensions/namespace.py:89-91 | a cursor store leaves every entry off the path as it was: a name beside any name of the path leads to the same node before and after |
| `Namespace.AddedNamespaceMoves` | pyscaffold/extensions/namespace.py:83-93 | with a true namespace and the package directory found, `add_namespace` returns exactly the tree `Relocate` builds from the split segments and the template content |
| `Namespace.EnforcedOptions` | pyscaffold/extensions/namespace.py:56-66 | `namespace` is always present afterwards, and `None` if it was absent. A false namespace changes no other option and raises nothing. A true namespace becomes `prepare(old value)`, `root_pkg` its first name, and `namespace_pkg` its last name, a dot and `package`. It raises `KeyError('package')` or `TypeError` exactly when the package name is missing or is not a string, and then `namespace_pkg` keeps its old value or stays absent. No key other than the three namespace options changes |
| `Namespace.Project.EnforceNamespaceOptions` | pyscaffold/extensions/namespace.py:56-66 | the in-place update leaves exactly the options and the exception `EnforcedOptions` gives, and leaves the file tree untouched |
| `Namespace.Segments` | pyscaffold/extensions/namespace.py:83 | the segments of `opts['namespace'][-1]` are at least one, contain no dot, are never `__init__.py`, and join back to that name |
| `Namespace.Locate` | pyscaffold/extensions/namespace.py:85 | `struct[opts['project']][opts['package']]` is found exactly when both options are strings, the project entry is a directory and the package is in it. Each failure names its exception, in Python's order of evaluation. A missing `project` option raises `KeyError('project')`. A list as project raises `TypeError`. A `None` project, or a project not in the tree, raises `KeyError` with that value. A missing `package` option raises `KeyError('package')`. A file as the project entry, or a list as package, raises `TypeError`. A `None` package, or a package not in the project directory, raises `KeyError` with that value |
| `Namespace.Relocate` | pyscaffold/extensions/namespace.py:84-91 | top-level entries other than the project directory are unchanged. In the project directory, `package` is replaced by the first segment, so `package` is gone unless it is that segment. Every other entry of the project directory is unchanged |
| `Namespace.AddedNamespace` | pyscaffold/extensions/namespace.py:69-93 | a missing `namespace` option raises `KeyError('namespace')`. A false namespace returns the tree as it was. With a true namespace the action succeeds exactly when the package directory is found, and otherwise raises the lookup's exception |
| `Namespace.PackageRelocated` | pyscaffold/extensions/namespace.py:85-91 | after the move, the old subtree at `project/package` is found unchanged at `project/seg1/.../segk/package` |
| `Namespace.NamespaceLevel` | pyscaffold/extensions/namespace.py:88-91 | the directory at `project/seg1/.../seg(i+1)` holds exactly `__init__.py` and the next name. The next name is the next segment, or the package at the innermost level. Its `__init__.py` holds the template content unless the package name is `__init__.py` itself |
| `Namespace.AddNamespaceLayout` | pyscaffold/extensions/namespace.py:80-93 | with a true namespace and the package directory present, `add_namespace` succeeds. The levels are the dot-separated segments of the last namespace name, in order, each with the shape `NamespaceLevel` describes. The package subtree sits unchanged below the innermost level |
| `Namespace.NamespacePkgIsImportPath` | pyscaffold/extensions/namespace.py:60-91 | after a successful `enforce_namespace_options` with a true namespace, `namespace_pkg` is the segments `add_namespace` will create, then the package name, joined by dots |
| `Namespace.PutInNest` | pyscaffold/extensions/namespace.py:88-91 | storing a name at the end of a chain of namespace directories adds it to the innermost level and changes nothing else |
| `Namespace.NestSnoc` | pyscaffold/extensions/namespace.py:88-90 | one more pass of the loop lengthens the chain by one directory that holds only `__init__.py` |
| `Namespace.DescendStep` | pyscaffold/extensions/namespace.py:89-90 | one pass of the cursor loop on the tree turns the chain for `segs[..i]` into the chain for `segs[..i+1]` |
| `Namespace.AttachPackage` | pyscaffold/extensions/namespace.py:91 | the final assignment at the cursor stores the package below the innermost namespace directory |
| `Namespace.Project.MovePackage` | pyscaffold/extensions/namespace.py:84-91 | removing the package, running the cursor loop over the segments and storing the package at the cursor leaves exactly the tree `Relocate` describes |
| `Namespace.Project.AddNamespace` | pyscaffold/extensions/namespace.py:69-93 | the in-place action leaves the tree `AddedNamespace` returns. When it raises, the tree is unchanged. The options are never changed |

## Left out

- `augment_cli` and `ActivateNamespace.__call__` (namespace.py:17-44) only wire an
  `argparse` option. They are command-line plumbing with no behaviour to verify.
- `extend_project` (namespace.py:47-53) only registers the two actions through
  `helpers.register`. That module is not part of this model.
- `utils.prepare_namespace` and `templates.namespace` are parameters. The model
  assumes only that the first returns a non-empty list of names. Any
  `InvalidIdentifier` error that `prepare_namespace` raises is not modelled.
- `Structure.PutAt` returns the tree unchanged when the path does not lead to a
  directory, where Python would raise. Every store the model makes is along
  a path it has just created, so that case never occurs.
- Writing the tree to disk happens elsewhere and is I/O.
- Python dictionaries are mutable objects shared by reference: the moved package
  subtree is the same dictionary object, and the cursor is an alias into the
  tree. The model works on values. The tree is a `map` field that each step
  reassigns, and the cursor is the path of names walked so far. The model states
  that the subtree is equal to the old one, not that it is the same object.
- `Namespace.Project.MovePackage` is the part of `add_namespace` from line 84 on.
  It is a separate method so that each proof stays small.
- `templates.namespace(opts)` is called once per segment in the source. The model
  evaluates it once, since the same options give the same content.
- Option values are limited to `None`, strings and lists of strings. Other
  Python values are not modelled. If `opts['namespace']` is still a plain string
  when `add_namespace` runs, `[-1]` picks its last character, and the model does
  the same.
