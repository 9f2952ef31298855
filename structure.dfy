/**
 * The in-memory description of a project's file tree that the scaffolder's
 * actions pass along: a directory maps names to file contents or to further
 * directories (Python's dict of dicts).
 */
module Structure {
  import opened Wrappers

  datatype Node = File(content: string) | Dir(entries: map<string, Node>)

  /** The node reached from `node` by following `path` one name at a time. */
  function Find(node: Node, path: seq<string>): Option<Node>
    decreases |path|
  {
    if path == [] then Some(node)
    else match node
      case File(_) => None
      case Dir(entries) =>
        if path[0] in entries then Find(entries[path[0]], path[1..]) else None
  }

  /** True when following `path` from `node` ends at a directory. */
  predicate IsDirAt(node: Node, path: seq<string>)
  {
    Find(node, path).Some? && Find(node, path).value.Dir?
  }

  /**
   * `entries` with `name := child` stored in the directory that `path` leads to,
   * as `d = entries; for p in path: d = d[p]` followed by `d[name] = child`.
   * Where `path` does not lead to a directory the tree is returned as it is;
   * the namespace extension only uses paths it has just created.
   */
  function PutAt(entries: map<string, Node>, path: seq<string>, name: string, child: Node): map<string, Node>
    decreases |path|
  {
    if path == [] then entries[name := child]
    else if path[0] in entries && entries[path[0]].Dir? then
      entries[path[0] := Dir(PutAt(entries[path[0]].entries, path[1..], name, child))]
    else entries
  }

  /**
   * After a store along a path that leads to a directory, `path + [name]`
   * leads to the stored child, and the directory at `path` is the old one with
   * only `name` set; along any other path nothing changes.
   */
  lemma {:induction false} PutAtStores(entries: map<string, Node>, path: seq<string>, name: string, child: Node)
    ensures IsDirAt(Dir(entries), path) ==> Find(Dir(PutAt(entries, path, name, child)), path + [name]) == Some(child)
    ensures IsDirAt(Dir(entries), path) ==>
              Find(Dir(PutAt(entries, path, name, child)), path) ==
                Some(Dir(Find(Dir(entries), path).value.entries[name := child]))
    ensures !IsDirAt(Dir(entries), path) ==> PutAt(entries, path, name, child) == entries
    decreases |path|
  {
    if path == [] {
      assert [] + [name] == [name];
    } else if path[0] in entries && entries[path[0]].Dir? {
      var sub := entries[path[0]].entries;
      PutAtStores(sub, path[1..], name, child);
      assert (path + [name])[0] == path[0] && (path + [name])[1..] == path[1..] + [name];
      assert IsDirAt(Dir(entries), path) <==> IsDirAt(Dir(sub), path[1..]);
    } else if path[0] in entries {
      assert Find(Dir(entries), path) == Find(entries[path[0]], path[1..]);
      assert path[1..] != [] ==> Find(entries[path[0]], path[1..]) == None;
    }
  }

  /**
   * A store along `path` leaves every entry off the path as it was: a name `k`
   * beside the `j`-th name of the path leads to the same node afterwards.
   */
  lemma {:induction false} PutAtFrame(entries: map<string, Node>, path: seq<string>, name: string, child: Node,
                                      j: nat, k: string)
    requires j < |path| && k != path[j]
    ensures Find(Dir(PutAt(entries, path, name, child)), path[..j] + [k]) == Find(Dir(entries), path[..j] + [k])
    decreases j
  {
    if path[0] in entries && entries[path[0]].Dir? {
      if j == 0 {
        assert path[..0] + [k] == [k];
      } else {
        var sub := entries[path[0]].entries;
        PutAtFrame(sub, path[1..], name, child, j - 1, k);
        var p := path[..j] + [k];
        assert p[0] == path[0] && p[1..] == path[1..][..j - 1] + [k];
      }
    }
  }
}
