/**
 * The part of Node's synchronous `fs` API the reporter uses, over an abstract tree:
 * each directory path maps to its entries in creation order. A file named by joining a
 * directory path with a plain name (no separator) is the entry of that name in that directory.
 */
module FileSystems {
  import opened Wrappers
  import opened JsValues

  datatype Entry = File(content: string) | Directory

  type Listing = seq<(string, Entry)>

  /** Directory path -> the entries directly inside it. */
  type Tree = map<string, Listing>

  const IllegalOnDirectory := Error("EISDIR: illegal operation on a directory")
  const NoSuchFile := Error("ENOENT: no such file or directory")

  predicate UniqueNames(l: Listing) {
    forall i, j :: 0 <= i < j < |l| ==> l[i].0 != l[j].0
  }

  predicate WellFormed(t: Tree) {
    forall d :: d in t ==> UniqueNames(t[d])
  }

  function Names(l: Listing): (r: seq<string>)
    ensures |r| == |l|
    ensures forall i :: 0 <= i < |l| ==> r[i] == l[i].0
  {
    if l == [] then [] else [l[0].0] + Names(l[1..])
  }

  /** The entry called `name`, if any. */
  function Find(l: Listing, name: string): (r: Option<Entry>)
    ensures r.Some? <==> exists i :: 0 <= i < |l| && l[i].0 == name
    ensures r.Some? ==> exists i :: 0 <= i < |l| && l[i] == (name, r.value)
  {
    if l == [] then None
    else if l[0].0 == name then (assert l[0] == (name, l[0].1); Some(l[0].1))
    else
      var r := Find(l[1..], name);
      assert forall i :: 0 < i < |l| ==> l[i] == l[1..][i - 1];
      r
  }

  lemma ConsUnique(x: (string, Entry), rest: Listing)
    requires UniqueNames(rest) && Find(rest, x.0).None?
    ensures UniqueNames([x] + rest)
  {
    var l := [x] + rest;
    forall i, j | 0 <= i < j < |l|
      ensures l[i].0 != l[j].0
    {
      if i == 0 {
        assert l[j] == rest[j - 1];
      } else {
        assert l[i] == rest[i - 1] && l[j] == rest[j - 1];
      }
    }
  }

  lemma TailUnique(l: Listing)
    requires l != [] && UniqueNames(l)
    ensures UniqueNames(l[1..]) && Find(l[1..], l[0].0).None?
  {
  }

  /** `writeFileSync`: replaces the content of an existing file in place, adds a new file at
      the end, and fails on a directory. */
  function WriteEntry(l: Listing, name: string, content: string): (r: Result<Listing, JsError>)
    ensures r.Failure? <==> Find(l, name) == Some(Directory)
    ensures r.Success? ==> Find(r.value, name) == Some(File(content))
    ensures r.Success? ==> forall n :: n != name ==> Find(r.value, n) == Find(l, n)
  {
    if l == [] then Success([(name, File(content))])
    else if l[0].0 == name then
      if l[0].1.Directory? then Failure(IllegalOnDirectory)
      else
        var r := [(name, File(content))] + l[1..];
        assert r[1..] == l[1..];
        Success(r)
    else
      match WriteEntry(l[1..], name, content)
      case Failure(e) => Failure(e)
      case Success(rest) =>
        var r := [l[0]] + rest;
        assert r[1..] == rest;
        Success(r)
  }

  /** A write never gives two entries the same name. */
  lemma {:induction false} WriteEntryKeepsNamesUnique(l: Listing, name: string, content: string)
    requires UniqueNames(l) && WriteEntry(l, name, content).Success?
    ensures UniqueNames(WriteEntry(l, name, content).value)
  {
    if l != [] {
      TailUnique(l);
      if l[0].0 == name {
        ConsUnique((name, File(content)), l[1..]);
      } else {
        WriteEntryKeepsNamesUnique(l[1..], name, content);
        ConsUnique(l[0], WriteEntry(l[1..], name, content).value);
      }
    }
  }

  /** `unlinkSync`: removes a file, fails on a directory or a missing name. */
  function RemoveEntry(l: Listing, name: string): (r: Result<Listing, JsError>)
    ensures r.Success? <==> Find(l, name).Some? && Find(l, name).value.File?
    ensures r.Success? ==> forall n :: n != name ==> Find(r.value, n) == Find(l, n)
  {
    if l == [] then Failure(NoSuchFile)
    else if l[0].0 == name then
      if l[0].1.Directory? then Failure(IllegalOnDirectory)
      else Success(l[1..])
    else
      match RemoveEntry(l[1..], name)
      case Failure(e) => Failure(e)
      case Success(rest) =>
        var r := [l[0]] + rest;
        assert r[1..] == rest;
        Success(r)
  }

  /** In a listing without duplicate names, an unlinked name is gone and names stay unique. */
  lemma {:induction false} RemoveEntryRemoves(l: Listing, name: string)
    requires UniqueNames(l) && RemoveEntry(l, name).Success?
    ensures Find(RemoveEntry(l, name).value, name).None?
    ensures UniqueNames(RemoveEntry(l, name).value)
  {
    TailUnique(l);
    if l[0].0 != name {
      RemoveEntryRemoves(l[1..], name);
      var rest := RemoveEntry(l[1..], name).value;
      ConsUnique(l[0], rest);
      assert ([l[0]] + rest)[1..] == rest;
    }
  }

  /** The first directory entry of a listing, if any. */
  function FirstDirectory(l: Listing): (r: Option<nat>)
    ensures r.Some? ==>
              (r.value < |l| && l[r.value].1.Directory? && forall i :: 0 <= i < r.value ==> l[i].1.File?)
    ensures r.None? ==> forall i :: 0 <= i < |l| ==> l[i].1.File?
  {
    if l == [] then None
    else if l[0].1.Directory? then Some(0)
    else
      match FirstDirectory(l[1..])
      case None => None
      case Some(k) => Some(k + 1)
  }

  class FileSystem {
    var tree: Tree

    constructor(initial: Tree)
      ensures tree == initial
    {
      tree := initial;
    }

    /** `existsSync` on a directory path. */
    predicate Exists(path: string)
      reads this
    {
      path in tree
    }

    /** `mkdirSync(path, {recursive: true})`: an existing directory is left as it is. */
    method MakeDirectory(path: string)
      modifies this
      ensures tree == if path in old(tree) then old(tree) else old(tree)[path := []]
    {
      if path !in tree {
        tree := tree[path := []];
      }
    }

    /** `readdirSync`: the entry names in listing order. */
    method ReadDirectory(path: string) returns (r: Result<seq<string>, JsError>)
      ensures r == if path in tree then Success(Names(tree[path])) else Failure(NoSuchFile)
    {
      if path in tree {
        r := Success(Names(tree[path]));
      } else {
        r := Failure(NoSuchFile);
      }
    }

    /** `writeFileSync(join(dir, name), content)` */
    method WriteFile(dir: string, name: string, content: string) returns (r: Outcome<JsError>)
      modifies this
      ensures dir !in old(tree) ==> r == Fail(NoSuchFile) && tree == old(tree)
      ensures dir in old(tree) ==>
        match WriteEntry(old(tree)[dir], name, content)
        case Success(l) => r == Pass && tree == old(tree)[dir := l]
        case Failure(e) => r == Fail(e) && tree == old(tree)
    {
      if dir !in tree {
        r := Fail(NoSuchFile);
      } else {
        match WriteEntry(tree[dir], name, content)
        case Success(l) =>
          tree := tree[dir := l];
          r := Pass;
        case Failure(e) =>
          r := Fail(e);
      }
    }

    /** `unlinkSync(join(dir, name))` */
    method Unlink(dir: string, name: string) returns (r: Outcome<JsError>)
      modifies this
      ensures dir !in old(tree) ==> r == Fail(NoSuchFile) && tree == old(tree)
      ensures dir in old(tree) ==>
        match RemoveEntry(old(tree)[dir], name)
        case Success(l) => r == Pass && tree == old(tree)[dir := l]
        case Failure(e) => r == Fail(e) && tree == old(tree)
    {
      if dir !in tree {
        r := Fail(NoSuchFile);
      } else {
        match RemoveEntry(tree[dir], name)
        case Success(l) =>
          tree := tree[dir := l];
          r := Pass;
        case Failure(e) =>
          r := Fail(e);
      }
    }
  }
}
