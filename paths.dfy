/** Addressing inside the tree. The source hands out a mutable reference to
    the directory a working-directory stack names; here that reference is an
    index path (the child positions to follow from the root), and changing the
    tree through it is a functional update of the root at that path. */
module Paths {
  import opened Results
  import opened Tree

  /** `idx` can be followed from `item`: every step indexes into a directory. */
  predicate ValidPath(item: Item, idx: seq<nat>)
    decreases |idx|
  {
    idx == [] ||
    (item.Directory? && idx[0] < |item.items| && ValidPath(item.items[idx[0]], idx[1..]))
  }

  /** The item reached by following `idx` from `item`. */
  function At(item: Item, idx: seq<nat>): Item
    requires ValidPath(item, idx)
    decreases |idx|
  {
    if idx == [] then item else At(item.items[idx[0]], idx[1..])
  }

  /** Following one more step from the end of a path. */
  lemma {:induction false} AtAppend(item: Item, idx: seq<nat>, i: nat)
    requires ValidPath(item, idx)
    requires At(item, idx).Directory? && i < |At(item, idx).items|
    ensures ValidPath(item, idx + [i])
    ensures At(item, idx + [i]) == At(item, idx).items[i]
    decreases |idx|
  {
    if idx != [] {
      assert (idx + [i])[1..] == idx[1..] + [i];
      AtAppend(item.items[idx[0]], idx[1..], i);
    }
  }

  predicate IsDirNamed(item: Item, name: string)
  {
    item.Directory? && item.name == name
  }

  /** The position of the first child that is a directory called `name`; files
      never match. */
  function FindDir(items: seq<Item>, name: string): (r: Option<nat>)
    ensures r.Some? ==> r.value < |items| && IsDirNamed(items[r.value], name)
    ensures r.Some? ==> forall j :: 0 <= j < r.value ==> !IsDirNamed(items[j], name)
    ensures r.None? <==> forall j :: 0 <= j < |items| ==> !IsDirNamed(items[j], name)
  {
    if items == [] then None
    else if IsDirNamed(items[0], name) then Some(0)
    else
      match FindDir(items[1..], name)
      case None => None
      case Some(i) => Some(i + 1)
  }

  /** The segments of a working-directory stack other than the root marker. */
  function WithoutRoot(path: seq<string>): seq<string>
  {
    if path == [] then []
    else if path[0] == "/" then WithoutRoot(path[1..])
    else [path[0]] + WithoutRoot(path[1..])
  }

  /** get_dir_from_path as a function: skip `/` segments; from a directory, move
      to the first child directory with the segment's name, failing when there is
      none; from a file, skip the segment (the source's `if let` has no else). */
  function Resolve(item: Item, path: seq<string>): (r: Result<seq<nat>>)
    ensures r.Ok? ==> ValidPath(item, r.value)
    ensures r.Ok? && item.Directory? ==> At(item, r.value).Directory?
    ensures r.Err? ==> r.error.DirectoryNotFound? && r.error.name in path && r.error.name != "/"
    decreases |path|
  {
    if path == [] then Ok([])
    else if path[0] == "/" then Resolve(item, path[1..])
    else
      match item
      case File(_, _) => Resolve(item, path[1..])
      case Directory(_, items) =>
        match FindDir(items, path[0])
        case None => Err(DirectoryNotFound(path[0]))
        case Some(i) =>
          match Resolve(items[i], path[1..])
          case Err(e) => Err(e)
          case Ok(rest) => Ok([i] + rest)
  }

  /** `idx` spells `names` from `item` by always taking the first child
      directory with the next name. */
  ghost predicate FirstDirPath(item: Item, idx: seq<nat>, names: seq<string>)
    decreases |idx|
  {
    if idx == [] then names == []
    else
      && item.Directory? && names != [] && idx[0] < |item.items|
      && IsDirNamed(item.items[idx[0]], names[0])
      && (forall j :: 0 <= j < idx[0] ==> !IsDirNamed(item.items[j], names[0]))
      && FirstDirPath(item.items[idx[0]], idx[1..], names[1..])
  }

  /** From a directory, resolution succeeds with `idx` exactly when `idx` is the
      first-match path that spells the stack's names once the `/` markers are
      dropped; so it fails exactly when no such path exists. */
  lemma ResolveIsFirstDirPath(item: Item, path: seq<string>, idx: seq<nat>)
    requires item.Directory?
    ensures Resolve(item, path) == Ok(idx) <==> FirstDirPath(item, idx, WithoutRoot(path))
  {
    if Resolve(item, path) == Ok(idx) {
      ResolveSound(item, path, idx);
    }
    if FirstDirPath(item, idx, WithoutRoot(path)) {
      ResolveComplete(item, path, idx);
    }
  }

  lemma {:induction false} ResolveSound(item: Item, path: seq<string>, idx: seq<nat>)
    requires item.Directory? && Resolve(item, path) == Ok(idx)
    ensures FirstDirPath(item, idx, WithoutRoot(path))
    decreases |path|
  {
    if path != [] {
      if path[0] == "/" {
        ResolveSound(item, path[1..], idx);
      } else {
        var names := WithoutRoot(path);
        assert names == [path[0]] + WithoutRoot(path[1..]);
        var i := FindDir(item.items, path[0]).value;
        var rest := Resolve(item.items[i], path[1..]).value;
        assert idx == [i] + rest;
        assert idx[1..] == rest;
        ResolveSound(item.items[i], path[1..], rest);
      }
    }
  }

  lemma {:induction false} ResolveComplete(item: Item, path: seq<string>, idx: seq<nat>)
    requires item.Directory? && FirstDirPath(item, idx, WithoutRoot(path))
    ensures Resolve(item, path) == Ok(idx)
    decreases |path|
  {
    if path != [] {
      if path[0] == "/" {
        ResolveComplete(item, path[1..], idx);
      } else {
        var names := WithoutRoot(path);
        assert names == [path[0]] + WithoutRoot(path[1..]);
        assert names[0] == path[0] && names[1..] == WithoutRoot(path[1..]);
        var found := FindDir(item.items, path[0]);
        assert found.Some?;
        var i := found.value;
        assert !(idx[0] < i) && !(i < idx[0]);
        ResolveComplete(item.items[i], path[1..], idx[1..]);
        assert idx == [i] + idx[1..];
      }
    }
  }

  /** Resolution ignores the root marker wherever it stands in the stack. */
  lemma {:induction false} ResolveIgnoresRoot(item: Item, path: seq<string>)
    ensures Resolve(item, path) == Resolve(item, WithoutRoot(path))
    decreases |path|
  {
    if path != [] {
      ResolveIgnoresRoot(item, path[1..]);
      if path[0] != "/" {
        var w := [path[0]] + WithoutRoot(path[1..]);
        assert w[0] == path[0] && w[1..] == WithoutRoot(path[1..]);
        if item.Directory? {
          match FindDir(item.items, path[0])
          case None =>
          case Some(i) => ResolveIgnoresRoot(item.items[i], path[1..]);
        }
      }
    }
  }

  /** A stack made only of root markers (the initial `["/"]`, or none at all)
      names the item itself. */
  lemma {:induction false} ResolveOnlyRoot(item: Item, path: seq<string>)
    requires forall k :: 0 <= k < |path| ==> path[k] == "/"
    ensures Resolve(item, path) == Ok([])
    decreases |path|
  {
    if path != [] {
      ResolveOnlyRoot(item, path[1..]);
    }
  }

  /** Starting from a file, every segment is skipped and the file itself is the
      answer. */
  lemma {:induction false} ResolveFromFile(item: Item, path: seq<string>)
    requires item.File?
    ensures Resolve(item, path) == Ok([])
    decreases |path|
  {
    if path != [] {
      ResolveFromFile(item, path[1..]);
    }
  }

  /** Prepends the steps already taken to a resolution of the rest. */
  function Prefixed(idx: seq<nat>, r: Result<seq<nat>>): Result<seq<nat>>
  {
    match r
    case Err(e) => Err(e)
    case Ok(rest) => Ok(idx + rest)
  }

  lemma PrefixedAppend(idx: seq<nat>, i: nat, r: Result<seq<nat>>)
    ensures Prefixed(idx, Prefixed([i], r)) == Prefixed(idx + [i], r)
  {
    if r.Ok? {
      assert idx + ([i] + r.value) == (idx + [i]) + r.value;
    }
  }

  /** get_dir_from_path: walks a cursor from `dir` along the stack. */
  method GetDirFromPath(path: seq<string>, dir: Item) returns (r: Result<seq<nat>>)
    ensures r == Resolve(dir, path)
  {
    var idx: seq<nat> := [];
    var current := dir;
    assert path[0..] == path;
    match Resolve(dir, path) {
      case Ok(rest) => assert idx + rest == rest;
      case Err(_) =>
    }
    for k := 0 to |path|
      invariant ValidPath(dir, idx) && current == At(dir, idx)
      invariant Resolve(dir, path) == Prefixed(idx, Resolve(current, path[k..]))
    {
      var name := path[k];
      assert path[k..][0] == name && path[k..][1..] == path[k + 1..];
      if name == "/" {
        assert Resolve(current, path[k..]) == Resolve(current, path[k + 1..]);
        continue;
      }
      if current.Directory? {
        var found := FindDir(current.items, name);
        match found
        case None =>
          return Err(DirectoryNotFound(name));
        case Some(i) =>
          AtAppend(dir, idx, i);
          var next := Resolve(current.items[i], path[k + 1..]);
          assert Resolve(current, path[k..]) == Prefixed([i], next);
          PrefixedAppend(idx, i, next);
          idx := idx + [i];
          current := current.items[i];
      } else {
        assert Resolve(current, path[k..]) == Resolve(current, path[k + 1..]);
      }
    }
    assert idx + [] == idx;
    r := Ok(idx);
  }

  /** The item at the end of `idx` with `child` added to it (add_item done
      through the resolved reference). The root keeps its kind and name, the
      target gets the child appended, and the whole tree grows by the child's
      size; a file as target is an error. */
  function AddAt(root: Item, idx: seq<nat>, child: Item): (r: Result<Item>)
    requires ValidPath(root, idx)
    ensures r.Err? <==> At(root, idx).File?
    ensures r.Err? ==> r.error == CannotAddItemToFile
    ensures r.Ok? ==> r.value.Directory? && r.value.name == root.name
    ensures r.Ok? ==> ValidPath(r.value, idx) && At(r.value, idx) == AddItem(At(root, idx), child).value
    ensures r.Ok? ==> Size(r.value) == Size(root) + Size(child)
    decreases |idx|
  {
    if idx == [] then AddItem(root, child)
    else
      var i := idx[0];
      match AddAt(root.items[i], idx[1..], child)
      case Err(e) => Err(e)
      case Ok(c) =>
        SumSizesUpdate(root.items, i, c);
        Ok(Directory(root.name, root.items[i := c]))
  }

  /** `q` leads to a node on the way from the root to the end of `idx`
      (the root and the end included). */
  predicate OnPath(q: seq<nat>, idx: seq<nat>)
  {
    |q| <= |idx| && q == idx[..|q|]
  }

  /** At path `q`, both trees hold a directory of the same name with the same
      number of children. */
  predicate SameDirAt(before: Item, after: Item, q: seq<nat>)
  {
    && ValidPath(before, q) && ValidPath(after, q)
    && At(before, q).Directory? && At(after, q).Directory?
    && At(after, q).name == At(before, q).name
    && |At(after, q).items| == |At(before, q).items|
  }

  /** `after` is `before` with `child` appended to the directory at `idx`, and
      nothing else changed: every directory on the way keeps its name and its
      number of children, and every node off the way is where it was and as it
      was. */
  ghost predicate Inserted(before: Item, after: Item, idx: seq<nat>, child: Item)
  {
    && ValidPath(before, idx) && At(before, idx).Directory?
    && ValidPath(after, idx) && At(after, idx) == AddItem(At(before, idx), child).value
    && (forall j :: 0 <= j < |idx| ==> SameDirAt(before, after, idx[..j]))
    && (forall q :: ValidPath(before, q) && !OnPath(q, idx) ==> ValidPath(after, q) && At(after, q) == At(before, q))
  }

  /** add_item through the resolved reference changes that one directory and
      nothing else. */
  lemma {:induction false} AddAtInserts(root: Item, idx: seq<nat>, child: Item)
    requires ValidPath(root, idx) && AddAt(root, idx, child).Ok?
    ensures Inserted(root, AddAt(root, idx, child).value, idx, child)
    decreases |idx|
  {
    var r := AddAt(root, idx, child).value;
    if idx == [] {
      forall q | ValidPath(root, q) && !OnPath(q, idx)
        ensures ValidPath(r, q) && At(r, q) == At(root, q)
      {
        assert q != [];
        assert r.items[q[0]] == root.items[q[0]];
      }
    } else {
      var i, rest := idx[0], idx[1..];
      var c := AddAt(root.items[i], rest, child).value;
      AddAtInserts(root.items[i], rest, child);
      assert r == Directory(root.name, root.items[i := c]);
      forall j | 0 <= j < |idx| ensures SameDirAt(root, r, idx[..j]) {
        if j > 0 {
          var p := idx[..j];
          assert p[0] == i && p[1..] == rest[..j - 1];
          assert SameDirAt(root.items[i], c, rest[..j - 1]);
        }
      }
      forall q | ValidPath(root, q) && !OnPath(q, idx)
        ensures ValidPath(r, q) && At(r, q) == At(root, q)
      {
        assert q != [];
      }
    }
  }

  /** Below the first step, an insertion is an insertion into that child. */
  lemma InsertedChild(before: Item, after: Item, idx: seq<nat>, child: Item)
    requires Inserted(before, after, idx, child) && idx != []
    ensures before.Directory? && after.Directory? && idx[0] < |before.items| == |after.items|
    ensures Inserted(before.items[idx[0]], after.items[idx[0]], idx[1..], child)
  {
    var i, rest := idx[0], idx[1..];
    assert idx[..0] == [];
    assert SameDirAt(before, after, idx[..0]);
    var b, a := before.items[i], after.items[i];
    forall j | 0 <= j < |rest| ensures SameDirAt(b, a, rest[..j]) {
      var p := idx[..j + 1];
      assert SameDirAt(before, after, p);
      assert p[0] == i && p[1..] == rest[..j];
    }
    forall q | ValidPath(b, q) && !OnPath(q, rest) ensures ValidPath(a, q) && At(a, q) == At(b, q) {
      var p := [i] + q;
      assert p[0] == i && p[1..] == q;
      assert ValidPath(after, p) && At(after, p) == At(before, p);
    }
  }

  /** The description is complete: at most one tree is `before` with `child`
      inserted at `idx`. */
  lemma {:induction false} InsertedUnique(before: Item, a1: Item, a2: Item, idx: seq<nat>, child: Item)
    requires Inserted(before, a1, idx, child) && Inserted(before, a2, idx, child)
    ensures a1 == a2
    decreases |idx|
  {
    if idx != [] {
      var i := idx[0];
      InsertedChild(before, a1, idx, child);
      InsertedChild(before, a2, idx, child);
      InsertedUnique(before.items[i], a1.items[i], a2.items[i], idx[1..], child);
      assert idx[..0] == [];
      assert SameDirAt(before, a1, idx[..0]) && SameDirAt(before, a2, idx[..0]);
      forall k | 0 <= k < |before.items| ensures a1.items[k] == a2.items[k] {
        if k != i {
          var q := [k];
          assert q[1..] == [] && ValidPath(before, q);
          assert !OnPath(q, idx) by { assert idx[..1] == [i]; }
          assert At(a1, q) == a1.items[k] && At(a2, q) == a2.items[k];
        }
      }
      assert a1.items == a2.items;
    }
  }

  /** One step of resolution from a directory into a named child. */
  lemma ResolveChild(item: Item, name: string, rest: seq<string>, i: nat, r: seq<nat>)
    requires item.Directory? && name != "/"
    requires FindDir(item.items, name) == Some(i) && Resolve(item.items[i], rest) == Ok(r)
    ensures Resolve(item, [name] + rest) == Ok([i] + r)
  {
    assert ([name] + rest)[1..] == rest;
  }

  /** The first directory among siblings that carries a given name. */
  lemma FindDirAt(items: seq<Item>, name: string, i: nat)
    requires i < |items| && IsDirNamed(items[i], name)
    requires forall j :: 0 <= j < i ==> !IsDirNamed(items[j], name)
    ensures FindDir(items, name) == Some(i)
  {
  }

  /** One step of insertion below a directory's child. */
  lemma AddAtChild(root: Item, i: nat, rest: seq<nat>, child: Item, updated: Item)
    requires root.Directory? && i < |root.items| && ValidPath(root.items[i], rest)
    requires AddAt(root.items[i], rest, child) == Ok(updated)
    ensures ValidPath(root, [i] + rest)
    ensures AddAt(root, [i] + rest, child) == Ok(Directory(root.name, root.items[i := updated]))
  {
    assert ([i] + rest)[1..] == rest;
  }

  /** A leading root marker is skipped. */
  lemma ResolveSkipRoot(item: Item, rest: seq<string>)
    ensures Resolve(item, ["/"] + rest) == Resolve(item, rest)
  {
    assert (["/"] + rest)[1..] == rest;
  }
}
