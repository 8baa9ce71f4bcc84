/** The directory/file tree and its size aggregate. */
module Tree {
  import opened Results

  const U64_MAX: nat := 0xFFFF_FFFF_FFFF_FFFF

  /** A file size as the source stores it: an unsigned 64-bit integer. */
  type U64 = x: nat | x <= U64_MAX

  /** A directory owns an ordered sequence of children; a file is a leaf. */
  datatype Item =
    | Directory(name: string, items: seq<Item>)
    | File(size: U64, name: string)

  /** The recursive size of an item: a file's stored size, or the total of a
      directory's children. Sizes are unbounded here. */
  function Size(item: Item): nat
    decreases item, 1
  {
    match item
    case File(size, _) => size
    case Directory(_, items) => SumSizes(items)
  }

  /** The total size of a sequence of siblings, accumulated left to right as the
      source's loop does; no sibling is larger than the total. */
  function SumSizes(items: seq<Item>): (r: nat)
    ensures forall k :: 0 <= k < |items| ==> Size(items[k]) <= r
    decreases items, 0
  {
    if items == [] then 0
    else SumSizes(items[..|items| - 1]) + Size(items[|items| - 1])
  }

  /** The size of a directory that has no children is zero, and the size of
      a file is exactly its stored size. */
  lemma SizeBase(name: string, size: U64)
    ensures Size(Directory(name, [])) == 0
    ensures Size(File(size, name)) == size
  {
  }

  /** Appending one sibling adds its size. */
  lemma {:induction false} SumSizesAppend(items: seq<Item>, item: Item)
    ensures SumSizes(items + [item]) == SumSizes(items) + Size(item)
  {
    assert (items + [item])[..|items|] == items;
  }

  /** Totals of concatenated sibling sequences add up. */
  lemma {:induction false} SumSizesConcat(a: seq<Item>, b: seq<Item>)
    ensures SumSizes(a + b) == SumSizes(a) + SumSizes(b)
    decreases |b|
  {
    if b == [] {
      assert a + b == a;
    } else {
      var last := b[|b| - 1];
      var front := b[..|b| - 1];
      assert b == front + [last];
      assert a + b == (a + front) + [last];
      SumSizesAppend(a + front, last);
      SumSizesConcat(a, front);
      SumSizesAppend(front, last);
    }
  }

  /** Replacing one sibling changes the total by the difference of the two sizes. */
  lemma SumSizesUpdate(items: seq<Item>, i: nat, c: Item)
    requires i < |items|
    ensures SumSizes(items[i := c]) + Size(items[i]) == SumSizes(items) + Size(c)
  {
    var pre, post := items[..i], items[i + 1..];
    assert items == pre + [items[i]] + post;
    assert items[i := c] == pre + [c] + post;
    SumSizesConcat(pre + [items[i]], post);
    SumSizesConcat(pre + [c], post);
    SumSizesAppend(pre, items[i]);
    SumSizesAppend(pre, c);
  }

  /** The size of a directory is the sum of the sizes of its children:
      the total of the sizes one gets by looking at each child in turn. */
  lemma {:induction false} SumSizesIsSum(items: seq<Item>)
    ensures SumSizes(items) == Sum(seq(|items|, i requires 0 <= i < |items| => Size(items[i])))
    decreases |items|
  {
    if items != [] {
      var n := |items| - 1;
      var all := seq(|items|, i requires 0 <= i < |items| => Size(items[i]));
      var front := seq(n, i requires 0 <= i < n => Size(items[..n][i]));
      assert all[..n] == front;
      SumSizesIsSum(items[..n]);
      SumOfAppend(all[..n], all[n]);
      assert all == all[..n] + [all[n]];
    }
  }

  /** The plain sum of a sequence of naturals. */
  function Sum(s: seq<nat>): nat
  {
    if s == [] then 0 else s[0] + Sum(s[1..])
  }

  /** Summing is compatible with appending an element at the end. */
  lemma {:induction false} SumOfAppend(s: seq<nat>, x: nat)
    ensures Sum(s + [x]) == Sum(s) + x
    decreases |s|
  {
    if s != [] {
      assert (s + [x])[1..] == s[1..] + [x];
      SumOfAppend(s[1..], x);
    }
  }

  /** get_size as the source computes it: a file's stored size, or an
      accumulator loop over a directory's children, each measured recursively. */
  method GetSize(item: Item) returns (total: nat)
    ensures total == Size(item)
    decreases item
  {
    match item
    case File(size, _) =>
      total := size;
    case Directory(_, items) =>
      total := 0;
      for k := 0 to |items|
        invariant total == SumSizes(items[..k])
      {
        var s := GetSize(items[k]);
        assert items[..k + 1][..k] == items[..k];
        total := total + s;
      }
      assert items[..|items|] == items;
  }

  /** add_item: appending a child to a directory keeps its name and earlier
      children, puts the item last and grows the size by the item's size;
      adding to a file is an error. */
  function AddItem(parent: Item, item: Item): (r: Result<Item>)
    ensures r.Err? <==> parent.File?
    ensures r.Err? ==> r.error == CannotAddItemToFile
    ensures r.Ok? ==> r.value.Directory? && r.value.name == parent.name
    ensures r.Ok? ==> |r.value.items| == |parent.items| + 1
    ensures r.Ok? ==> r.value.items[..|parent.items|] == parent.items
    ensures r.Ok? ==> r.value.items[|parent.items|] == item
    ensures r.Ok? ==> Size(r.value) == Size(parent) + Size(item)
  {
    match parent
    case File(_, _) => Err(CannotAddItemToFile)
    case Directory(name, items) =>
      SumSizesAppend(items, item);
      assert (items + [item])[..|items|] == items;
      Ok(Directory(name, items + [item]))
  }
}
