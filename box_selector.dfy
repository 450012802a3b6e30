/** Box selection: choose the first packed bin that holds every item and
    leaves the dunnage allowance free.

    The 3D packing library is an oracle. What it returns after packing is
    an input: the list of bins, in the library's order, each with the catalog
    box it was built from and the items the library placed in it. */
module BoxSelector {
  import opened Common

  /** A catalog entry of the box configuration. */
  datatype Box = Box(name: string, length: real, width: real, height: real, maxWeight: real)

  /** The packing library's bin. The library has no `length`: the catalog's
      length becomes the bin's `depth`. */
  datatype Bin = Bin(name: string, width: real, height: real, depth: real, maxWeight: real)

  /** The packing library's item, built from an input item in the same way. */
  datatype PackItem = PackItem(name: string, width: real, height: real, depth: real, weight: real)

  /** One bin of the packer after packing: the box it was made from and the
      items the library placed in it. */
  datatype Packing = Packing(box: Box, packed: seq<PackItem>)

  /** The dictionary select_best_box returns: the chosen box or an error. */
  datatype Selection =
    | Selected(box: string, length: real, width: real, height: real,
               usedVolume: real, boxVolume: real, dunnageReserved: real,
               items: seq<string>)
    | NoFit(error: string)

  const NoFitMessage: string := "No box fits all items with dunnage allowance."

  /** The ratio select_best_box uses when the caller gives none. */
  const DefaultDunnageRatio: real := 0.25

  /** get_volume. */
  function Volume(length: real, width: real, height: real): real {
    length * width * height
  }

  /** The bin the selector adds to the packer for a catalog box. */
  function ToBin(box: Box): Bin {
    Bin(box.name, box.width, box.height, box.length, box.maxWeight)
  }

  /** The library item the selector adds for the `i`-th input item; an item
      without an id is named after its position. */
  function ToPackItem(item: Item, i: nat): PackItem {
    var name := if item.id.Some? then item.id.value else "item-" + NatToString(i);
    PackItem(name, item.width, item.height, item.length, item.weight)
  }

  /** All items, as added to the packer in input order. */
  function PackItems(items: seq<Item>): seq<PackItem> {
    PackItemsFrom(items, 0)
  }

  /** The library items for `items`, the first of which is input item `offset`. */
  function PackItemsFrom(items: seq<Item>, offset: nat): seq<PackItem> {
    seq(|items|, i requires 0 <= i < |items| => ToPackItem(items[i], offset + i))
  }

  /** The library's volume of one packed item. */
  function PackItemVolume(p: PackItem): real {
    p.width * p.height * p.depth
  }

  /** The sum of the packed items' volumes. */
  function SumVolume(s: seq<PackItem>): real {
    if s == [] then 0.0 else PackItemVolume(s[0]) + SumVolume(s[1..])
  }

  /** The sum of the input items' own bounding-box volumes. */
  function ItemsVolume(items: seq<Item>): real {
    if items == [] then 0.0
    else items[0].length * items[0].width * items[0].height + ItemsVolume(items[1..])
  }

  function Names(s: seq<PackItem>): (names: seq<string>)
    ensures |names| == |s|
    ensures forall i :: 0 <= i < |s| ==> names[i] == s[i].name
  {
    if s == [] then [] else [s[0].name] + Names(s[1..])
  }

  /** The two acceptance conditions of a bin: it received all `n` items, and
      their volume leaves `ratio` of the box free. */
  predicate Accepts(p: Packing, n: nat, ratio: real) {
    |p.packed| == n
    && SumVolume(p.packed) <= p.box.length * p.box.width * p.box.height * (1.0 - ratio)
  }

  /** Bin `k` is acceptable and every bin before it is not. */
  predicate FirstFit(packing: seq<Packing>, k: nat, n: nat, ratio: real) {
    k < |packing|
    && Accepts(packing[k], n, ratio)
    && forall j :: 0 <= j < k ==> !Accepts(packing[j], n, ratio)
  }

  /** `r` is the report for bin `p`, stated in terms of the catalog box. */
  predicate Describes(r: Selection, p: Packing, ratio: real) {
    && r.Selected?
    && r.box == p.box.name
    && r.length == p.box.length && r.width == p.box.width && r.height == p.box.height
    && r.usedVolume == SumVolume(p.packed)
    && r.boxVolume == p.box.length * p.box.width * p.box.height
    && r.dunnageReserved == r.boxVolume * ratio
    && r.items == Names(p.packed)
  }

  /** The index of the first acceptable bin, if there is one. */
  function FirstAccepted(packing: seq<Packing>, n: nat, ratio: real): (k: Option<nat>)
    ensures k.Some? ==> FirstFit(packing, k.value, n, ratio)
    ensures k.None? <==> forall j :: 0 <= j < |packing| ==> !Accepts(packing[j], n, ratio)
  {
    if packing == [] then None
    else if Accepts(packing[0], n, ratio) then Some(0)
    else match FirstAccepted(packing[1..], n, ratio)
      case None => None
      case Some(k) =>
        assert forall j :: 1 <= j <= k ==> packing[j] == packing[1..][j - 1];
        Some(k + 1)
  }

  /** select_best_box after packing: walk the bins in the packer's order and
      report the first one that holds every item within the dunnage bound. */
  method SelectBestBox(items: seq<Item>, packing: seq<Packing>, dunnageRatio: real)
    returns (r: Selection)
    ensures r.NoFit? <==> forall j :: 0 <= j < |packing| ==> !Accepts(packing[j], |items|, dunnageRatio)
    ensures r.NoFit? ==> r.error == NoFitMessage
    ensures r.Selected? ==>
      exists k: nat :: FirstFit(packing, k, |items|, dunnageRatio) && Describes(r, packing[k], dunnageRatio)
    ensures r.Selected? ==>
      |r.items| == |items| && r.usedVolume <= r.boxVolume * (1.0 - dunnageRatio)
    ensures r.Selected? <==> FirstAccepted(packing, |items|, dunnageRatio).Some?
  {
    for k := 0 to |packing|
      invariant forall j :: 0 <= j < k ==> !Accepts(packing[j], |items|, dunnageRatio)
    {
      var bin := ToBin(packing[k].box);
      var packed := packing[k].packed;
      if |packed| == |items| {
        var boxVolume := Volume(bin.depth, bin.width, bin.height);
        var usedVolume := SumVolume(packed);
        if usedVolume <= boxVolume * (1.0 - dunnageRatio) {
          r := Selected(bin.name, bin.depth, bin.width, bin.height,
                        usedVolume, boxVolume, boxVolume * dunnageRatio, Names(packed));
          assert FirstFit(packing, k, |items|, dunnageRatio);
          return;
        }
      }
    }
    r := NoFit(NoFitMessage);
  }

  lemma {:induction false} SumVolumeAppend(a: seq<PackItem>, b: seq<PackItem>)
    ensures SumVolume(a + b) == SumVolume(a) + SumVolume(b)
  {
    if a != [] {
      assert (a + b)[0] == a[0];
      assert (a + b)[1..] == a[1..] + b;
      SumVolumeAppend(a[1..], b);
    } else {
      assert a + b == b;
    }
  }

  lemma SumVolumeRemove(b: seq<PackItem>, k: nat)
    requires k < |b|
    ensures SumVolume(b) == PackItemVolume(b[k]) + SumVolume(b[..k] + b[k + 1..])
  {
    assert b == b[..k] + b[k..];
    assert b[k..][1..] == b[k + 1..];
    SumVolumeAppend(b[..k], b[k..]);
    SumVolumeAppend(b[..k], b[k + 1..]);
  }

  /** Removing the element at `k` removes one occurrence of it. */
  lemma MultisetWithout<T>(s: seq<T>, k: nat)
    requires k < |s|
    ensures multiset(s[..k] + s[k + 1..]) == multiset(s) - multiset{s[k]}
  {
    assert s == s[..k] + [s[k]] + s[k + 1..];
    assert multiset(s) == multiset(s[..k] + s[k + 1..]) + multiset{s[k]};
  }

  /** In two sequences with the same elements, the first element of one sits
      at some index `k` of the other, and what is left on both sides agrees. */
  lemma MatchFirst<T>(a: seq<T>, b: seq<T>) returns (k: nat)
    requires multiset(a) == multiset(b) && a != []
    ensures k < |b| && b[k] == a[0]
    ensures multiset(a[1..]) == multiset(b[..k] + b[k + 1..])
  {
    var x := a[0];
    assert a == [x] + a[1..];
    assert multiset(a) == multiset{x} + multiset(a[1..]);
    assert x in multiset(b);
    k :| 0 <= k < |b| && b[k] == x;
    MultisetWithout(b, k);
  }

  /** The sum of volumes does not depend on the order of the items. */
  lemma {:induction false} SumVolumePermutation(a: seq<PackItem>, b: seq<PackItem>)
    requires multiset(a) == multiset(b)
    ensures SumVolume(a) == SumVolume(b)
    decreases |a|
  {
    if a == [] {
      assert |b| == |multiset(b)| == 0;
    } else {
      var k := MatchFirst(a, b);
      SumVolumePermutation(a[1..], b[..k] + b[k + 1..]);
      SumVolumeRemove(b, k);
    }
  }

  lemma {:induction false} PackItemsVolume(items: seq<Item>, offset: nat)
    ensures SumVolume(PackItemsFrom(items, offset)) == ItemsVolume(items)
  {
    var s := PackItemsFrom(items, offset);
    if items != [] {
      PackItemsVolume(items[1..], offset + 1);
      var rest := PackItemsFrom(items[1..], offset + 1);
      forall i | 0 <= i < |rest| ensures s[1..][i] == rest[i] {
        assert items[1..][i] == items[i + 1];
      }
      assert s[1..] == rest;
    }
  }

  /** A sub-multiset as large as the whole is the whole. */
  lemma SubMultisetOfSameSize<T>(a: seq<T>, b: seq<T>)
    requires multiset(a) <= multiset(b) && |a| == |b|
    ensures multiset(a) == multiset(b)
  {
    var d := multiset(b) - multiset(a);
    assert multiset(b) == multiset(a) + d;
    assert |d| == 0;
  }

  /** No double count: when a bin received all the items (the packed items
      being drawn from those added to the packer), its used volume is the sum
      of the input items' own volumes, whatever the arrangement. */
  lemma {:induction false} FullPackVolume(items: seq<Item>, p: Packing)
    requires multiset(p.packed) <= multiset(PackItems(items))
    requires |p.packed| == |items|
    ensures multiset(p.packed) == multiset(PackItems(items))
    ensures SumVolume(p.packed) == ItemsVolume(items)
  {
    SubMultisetOfSameSize(p.packed, PackItems(items));
    SumVolumePermutation(p.packed, PackItems(items));
    PackItemsVolume(items, 0);
  }

  /** A single 10 x 8 x 6 item and a 10 x 8 x 6 catalog box at the default
      ratio: whatever the library packs, the box is refused, because the item
      fills the whole box and only three quarters may be used. */
  lemma {:induction false} ExactFitIsRejected(packed: seq<PackItem>)
    requires multiset(packed) <= multiset(PackItems([Item(Some("A"), 10.0, 8.0, 6.0, 2.0)]))
    ensures FirstAccepted([Packing(Box("Small", 10.0, 8.0, 6.0, 5.0), packed)], 1, DefaultDunnageRatio).None?
  {
    var item := Item(Some("A"), 10.0, 8.0, 6.0, 2.0);
    var p := Packing(Box("Small", 10.0, 8.0, 6.0, 5.0), packed);
    if |packed| == 1 {
      FullPackVolume([item], p);
      assert SumVolume(packed) == 480.0;
    }
  }
}
