/** The item list built from the cart: each variant's dimensions are read
    from its "product" metafields, and a variant with dimensions contributes
    one item per unit ordered.

    The HTTP lookup is a parameter: `fetch(v)` is the metafield list of
    variant `v`, or `None` when the store did not answer with status 200. */
module ItemList {
  import opened Common

  /** One metafield of a variant. `value` is the field's value as `float()`
      sees it: `Some(x)` when the conversion gives `x`, `None` when it raises
      a ValueError or a TypeError. */
  datatype Metafield = Metafield(namespace: string, key: string, value: Option<real>)

  type Dimensions = map<string, real>

  /** The four metafield keys the item list needs. */
  const DimensionKeys: set<string> := {"length", "width", "height", "weight"}

  /** A metafield that get_variant_dimensions records. */
  predicate IsDimensionField(f: Metafield) {
    f.namespace == "product" && f.key in DimensionKeys
  }

  /** The number recorded for a field: the parsed value, or 0.0 when the
      value does not parse. */
  function Parsed(f: Metafield): real {
    if f.value.Some? then f.value.value else 0.0
  }

  /** The dimensions dictionary after the loop over `fields`. */
  function Recorded(fields: seq<Metafield>): (d: Dimensions)
    ensures d.Keys <= DimensionKeys
  {
    if fields == [] then map[]
    else
      var f := fields[|fields| - 1];
      var d := Recorded(fields[..|fields| - 1]);
      if IsDimensionField(f) then d[f.key := Parsed(f)] else d
  }

  /** get_variant_dimensions for a response: the dictionary when it has all
      four keys, `None` otherwise. */
  function DimensionsOf(fields: seq<Metafield>): (r: Option<Dimensions>)
    ensures r.Some? ==> r.value.Keys == DimensionKeys
  {
    var d := Recorded(fields);
    if |d| == 4 then
      FullSubset(d.Keys, DimensionKeys);
      Some(d)
    else None
  }

  /** The dimensions of variant `v`, through the lookup. */
  function Lookup(fetch: string -> Option<seq<Metafield>>, v: string): Option<Dimensions> {
    if fetch(v).None? then None else DimensionsOf(fetch(v).value)
  }

  /** The record appended for one unit of variant `v`. */
  function ItemFor(v: string, d: Dimensions): Item
    requires d.Keys == DimensionKeys
  {
    Item(Some(v), d["length"], d["width"], d["height"], d["weight"])
  }

  /** The items one cart line contributes: `qty` copies, none when `qty` is
      zero or negative or the variant has no dimensions. */
  function Run(v: string, qty: int, dims: Option<Dimensions>): seq<Item>
    requires dims.Some? ==> dims.value.Keys == DimensionKeys
  {
    if dims.None? || qty <= 0 then [] else seq(qty, _ => ItemFor(v, dims.value))
  }

  /** The item list for the cart lines in iteration order. */
  function ItemsOf(cart: seq<(string, int)>, fetch: string -> Option<seq<Metafield>>): seq<Item> {
    if cart == [] then []
    else
      var (v, qty) := cart[|cart| - 1];
      ItemsOf(cart[..|cart| - 1], fetch) + Run(v, qty, Lookup(fetch, v))
  }

  /** How many items the cart yields: the quantities of the variants that
      have dimensions, negative quantities counting as zero. */
  function UnitCount(cart: seq<(string, int)>, fetch: string -> Option<seq<Metafield>>): nat {
    if cart == [] then 0
    else
      var (v, qty) := cart[|cart| - 1];
      UnitCount(cart[..|cart| - 1], fetch)
        + (if Lookup(fetch, v).Some? && qty > 0 then qty else 0)
  }

  /** The loop of get_variant_dimensions over the metafields. */
  method VariantDimensions(fields: seq<Metafield>) returns (dims: Option<Dimensions>)
    ensures dims == DimensionsOf(fields)
  {
    var dimensions: Dimensions := map[];
    for i := 0 to |fields|
      invariant dimensions == Recorded(fields[..i])
    {
      assert fields[..i + 1][..i] == fields[..i];
      var field := fields[i];
      if field.namespace == "product" {
        var key := field.key;
        if key in ["length", "width", "height", "weight"] {
          if field.value.Some? {
            dimensions := dimensions[key := field.value.value];
          } else {
            dimensions := dimensions[key := 0.0];
          }
        }
      }
    }
    assert fields[..|fields|] == fields;
    dims := if |dimensions| == 4 then Some(dimensions) else None;
  }

  /** get_variant_dimensions with the lookup in front. */
  method GetVariantDimensions(fetch: string -> Option<seq<Metafield>>, v: string)
    returns (dims: Option<Dimensions>)
    ensures dims == Lookup(fetch, v)
  {
    var response := fetch(v);
    if response.None? {
      return None;
    }
    dims := VariantDimensions(response.value);
  }

  /** build_item_list: for each cart line with dimensions, append `qty`
      copies of the variant's item. */
  method BuildItemList(cart: seq<(string, int)>, fetch: string -> Option<seq<Metafield>>)
    returns (items: seq<Item>)
    ensures items == ItemsOf(cart, fetch)
  {
    items := [];
    for i := 0 to |cart|
      invariant items == ItemsOf(cart[..i], fetch)
    {
      assert cart[..i + 1][..i] == cart[..i];
      var (v, qty) := cart[i];
      var dims := GetVariantDimensions(fetch, v);
      if dims.Some? {
        var item := ItemFor(v, dims.value);
        var before := items;
        var j := 0;
        while j < qty
          invariant 0 <= j <= if qty < 0 then 0 else qty
          invariant items == before + seq(j, _ => item)
        {
          items := items + [item];
          j := j + 1;
        }
        assert items == before + Run(v, qty, dims);
      }
    }
    assert cart[..|cart|] == cart;
  }

  /** Only "product" fields with one of the four keys are recorded, and a
      key is recorded exactly when such a field carries it. */
  lemma {:induction false} RecordedKeys(fields: seq<Metafield>, k: string)
    ensures k in Recorded(fields) <==>
      exists j :: 0 <= j < |fields| && IsDimensionField(fields[j]) && fields[j].key == k
  {
    if fields != [] {
      var init := fields[..|fields| - 1];
      RecordedKeys(init, k);
      assert forall j :: 0 <= j < |init| ==> init[j] == fields[j];
    }
  }

  /** The last recorded field with key `k`, if any. */
  function LastField(fields: seq<Metafield>, k: string): (r: Option<Metafield>)
    ensures r.Some? ==> IsDimensionField(r.value) && r.value.key == k
  {
    if fields == [] then None
    else
      var f := fields[|fields| - 1];
      if IsDimensionField(f) && f.key == k then Some(f) else LastField(fields[..|fields| - 1], k)
  }

  /** A later field with the same key overwrites an earlier one, and a value
      that does not parse is recorded as 0.0 rather than skipped. */
  lemma {:induction false} RecordedLastWins(fields: seq<Metafield>, k: string)
    ensures k in Recorded(fields) <==> LastField(fields, k).Some?
    ensures k in Recorded(fields) ==> Recorded(fields)[k] == Parsed(LastField(fields, k).value)
  {
    if fields != [] {
      RecordedLastWins(fields[..|fields| - 1], k);
    }
  }

  /** The dimensions come back exactly when each of the four keys appears on
      some "product" field. */
  lemma DimensionsComplete(fields: seq<Metafield>)
    ensures DimensionsOf(fields).Some? <==>
      forall k :: k in DimensionKeys ==>
        exists j :: 0 <= j < |fields| && IsDimensionField(fields[j]) && fields[j].key == k
  {
    var d := Recorded(fields);
    forall k | k in DimensionKeys
      ensures k in d <==> exists j :: 0 <= j < |fields| && IsDimensionField(fields[j]) && fields[j].key == k
    {
      RecordedKeys(fields, k);
    }
    if d.Keys == DimensionKeys {
      assert |DimensionKeys| == 4;
    }
  }

  /** A "length" field whose value does not parse still counts: with the
      other three keys present, the variant's length is 0.0. */
  lemma UnparsableValueIsZero(width: real, height: real, weight: real)
    ensures DimensionsOf([Metafield("product", "length", None), Metafield("product", "width", Some(width)),
                          Metafield("product", "height", Some(height)), Metafield("product", "weight", Some(weight))])
            == Some(map["length" := 0.0, "width" := width, "height" := height, "weight" := weight])
  {
    var fields := [Metafield("product", "length", None), Metafield("product", "width", Some(width)),
                   Metafield("product", "height", Some(height)), Metafield("product", "weight", Some(weight))];
    assert fields[..3][..2] == fields[..2] && fields[..2][..1] == fields[..1] && fields[..1][..0] == [];
    assert fields[..|fields| - 1] == fields[..3];
    assert Recorded(fields[..1]) == map["length" := 0.0];
    assert Recorded(fields[..2]) == map["length" := 0.0, "width" := width];
    assert Recorded(fields[..3]) == map["length" := 0.0, "width" := width, "height" := height];
    var d := map["length" := 0.0, "width" := width, "height" := height, "weight" := weight];
    assert Recorded(fields) == d;
    assert d.Keys == DimensionKeys;
  }

  /** Fields in another namespace are ignored: three "product" keys and a
      fourth in "custom" give no dimensions. */
  lemma OtherNamespaceIgnored(x: real)
    ensures DimensionsOf([Metafield("product", "length", Some(x)), Metafield("product", "width", Some(x)),
                          Metafield("product", "height", Some(x)), Metafield("custom", "weight", Some(x))])
            == None
  {
    var fields := [Metafield("product", "length", Some(x)), Metafield("product", "width", Some(x)),
                   Metafield("product", "height", Some(x)), Metafield("custom", "weight", Some(x))];
    assert fields[..3][..2] == fields[..2] && fields[..2][..1] == fields[..1] && fields[..1][..0] == [];
    assert fields[..|fields| - 1] == fields[..3];
    assert Recorded(fields[..1]) == map["length" := x];
    assert Recorded(fields[..2]) == map["length" := x, "width" := x];
    assert Recorded(fields[..3]) == map["length" := x, "width" := x, "height" := x];
    assert Recorded(fields).Keys == {"length", "width", "height"};
  }

  /** The item list of consecutive cart lines is the concatenation of their
      item lists: every line's items form one contiguous run, in cart order. */
  lemma {:induction false} ItemsOfAppend(a: seq<(string, int)>, b: seq<(string, int)>,
                                         fetch: string -> Option<seq<Metafield>>)
    ensures ItemsOf(a + b, fetch) == ItemsOf(a, fetch) + ItemsOf(b, fetch)
    decreases |b|
  {
    if b == [] {
      assert a + b == a;
    } else {
      var init := b[..|b| - 1];
      ItemsOfAppend(a, init, fetch);
      assert (a + b)[..|a + b| - 1] == a + init;
      assert (a + b)[|a + b| - 1] == b[|b| - 1];
    }
  }

  /** The run of cart line `i` sits between the items of the lines before
      and after it; a line without dimensions contributes nothing. */
  lemma LineRun(cart: seq<(string, int)>, fetch: string -> Option<seq<Metafield>>, i: nat)
    requires i < |cart|
    ensures ItemsOf(cart, fetch)
            == ItemsOf(cart[..i], fetch) + Run(cart[i].0, cart[i].1, Lookup(fetch, cart[i].0))
               + ItemsOf(cart[i + 1..], fetch)
  {
    var head := cart[..i] + [cart[i]];
    assert cart == head + cart[i + 1..];
    ItemsOfAppend(head, cart[i + 1..], fetch);
    assert head[..|head| - 1] == cart[..i];
    assert head[|head| - 1] == cart[i];
    assert ItemsOf(head, fetch) == ItemsOf(cart[..i], fetch) + Run(cart[i].0, cart[i].1, Lookup(fetch, cart[i].0));
  }

  /** The number of items is the sum of the positive quantities of the
      variants that have dimensions. */
  lemma {:induction false} ItemsOfLength(cart: seq<(string, int)>, fetch: string -> Option<seq<Metafield>>)
    ensures |ItemsOf(cart, fetch)| == UnitCount(cart, fetch)
  {
    if cart != [] {
      ItemsOfLength(cart[..|cart| - 1], fetch);
    }
  }

  /** Item `x` is the item of cart line `j`, whose variant has dimensions. */
  predicate FromLine(cart: seq<(string, int)>, fetch: string -> Option<seq<Metafield>>, j: nat, x: Item) {
    j < |cart| && Lookup(fetch, cart[j].0).Some? && x == ItemFor(cart[j].0, Lookup(fetch, cart[j].0).value)
  }

  /** Every item carries the id of a cart line whose variant has dimensions,
      and exactly that variant's four numbers. */
  lemma {:induction false} ItemsOfProvenance(cart: seq<(string, int)>, fetch: string -> Option<seq<Metafield>>, i: nat)
    requires i < |ItemsOf(cart, fetch)|
    ensures exists j: nat :: FromLine(cart, fetch, j, ItemsOf(cart, fetch)[i])
  {
    var init := cart[..|cart| - 1];
    var (v, qty) := cart[|cart| - 1];
    var prefix := ItemsOf(init, fetch);
    var run := Run(v, qty, Lookup(fetch, v));
    var s := ItemsOf(cart, fetch);
    assert s == prefix + run;
    if i < |prefix| {
      ItemsOfProvenance(init, fetch, i);
      var j: nat :| FromLine(init, fetch, j, prefix[i]);
      assert cart[j] == init[j] && s[i] == prefix[i];
      assert FromLine(cart, fetch, j, s[i]);
    } else {
      assert s[i] == run[i - |prefix|];
      assert FromLine(cart, fetch, |cart| - 1, s[i]);
    }
  }

  /** Two units of a variant with dimensions, and one of a variant the store
      does not answer for: two identical items, both for the first. */
  lemma QuantityExpansion(fetch: string -> Option<seq<Metafield>>, d: Dimensions)
    requires Lookup(fetch, "101") == Some(d)
    requires fetch("202").None?
    ensures ItemsOf([("101", 2), ("202", 5)], fetch) == [ItemFor("101", d), ItemFor("101", d)]
  {
    var cart: seq<(string, int)> := [("101", 2), ("202", 5)];
    assert cart[..1][..0] == [];
    assert cart[..1] == [("101", 2)];
  }
}
