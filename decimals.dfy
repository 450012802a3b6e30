/** The decimal sanitiser: a walk over a Python value that turns every
    Decimal it reaches into a float so that the value can be serialised.

    The conversion of one Decimal to a float is a parameter `toFloat`; its
    rounding is not modelled. */
module Decimals {
  import opened Common

  /** The Python values the sanitiser meets. A dict is its sequence of
      entries in insertion order. `Other` is any object that is none of the
      kinds the sanitiser tests for (a frozenset, a deque, a custom object),
      with the values it holds. */
  datatype Value =
    | Decimal(decimal: real)
    | Float(number: real)
    | Int(integer: int)
    | Str(text: string)
    | Bool(truth: bool)
    | Null
    | Dict(entries: seq<Entry>)
    | List(elems: seq<Value>)
    | Tuple(elems: seq<Value>)
    | Set(members: set<Value>)
    | Other(kind: string, held: seq<Value>)

  datatype Entry = Entry(key: Value, value: Value)

  /** A value that is neither a dict, a list, a tuple nor a set; the
      sanitiser does not look inside it. */
  predicate IsLeaf(v: Value) {
    !(v.Dict? || v.List? || v.Tuple? || v.Set?)
  }

  /** No Decimal is left anywhere the sanitiser looks: at the top, in dict
      values, and in the elements of lists, tuples and sets. Dict keys and
      the insides of other objects are not looked at. */
  predicate Sanitised(v: Value) {
    match v
    case Decimal(_) => false
    case Dict(es) => forall i :: 0 <= i < |es| ==> Sanitised(es[i].value)
    case List(xs) => forall i :: 0 <= i < |xs| ==> Sanitised(xs[i])
    case Tuple(xs) => forall i :: 0 <= i < |xs| ==> Sanitised(xs[i])
    case Set(xs) => forall x :: x in xs ==> Sanitised(x)
    case _ => true
  }

  /** convert_decimals. */
  function Convert(v: Value, toFloat: real -> real): (r: Value)
    ensures Sanitised(r)
    ensures v.Decimal? ==> r == Float(toFloat(v.decimal))
    ensures IsLeaf(v) && !v.Decimal? ==> r == v
    ensures v.Dict? ==> (r.Dict? && |r.entries| == |v.entries|
      && forall i :: 0 <= i < |v.entries| ==>
           r.entries[i] == Entry(v.entries[i].key, Convert(v.entries[i].value, toFloat)))
    ensures v.List? ==> (r.List? && |r.elems| == |v.elems|
      && forall i :: 0 <= i < |v.elems| ==> r.elems[i] == Convert(v.elems[i], toFloat))
    ensures v.Tuple? ==> (r.Tuple? && |r.elems| == |v.elems|
      && forall i :: 0 <= i < |v.elems| ==> r.elems[i] == Convert(v.elems[i], toFloat))
    ensures v.Set? ==> (r.Set? && |r.members| <= |v.members|
      && r.members == set x | x in v.members :: Convert(x, toFloat))
    decreases v
  {
    match v
    case Decimal(d) => Float(toFloat(d))
    case Dict(es) =>
      Dict(seq(|es|, i requires 0 <= i < |es| => Entry(es[i].key, Convert(es[i].value, toFloat))))
    case List(xs) => List(seq(|xs|, i requires 0 <= i < |xs| => Convert(xs[i], toFloat)))
    case Tuple(xs) => Tuple(seq(|xs|, i requires 0 <= i < |xs| => Convert(xs[i], toFloat)))
    case Set(xs) =>
      var image := set x | x in xs :: Convert(x, toFloat);
      ImageNoLarger(xs, image, x requires x in xs => Convert(x, toFloat));
      Set(image)
    case _ => v
  }

  /** A set whose every member is the image of a member of `s` is no
      larger than `s`: elements that convert to the same value merge. */
  lemma {:induction false} ImageNoLarger<A, B>(s: set<A>, t: set<B>, f: A --> B)
    requires forall x :: x in s ==> f.requires(x)
    requires forall y :: y in t ==> exists x :: x in s && y == f(x)
    ensures |t| <= |s|
  {
    if s != {} {
      var x :| x in s;
      var rest := t - {f(x)};
      forall y | y in rest ensures exists z :: z in s - {x} && y == f(z) {
        var z :| z in s && y == f(z);
      }
      ImageNoLarger(s - {x}, rest, f);
      assert t <= rest + {f(x)};
      SubsetSize(t, rest + {f(x)});
    } else {
      assert t == {};
    }
  }

  /** A value with nothing left to convert is returned unchanged. */
  lemma {:induction false} SanitisedUnchanged(v: Value, toFloat: real -> real)
    requires Sanitised(v)
    ensures Convert(v, toFloat) == v
    decreases v
  {
    match v
    case Dict(es) =>
      forall i | 0 <= i < |es| ensures Convert(es[i].value, toFloat) == es[i].value {
        SanitisedUnchanged(es[i].value, toFloat);
      }
      assert Convert(v, toFloat).entries == es;
    case List(xs) =>
      forall i | 0 <= i < |xs| ensures Convert(xs[i], toFloat) == xs[i] {
        SanitisedUnchanged(xs[i], toFloat);
      }
      assert Convert(v, toFloat).elems == xs;
    case Tuple(xs) =>
      forall i | 0 <= i < |xs| ensures Convert(xs[i], toFloat) == xs[i] {
        SanitisedUnchanged(xs[i], toFloat);
      }
      assert Convert(v, toFloat).elems == xs;
    case Set(xs) =>
      forall x | x in xs ensures Convert(x, toFloat) == x {
        SanitisedUnchanged(x, toFloat);
      }
      assert Convert(v, toFloat).members == xs;
    case _ =>
  }

  /** Converting twice gives what converting once gives. */
  lemma Idempotent(v: Value, toFloat: real -> real)
    ensures Convert(Convert(v, toFloat), toFloat) == Convert(v, toFloat)
  {
    SanitisedUnchanged(Convert(v, toFloat), toFloat);
  }

  /** Dict keys are not converted: a Decimal key comes back as it was. */
  lemma DecimalKeyKept(toFloat: real -> real)
    ensures Convert(Dict([Entry(Decimal(1.5), Decimal(2.5))]), toFloat)
            == Dict([Entry(Decimal(1.5), Float(toFloat(2.5)))])
  {
    var r := Convert(Dict([Entry(Decimal(1.5), Decimal(2.5))]), toFloat);
    assert r.entries == [Entry(Decimal(1.5), Float(toFloat(2.5)))];
  }

  /** A frozenset is not a set to the sanitiser: it comes back as it is,
      Decimal members included. */
  lemma FrozensetKept(toFloat: real -> real)
    ensures Convert(Other("frozenset", [Decimal(1.0)]), toFloat) == Other("frozenset", [Decimal(1.0)])
    ensures Convert(Set({Decimal(1.0)}), toFloat) == Set({Float(toFloat(1.0))})
  {
  }
}
