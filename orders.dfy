/** Which spectral orders a simulation computes. Both simulator classes accept
    one order or a list of them, reject anything but orders 1 and 2, drop
    duplicates, and restrict an F277W observation to order 1 (the filter cuts
    off the wavelengths order 2 would add). They differ in how they recognise
    F277W. */
module Orders {
  import opened Wrappers
  import opened PyStrings

  /** An `orders` argument: a bare int or a list of ints. */
  datatype OrdersArg = OneOrder(order: int) | OrderList(orders: seq<int>)

  const F277W: string := "F277W"

  /** The argument as a list (`[orders]` for a bare int). */
  function AsList(arg: OrdersArg): (os: seq<int>)
    ensures arg.OneOrder? ==> os == [arg.order]
    ensures arg.OrderList? ==> os == arg.orders
  {
    match arg
    case OneOrder(o) => [o]
    case OrderList(os) => os
  }

  predicate ValidOrder(o: int) {
    o == 1 || o == 2
  }

  /** `list(set(orders))` after the membership check: every order outside
      {1, 2} raises `TypeError`; otherwise the distinct orders, in the
      ascending order CPython iterates a set of small ints. */
  function NormaliseOrders(arg: OrdersArg): (r: Result<seq<int>>)
  {
    var os := AsList(arg);
    if exists i :: 0 <= i < |os| && !ValidOrder(os[i]) then Err(TypeError)
    else Ok((if 1 in os then [1] else []) + (if 2 in os then [2] else []))
  }

  /** The normalised orders are the distinct valid orders of the argument, in
      ascending order; any invalid order is a `TypeError`. */
  lemma NormaliseOrdersSpec(arg: OrdersArg)
    ensures var r := NormaliseOrders(arg);
      && (r.Err? <==> exists o :: o in AsList(arg) && !ValidOrder(o))
      && (r.Err? ==> r.error == TypeError)
      && (r.Ok? ==> forall o :: o in r.value <==> o in AsList(arg))
      && (r.Ok? ==> forall i, j :: 0 <= i < j < |r.value| ==> r.value[i] < r.value[j])
      && (r.Ok? ==> forall i :: 0 <= i < |r.value| ==> ValidOrder(r.value[i]))
  {
    var os := AsList(arg);
    if exists o :: o in os && !ValidOrder(o) {
      var o :| o in os && !ValidOrder(o);
      var i :| 0 <= i < |os| && os[i] == o;
    }
  }

  /** A bare int becomes a one-element list. */
  lemma SingleOrder(o: int)
    requires ValidOrder(o)
    ensures NormaliseOrders(OneOrder(o)) == Ok([o])
  {
    var os := AsList(OneOrder(o));
    assert !exists i :: 0 <= i < |os| && !ValidOrder(os[i]);
    if o == 1 {
      assert 1 in [o] && 2 !in [o];
      assert [1] + [] == [o];
    } else {
      assert 1 !in [o] && 2 in [o];
      assert [] + [2] == [o];
    }
  }

  /** Normalising twice changes nothing. */
  lemma NormaliseIdempotent(arg: OrdersArg)
    requires NormaliseOrders(arg).Ok?
    ensures NormaliseOrders(OrderList(NormaliseOrders(arg).value)) == NormaliseOrders(arg)
  {
    NormaliseOrdersSpec(arg);
    NormaliseOrdersSpec(OrderList(NormaliseOrders(arg).value));
  }

  /** The first-generation rule: a filter naming F277W in any letter case.
      It yields the orders to run and the filter the object now records; any
      other filter leaves the recorded filter as it was. */
  function OlderFilterRule(orders: seq<int>, filt: string, current: string): (r: (seq<int>, string))
  {
    if Contains(Upper(filt), F277W) then ([1], F277W) else (orders, current)
  }

  /** After the first-generation rule the recorded filter is either the one
      it was or F277W, and F277W always comes with order 1 alone. */
  lemma OlderFilterRuleSpec(orders: seq<int>, filt: string, current: string)
    ensures var (os, f) := OlderFilterRule(orders, filt, current);
      && (f == current || f == F277W)
      && (Contains(Upper(filt), F277W) ==> os == [1] && f == F277W)
      && (!Contains(Upper(filt), F277W) ==> os == orders && f == current)
  {
  }

  /** Lower-case spellings, and names with F277W inside, are caught too. */
  lemma OlderFilterRuleCaseInsensitive()
    ensures OlderFilterRule([1, 2], "f277w", "CLEAR") == ([1], F277W)
    ensures OlderFilterRule([1, 2], "CLEAR", "CLEAR") == ([1, 2], "CLEAR")
  {
    assert Upper("f277w") == "F277W";
    ContainsSelf(F277W);
    assert Upper("CLEAR") == "CLEAR";
    assert "CLEAR"[..5][0] != F277W[0];
    assert !Contains("CLEAR"[1..], F277W);
  }

  /** The second-generation rule: only the exact name F277W restricts the orders. */
  function NewerFilterRule(orders: seq<int>, filt: string): (os: seq<int>)
    ensures filt == F277W ==> os == [1]
    ensures filt != F277W ==> os == orders
  {
    if filt == F277W then [1] else orders
  }

  /** The rules disagree on a lower-case filter name. */
  lemma FilterRulesDiffer()
    ensures OlderFilterRule([1, 2], "f277w", "CLEAR").0 == [1]
    ensures NewerFilterRule([1, 2], "f277w") == [1, 2]
  {
    OlderFilterRuleCaseInsensitive();
  }
}
