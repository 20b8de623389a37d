/** Dialling the approved addresses of a destination: the split by address family and the race of the two
    dialers (`DialContext` in internal/acl/acl.go). */
module DialRace {
  import opened Bytes
  import opened Address

  /** Either one list tried in order, or two lists raced. */
  datatype Plan = Single(list: seq<Address>) | Race(primary: seq<Address>, fallback: seq<Address>)

  /** Among the first `n` entries, those of one type (`same`) or the others, in order. */
  function OfTypeUpTo(list: seq<Address>, n: nat, atyp: byte, same: bool): seq<Address>
    requires n <= |list|
  {
    if n == 0 then []
    else
      var before := OfTypeUpTo(list, n - 1, atyp, same);
      if (list[n - 1].atyp == atyp) == same then before + [list[n - 1]] else before
  }

  function OfType(list: seq<Address>, atyp: byte, same: bool): seq<Address>
  {
    OfTypeUpTo(list, |list|, atyp, same)
  }

  /** Everything in `s` is in `list` and of the type asked for. */
  ghost predicate Sorted(s: seq<Address>, list: seq<Address>, atyp: byte, same: bool)
  {
    forall i :: 0 <= i < |s| ==> (s[i].atyp == atyp) == same && s[i] in list
  }

  lemma {:induction false} OfTypeSorted(list: seq<Address>, n: nat, atyp: byte, same: bool)
    requires n <= |list|
    ensures Sorted(OfTypeUpTo(list, n, atyp, same), list, atyp, same)
    decreases n
  {
    if n > 0 {
      OfTypeSorted(list, n - 1, atyp, same);
    }
  }

  /** How often `x` is among the first `n` entries. */
  function Occurs(s: seq<Address>, n: nat, x: Address): nat
    requires n <= |s|
  {
    if n == 0 then 0 else Occurs(s, n - 1, x) + if s[n - 1] == x then 1 else 0
  }

  lemma {:induction false} OccursStays(s: seq<Address>, more: seq<Address>, n: nat, x: Address)
    requires n <= |s|
    ensures Occurs(s + more, n, x) == Occurs(s, n, x)
    decreases n
  {
    if n > 0 {
      OccursStays(s, more, n - 1, x);
    }
  }

  lemma OccursSnoc(s: seq<Address>, y: Address, x: Address)
    ensures Occurs(s + [y], |s| + 1, x) == Occurs(s, |s|, x) + if y == x then 1 else 0
  {
    OccursStays(s, [y], |s|, x);
  }

  lemma {:induction false} SplitsUpTo(list: seq<Address>, n: nat, atyp: byte, x: Address)
    requires n <= |list|
    ensures var s, t := OfTypeUpTo(list, n, atyp, true), OfTypeUpTo(list, n, atyp, false);
            Occurs(s, |s|, x) + Occurs(t, |t|, x) == Occurs(list, n, x)
    decreases n
  {
    if n > 0 {
      SplitsUpTo(list, n - 1, atyp, x);
      var s, t := OfTypeUpTo(list, n - 1, atyp, true), OfTypeUpTo(list, n - 1, atyp, false);
      OccursSnoc(s, list[n - 1], x);
      OccursSnoc(t, list[n - 1], x);
    }
  }

  /** The split loses and repeats nothing: each address is in the two lists together as often as in the whole. */
  lemma OfTypeSplits(list: seq<Address>, atyp: byte, x: Address)
    ensures var s, t := OfType(list, atyp, true), OfType(list, atyp, false);
            Occurs(s, |s|, x) + Occurs(t, |t|, x) == Occurs(list, |list|, x)
  {
    SplitsUpTo(list, |list|, atyp, x);
  }

  /** How many entries have another type than the first decides between one list and a race. */
  lemma {:induction false} FallbackEmpty(list: seq<Address>, n: nat, atyp: byte)
    requires n <= |list|
    ensures OfTypeUpTo(list, n, atyp, false) == [] <==> forall j :: 0 <= j < n ==> list[j].atyp == atyp
    ensures OfTypeUpTo(list, n, atyp, false) == [] ==> OfTypeUpTo(list, n, atyp, true) == list[..n]
    ensures n > 0 && list[0].atyp == atyp ==> OfTypeUpTo(list, n, atyp, true) != []
    decreases n
  {
    if n > 0 {
      FallbackEmpty(list, n - 1, atyp);
      assert list[..n - 1] + [list[n - 1]] == list[..n];
    }
  }

  /** How `DialContext` goes about it. Every approved address is in exactly one place of the plan, in its
      order; in a race neither list is empty and each holds one family. */
  method Split(tcp: bool, addresses: seq<Address>) returns (plan: Plan)
    requires addresses != []
    ensures plan.Single? ==> plan.list == addresses
    ensures plan.Race? ==>
      && plan.primary == OfType(addresses, addresses[0].atyp, true)
      && plan.fallback == OfType(addresses, addresses[0].atyp, false)
      && plan.primary != [] && plan.fallback != []
    ensures plan.Race? <==> tcp && exists i :: 0 <= i < |addresses| && addresses[i].atyp != addresses[0].atyp
  {
    if !tcp || |addresses| == 1 {
      return Single(addresses);
    }
    var primary, fallback := [], [];
    for i := 0 to |addresses|
      invariant primary == OfTypeUpTo(addresses, i, addresses[0].atyp, true)
      invariant fallback == OfTypeUpTo(addresses, i, addresses[0].atyp, false)
    {
      var a := addresses[i];
      if a.atyp == addresses[0].atyp {
        primary := primary + [a];
      } else {
        fallback := fallback + [a];
      }
    }
    FallbackEmpty(addresses, |addresses|, addresses[0].atyp);
    assert addresses[..|addresses|] == addresses;
    if |fallback| == 0 {
      return Single(primary);
    }
    return Race(primary, fallback);
  }
}
