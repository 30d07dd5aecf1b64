/**
 * The ordered name/value list behind `URLSearchParams`, and its `set`
 * operation as the URL Standard defines it: the first pair with that name
 * takes the new value and later pairs with the same name are dropped;
 * otherwise the pair is appended. Percent-encoding is not modelled.
 */
module Query {
  import opened Wrappers

  type Params = seq<(string, string)>

  function Names(ps: Params): (ns: seq<string>)
    ensures |ns| == |ps|
    ensures forall i | 0 <= i < |ps| :: ns[i] == ps[i].0
    decreases |ps|
  {
    if |ps| == 0 then [] else [ps[0].0] + Names(ps[1..])
  }

  /** The value of the first pair named `name`, as `URLSearchParams.get` reads it. */
  function Lookup(ps: Params, name: string): (r: Option<string>)
    ensures r.None? <==> name !in Names(ps)
    decreases |ps|
  {
    if |ps| == 0 then None
    else if ps[0].0 == name then Some(ps[0].1)
    else Lookup(ps[1..], name)
  }

  /** `params.set(name, value)`. */
  function Set(ps: Params, name: string, value: string): (r: Params)
    ensures Lookup(r, name) == Some(value)
    ensures name !in Names(ps) ==> r == ps + [(name, value)]
  {
    if name in Names(ps) then Replace(ps, name, value)
    else
      LookupAppend(ps, name, value, name);
      ps + [(name, value)]
  }

  /** Every pair's name is one of `known`. */
  predicate NamesWithin(ps: Params, known: set<string>) {
    forall i | 0 <= i < |ps| :: ps[i].0 in known
  }

  /**
   * `if (cond) params.set(name, value)` for a name the list does not hold
   * yet: an append or nothing.
   */
  function SetWhen(ps: Params, cond: bool, name: string, value: string, known: set<string>): (r: Params)
    requires NamesWithin(ps, known) && name !in known
    ensures r == ps + (if cond then [(name, value)] else [])
    ensures NamesWithin(r, known + {name})
  {
    if cond then Set(ps, name, value) else ps
  }

  /** Two `set` calls in a row for two distinct names the list does not hold yet: two appends. */
  function SetTwo(ps: Params, known: set<string>, n1: string, v1: string, n2: string, v2: string): (r: Params)
    requires NamesWithin(ps, known) && n1 !in known && n2 !in known && n1 != n2
    ensures r == ps + [(n1, v1), (n2, v2)]
    ensures NamesWithin(r, known + {n1, n2})
  {
    var p1 := SetWhen(ps, true, n1, v1, known);
    var r := SetWhen(p1, true, n2, v2, known + {n1});
    assert known + {n1} + {n2} == known + {n1, n2};
    r
  }

  lemma AppendPairs(ps: Params, a: (string, string), b: (string, string), c: (string, string), d: (string, string))
    ensures ps + [a, b] + [c, d] == ps + [a, b, c, d]
  {
  }

  /** `set` leaves the value of every other name as it was. */
  lemma SetKeepsOthers(ps: Params, name: string, value: string, other: string)
    requires other != name
    ensures Lookup(Set(ps, name, value), other) == Lookup(ps, other)
  {
    if name !in Names(ps) {
      LookupAppend(ps, name, value, other);
    }
  }

  /** Gives the first pair named `name` the value and drops the later ones. */
  function Replace(ps: Params, name: string, value: string): (r: Params)
    requires name in Names(ps)
    ensures Lookup(r, name) == Some(value)
    ensures forall other | other != name :: Lookup(r, other) == Lookup(ps, other)
    decreases |ps|
  {
    if ps[0].0 == name then [(name, value)] + Drop(ps[1..], name)
    else [ps[0]] + Replace(ps[1..], name, value)
  }

  function Drop(ps: Params, name: string): (r: Params)
    ensures name !in Names(r)
    ensures forall other | other != name :: Lookup(r, other) == Lookup(ps, other)
    decreases |ps|
  {
    if |ps| == 0 then []
    else if ps[0].0 == name then Drop(ps[1..], name)
    else [ps[0]] + Drop(ps[1..], name)
  }

  /** `get` looks at the first pair, then at the rest. */
  lemma LookupCons(p: (string, string), rest: Params, name: string)
    ensures Lookup([p] + rest, name) == if p.0 == name then Some(p.1) else Lookup(rest, name)
  {
    assert ([p] + rest)[1..] == rest;
  }

  /** `get` on a concatenation looks in the second part only when the first has no such name. */
  lemma {:induction false} LookupConcat(a: Params, b: Params, name: string)
    ensures Lookup(a + b, name) == if Lookup(a, name).Some? then Lookup(a, name) else Lookup(b, name)
    decreases |a|
  {
    if |a| > 0 {
      assert (a + b)[0] == a[0];
      assert (a + b)[1..] == a[1..] + b;
      LookupConcat(a[1..], b, name);
    } else {
      assert a + b == b;
    }
  }

  /** Appending a pair changes what `Lookup` finds only for a name not yet present. */
  lemma LookupAppend(ps: Params, name: string, value: string, other: string)
    ensures Lookup(ps + [(name, value)], other) ==
      if other in Names(ps) then Lookup(ps, other) else if other == name then Some(value) else None
  {
    if |ps| > 0 {
      assert (ps + [(name, value)])[1..] == ps[1..] + [(name, value)];
      assert Names(ps) == [ps[0].0] + Names(ps[1..]);
      LookupAppend(ps[1..], name, value, other);
    }
  }
}
