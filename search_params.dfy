/**
 * The parameter list behind the browser's URLSearchParams object (WHATWG URL
 * Standard, section 6.2): an ordered list of name-value pairs, names may repeat.
 * `get` returns the first value, `getAll` every value in order, `set` replaces
 * the first pair with that name and removes the others (or appends when there is
 * none), `append` adds at the end and `delete` removes every pair with the name.
 */
module SearchParams {
  import opened Wrappers

  type Params = seq<(string, string)>

  /** getAll(name): the values of every pair called `name`, in list order. */
  function GetAll(p: Params, name: string): (vs: seq<string>)
    ensures |vs| <= |p|
  {
    if p == [] then []
    else (if p[0].0 == name then [p[0].1] else []) + GetAll(p[1..], name)
  }

  /** get(name): the value of the first pair called `name`, or null. */
  function Get(p: Params, name: string): Option<string> {
    if p == [] then None
    else if p[0].0 == name then Some(p[0].1)
    else Get(p[1..], name)
  }

  predicate Has(p: Params, name: string) {
    Get(p, name).Some?
  }

  /** delete(name): drop every pair called `name`, keep the rest in order. */
  function Delete(p: Params, name: string): (r: Params)
    ensures |r| <= |p|
  {
    if p == [] then []
    else (if p[0].0 == name then [] else [p[0]]) + Delete(p[1..], name)
  }

  /** append(name, value). */
  function Append(p: Params, name: string, value: string): Params {
    p + [(name, value)]
  }

  /** The first pair called `name` gets `value`; the later ones are removed. */
  function ReplaceFirst(p: Params, name: string, value: string): Params {
    if p == [] then []
    else if p[0].0 == name then [(name, value)] + Delete(p[1..], name)
    else [p[0]] + ReplaceFirst(p[1..], name, value)
  }

  /** set(name, value). */
  function Set(p: Params, name: string, value: string): Params {
    if Has(p, name) then ReplaceFirst(p, name, value) else Append(p, name, value)
  }

  /** The pairs whose name is outside `names`, in order: what an update of `names` must leave alone. */
  function Others(p: Params, names: set<string>): Params {
    if p == [] then []
    else (if p[0].0 in names then [] else [p[0]]) + Others(p[1..], names)
  }

  /** One pair called `name` per element of `values`, in order. */
  function Pairs(name: string, values: seq<string>): (p: Params)
    ensures |p| == |values|
  {
    seq(|values|, i requires 0 <= i < |values| => (name, values[i]))
  }

  /**
   * toString(): the pairs joined as `name=value` with `&`. Percent-encoding
   * (application/x-www-form-urlencoded serializer) is not modelled.
   */
  function Serialize(p: Params): string {
    if p == [] then ""
    else if |p| == 1 then p[0].0 + "=" + p[0].1
    else p[0].0 + "=" + p[0].1 + "&" + Serialize(p[1..])
  }

  // ---------------------------------------------------------------------------
  // getAll over the operations

  /** get(name) is the first value getAll(name) returns, or null when there is none. */
  lemma {:induction false} GetFirst(p: Params, name: string)
    ensures Get(p, name) == if GetAll(p, name) == [] then None else Some(GetAll(p, name)[0])
  {
    if p != [] && p[0].0 != name {
      GetFirst(p[1..], name);
    }
  }

  /** delete(name) leaves no pair called `name`. */
  lemma {:induction false} DeleteRemoves(p: Params, name: string)
    ensures forall i | 0 <= i < |Delete(p, name)| :: Delete(p, name)[i].0 != name
  {
    if p != [] {
      DeleteRemoves(p[1..], name);
    }
  }

  lemma {:induction false} GetAllConcat(p: Params, q: Params, name: string)
    ensures GetAll(p + q, name) == GetAll(p, name) + GetAll(q, name)
  {
    if p != [] {
      assert (p + q)[1..] == p[1..] + q;
      GetAllConcat(p[1..], q, name);
    } else {
      assert p + q == q;
    }
  }

  lemma {:induction false} GetAllDelete(p: Params, name: string, k: string)
    ensures GetAll(Delete(p, name), k) == if k == name then [] else GetAll(p, k)
  {
    if p != [] {
      GetAllDelete(p[1..], name, k);
      GetAllConcat(if p[0].0 == name then [] else [p[0]], Delete(p[1..], name), k);
    }
  }

  lemma {:induction false} GetAllReplaceFirst(p: Params, name: string, value: string, k: string)
    requires Has(p, name)
    ensures GetAll(ReplaceFirst(p, name, value), k) == if k == name then [value] else GetAll(p, k)
  {
    if p[0].0 == name {
      GetAllConcat([(name, value)], Delete(p[1..], name), k);
      GetAllDelete(p[1..], name, k);
    } else {
      GetAllReplaceFirst(p[1..], name, value, k);
      GetAllConcat([p[0]], ReplaceFirst(p[1..], name, value), k);
    }
  }

  /** After set(name, value), getAll(name) is exactly [value] and every other name reads as before. */
  lemma GetAllSet(p: Params, name: string, value: string, k: string)
    ensures GetAll(Set(p, name, value), k) == if k == name then [value] else GetAll(p, k)
  {
    if Has(p, name) {
      GetAllReplaceFirst(p, name, value, k);
    } else {
      GetFirst(p, name);
      GetAllConcat(p, [(name, value)], k);
    }
  }

  /** After append(name, value), getAll(name) gains `value` at its end. */
  lemma GetAllAppend(p: Params, name: string, value: string, k: string)
    ensures GetAll(Append(p, name, value), k) == if k == name then GetAll(p, k) + [value] else GetAll(p, k)
  {
    GetAllConcat(p, [(name, value)], k);
  }

  lemma {:induction false} GetAllPairs(name: string, values: seq<string>, k: string)
    ensures GetAll(Pairs(name, values), k) == if k == name then values else []
  {
    if values != [] {
      assert Pairs(name, values)[1..] == Pairs(name, values[1..]);
      GetAllPairs(name, values[1..], k);
    }
  }

  /** set on a name the list does not hold appends one pair. */
  lemma SetAbsent(p: Params, name: string, value: string)
    requires GetAll(p, name) == []
    ensures Set(p, name, value) == p + [(name, value)]
  {
  }

  // ---------------------------------------------------------------------------
  // What an update leaves alone

  lemma {:induction false} OthersConcat(p: Params, q: Params, names: set<string>)
    ensures Others(p + q, names) == Others(p, names) + Others(q, names)
  {
    if p != [] {
      assert (p + q)[1..] == p[1..] + q;
      OthersConcat(p[1..], q, names);
    } else {
      assert p + q == q;
    }
  }

  lemma {:induction false} OthersDelete(p: Params, name: string, names: set<string>)
    requires name in names
    ensures Others(Delete(p, name), names) == Others(p, names)
  {
    if p != [] {
      OthersDelete(p[1..], name, names);
      OthersConcat(if p[0].0 == name then [] else [p[0]], Delete(p[1..], name), names);
    }
  }

  lemma {:induction false} OthersReplaceFirst(p: Params, name: string, value: string, names: set<string>)
    requires name in names
    ensures Others(ReplaceFirst(p, name, value), names) == Others(p, names)
  {
    if p != [] {
      if p[0].0 == name {
        OthersConcat([(name, value)], Delete(p[1..], name), names);
        OthersDelete(p[1..], name, names);
      } else {
        OthersConcat([p[0]], ReplaceFirst(p[1..], name, value), names);
        OthersReplaceFirst(p[1..], name, value, names);
      }
    }
  }

  /** set(name, ...) does not move, add or drop any pair whose name is outside `names`. */
  lemma OthersSet(p: Params, name: string, value: string, names: set<string>)
    requires name in names
    ensures Others(Set(p, name, value), names) == Others(p, names)
  {
    if Has(p, name) {
      OthersReplaceFirst(p, name, value, names);
    } else {
      OthersConcat(p, [(name, value)], names);
    }
  }

  lemma OthersAppend(p: Params, name: string, value: string, names: set<string>)
    requires name in names
    ensures Others(Append(p, name, value), names) == Others(p, names)
  {
    OthersConcat(p, [(name, value)], names);
  }

  /** Equal `Others` lists read the same for every name outside `names`. */
  lemma {:induction false} GetAllOthers(p: Params, names: set<string>, k: string)
    requires k !in names
    ensures GetAll(Others(p, names), k) == GetAll(p, k)
  {
    if p != [] {
      GetAllOthers(p[1..], names, k);
      GetAllConcat(if p[0].0 in names then [] else [p[0]], Others(p[1..], names), k);
    }
  }
}
