/** The list edits the three list forms share: append a record, drop every
    record with an id (`data.filter(x => x.id !== id)`) and rewrite every
    record with an id (`data.map(x => x.id === id ? {...x, [field]: value} : x)`).
    Each returns a fresh list; nothing is changed in place. */
module ListEdit {

  /** How many records carry `id`. */
  function CountId<T>(xs: seq<T>, idOf: T -> string, id: string): (n: nat)
    ensures n <= |xs|
    ensures n == 0 <==> forall i :: 0 <= i < |xs| ==> idOf(xs[i]) != id
  {
    if xs == [] then 0
    else (if idOf(xs[0]) == id then 1 else 0) + CountId(xs[1..], idOf, id)
  }

  /** `xs.filter(x => x.id !== id)`: exactly the records with another id
      survive, and the list shrinks by the number of records with `id`. */
  function RemoveById<T>(xs: seq<T>, idOf: T -> string, id: string): (r: seq<T>)
    ensures |r| == |xs| - CountId(xs, idOf, id)
    ensures forall i :: 0 <= i < |r| ==> idOf(r[i]) != id
    ensures forall i :: 0 <= i < |r| ==> r[i] in xs
    ensures forall i :: 0 <= i < |xs| && idOf(xs[i]) != id ==> xs[i] in r
  {
    if xs == [] then []
    else
      var rest := RemoveById(xs[1..], idOf, id);
      assert forall i :: 1 <= i < |xs| ==> xs[i] == xs[1..][i - 1];
      (if idOf(xs[0]) == id then [] else [xs[0]]) + rest
  }

  /** Removal works piece by piece, so the survivors keep their order. */
  lemma {:induction false} RemoveByIdAppend<T>(xs: seq<T>, ys: seq<T>, idOf: T -> string, id: string)
    ensures RemoveById(xs + ys, idOf, id) == RemoveById(xs, idOf, id) + RemoveById(ys, idOf, id)
  {
    if xs == [] {
      assert xs + ys == ys;
    } else {
      assert (xs + ys)[0] == xs[0];
      assert (xs + ys)[1..] == xs[1..] + ys;
      RemoveByIdAppend(xs[1..], ys, idOf, id);
    }
  }

  /** Removing an id no record carries leaves the list as it is. */
  lemma {:induction false} RemoveAbsent<T>(xs: seq<T>, idOf: T -> string, id: string)
    requires forall i :: 0 <= i < |xs| ==> idOf(xs[i]) != id
    ensures RemoveById(xs, idOf, id) == xs
  {
    if xs != [] {
      RemoveAbsent(xs[1..], idOf, id);
      assert [xs[0]] + xs[1..] == xs;
    }
  }

  /** Appending a record with a fresh id and then removing that id gives
      the original list back. */
  lemma AddThenRemove<T>(xs: seq<T>, x: T, idOf: T -> string)
    requires forall i :: 0 <= i < |xs| ==> idOf(xs[i]) != idOf(x)
    ensures RemoveById(xs + [x], idOf, idOf(x)) == xs
  {
    RemoveByIdAppend(xs, [x], idOf, idOf(x));
    RemoveAbsent(xs, idOf, idOf(x));
    assert RemoveById([x], idOf, idOf(x)) == [];
  }

  /** `xs.map(x => x.id === id ? f(x) : x)`: same length and order, the
      records with `id` rewritten by `f`, every other record untouched. */
  function UpdateById<T>(xs: seq<T>, idOf: T -> string, id: string, f: T -> T): (r: seq<T>)
    ensures |r| == |xs|
    ensures forall i :: 0 <= i < |xs| && idOf(xs[i]) != id ==> r[i] == xs[i]
    ensures forall i :: 0 <= i < |xs| && idOf(xs[i]) == id ==> r[i] == f(xs[i])
  {
    seq(|xs|, i requires 0 <= i < |xs| => if idOf(xs[i]) == id then f(xs[i]) else xs[i])
  }

  /** Updating an id no record carries leaves the list as it is. */
  lemma UpdateAbsent<T>(xs: seq<T>, idOf: T -> string, id: string, f: T -> T)
    requires forall i :: 0 <= i < |xs| ==> idOf(xs[i]) != id
    ensures UpdateById(xs, idOf, id, f) == xs
  {
  }

  /** An update that keeps ids affects nothing a later removal of the same
      id keeps: removing after updating equals removing. */
  lemma {:induction false} RemoveAfterUpdate<T>(xs: seq<T>, idOf: T -> string, id: string, f: T -> T)
    requires forall x :: idOf(f(x)) == idOf(x)
    ensures RemoveById(UpdateById(xs, idOf, id, f), idOf, id) == RemoveById(xs, idOf, id)
  {
    if xs != [] {
      var u := UpdateById(xs, idOf, id, f);
      assert u[1..] == UpdateById(xs[1..], idOf, id, f);
      assert idOf(u[0]) == idOf(xs[0]);
      RemoveAfterUpdate(xs[1..], idOf, id, f);
    }
  }
}
