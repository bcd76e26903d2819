/** The nullable pointers of the backend: a null request or response is None. */
module Options {

  datatype Option<+T> = None | Some(value: T)

  function Pointee<T>(pointer: Option<T>): seq<T> {
    match pointer
    case None => []
    case Some(x) => [x]
  }

  /** The objects the first `count` of these pointers refer to, in order. */
  function ObjectsUpTo<T>(pointers: seq<Option<T>>, count: nat): seq<T>
    requires count <= |pointers|
  {
    if count == 0 then [] else ObjectsUpTo(pointers, count - 1) + Pointee(pointers[count - 1])
  }

  function Objects<T>(pointers: seq<Option<T>>): seq<T> {
    ObjectsUpTo(pointers, |pointers|)
  }

  predicate AllNull<T>(pointers: seq<Option<T>>) {
    forall i :: 0 <= i < |pointers| ==> pointers[i].None?
  }

  function Nulls<T>(count: nat): (pointers: seq<Option<T>>)
    ensures |pointers| == count && AllNull(pointers)
  {
    seq(count, _ => None)
  }

  /** How often an object occurs in a record of objects. */
  function Count<T(==)>(record: seq<T>, x: T): nat {
    if record == [] then 0
    else (if record[0] == x then 1 else 0) + Count(record[1..], x)
  }

  lemma {:induction false} CountAppend<T>(a: seq<T>, b: seq<T>, x: T)
    ensures Count(a + b, x) == Count(a, x) + Count(b, x)
  {
    if a == [] {
      assert a + b == b;
    } else {
      assert (a + b)[1..] == a[1..] + b;
      CountAppend(a[1..], b, x);
    }
  }

  lemma {:induction false} CountPositive<T>(record: seq<T>, x: T)
    ensures Count(record, x) > 0 <==> x in record
  {
    if record != [] {
      assert record == [record[0]] + record[1..];
      CountPositive(record[1..], x);
    }
  }

  lemma CountOfOne<T>(x: T, y: T)
    ensures Count([x], y) == if x == y then 1 else 0
  {
    assert [x][1..] == [];
  }

  /** The objects of an array of pointers are those that one of them refers to. */
  lemma {:induction false} ObjectsAreReferenced<T>(pointers: seq<Option<T>>, count: nat, x: T)
    requires count <= |pointers|
    ensures x in ObjectsUpTo(pointers, count) <==> exists i :: 0 <= i < count && pointers[i] == Some(x)
  {
    if count > 0 {
      ObjectsAreReferenced(pointers, count - 1, x);
      assert x in Pointee(pointers[count - 1]) <==> pointers[count - 1] == Some(x);
    }
  }

  /** Without a null pointer there is one object for each of them, in order. */
  lemma {:induction false} ObjectsOfAll<T>(pointers: seq<Option<T>>, count: nat)
    requires count <= |pointers| && forall i :: 0 <= i < count ==> pointers[i].Some?
    ensures |ObjectsUpTo(pointers, count)| == count
    ensures forall i :: 0 <= i < count ==> ObjectsUpTo(pointers, count)[i] == pointers[i].value
  {
    if count > 0 {
      ObjectsOfAll(pointers, count - 1);
    }
  }

  /** Every object of `total` is in `a` or in `b`, counted with repetition. */
  ghost predicate Balanced<T(!new)>(total: seq<T>, a: seq<T>, b: seq<T>) {
    forall x :: Count(total, x) == Count(a, x) + Count(b, x)
  }

  /** The same objects, each the same number of times. */
  ghost predicate SameObjects<T(!new)>(a: seq<T>, b: seq<T>) {
    Balanced(a, b, [])
  }

  lemma MembersOfSame<T(!new)>(a: seq<T>, b: seq<T>, x: T)
    requires SameObjects(a, b)
    ensures x in a <==> x in b
  {
    assert Count(a, x) == Count(b, x) + Count([], x);
    CountPositive(a, x);
    CountPositive(b, x);
  }

  /** Objects move from the second part of a balance to the first. */
  lemma Move<T(!new)>(total: seq<T>, a: seq<T>, b: seq<T>, moved: seq<T>, rest: seq<T>)
    requires Balanced(total, a, b) && Balanced(b, moved, rest)
    ensures Balanced(total, a + moved, rest)
  {
    forall x {
      CountAppend(a, moved, x);
    }
  }

  lemma Split<T(!new)>(a: seq<T>, b: seq<T>)
    ensures Balanced(a + b, a, b) && Balanced(a + b, b, a)
  {
    forall x {
      CountAppend(a, b, x);
    }
  }

  lemma Grow<T(!new)>(total: seq<T>, a: seq<T>, b: seq<T>, added: seq<T>, addedA: seq<T>, addedB: seq<T>)
    requires Balanced(total, a, b) && Balanced(added, addedA, addedB)
    ensures Balanced(total + added, a + addedA, b + addedB)
  {
    forall x
      ensures Count(total + added, x) == Count(a + addedA, x) + Count(b + addedB, x)
    {
      CountAppend(total, added, x);
      CountAppend(a, addedA, x);
      CountAppend(b, addedB, x);
    }
  }

  /** How many of the first `count` pointers refer to an object. */
  function References<T(==)>(pointers: seq<Option<T>>, count: nat, x: T): nat
    requires count <= |pointers|
  {
    if count == 0 then 0
    else References(pointers, count - 1, x) + if pointers[count - 1] == Some(x) then 1 else 0
  }

  lemma {:induction false} CountObjects<T>(pointers: seq<Option<T>>, count: nat, x: T)
    requires count <= |pointers|
    ensures Count(ObjectsUpTo(pointers, count), x) == References(pointers, count, x)
  {
    if count > 0 {
      CountObjects(pointers, count - 1, x);
      CountAppend(ObjectsUpTo(pointers, count - 1), Pointee(pointers[count - 1]), x);
    }
  }

  lemma {:induction false} ReferencesWithoutOne<T>(pointers: seq<Option<T>>, others: seq<Option<T>>, i: nat,
                                                   count: nat, x: T)
    requires i < |pointers| && count <= |pointers| && others == pointers[i := None]
    ensures References(pointers, count, x)
            == References(others, count, x) + if i < count && pointers[i] == Some(x) then 1 else 0
  {
    if count > 0 {
      ReferencesWithoutOne(pointers, others, i, count - 1, x);
    }
  }

  /** Setting one pointer to null takes away exactly the object it referred to. */
  lemma ObjectsWithoutOne<T(!new)>(pointers: seq<Option<T>>, i: nat)
    requires i < |pointers|
    ensures Balanced(Objects(pointers), Pointee(pointers[i]), Objects(pointers[i := None]))
  {
    forall x
      ensures Count(Objects(pointers), x) == Count(Pointee(pointers[i]), x) + Count(Objects(pointers[i := None]), x)
    {
      CountObjects(pointers, |pointers|, x);
      CountObjects(pointers[i := None], |pointers|, x);
      ReferencesWithoutOne(pointers, pointers[i := None], i, |pointers|, x);
    }
  }
}
