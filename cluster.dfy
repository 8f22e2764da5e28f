/**
 * The cluster as the broker sees it: a set of (namespace, kind, name)
 * references and the log of every create and delete call made against it,
 * each with the object it addressed and the answer it got, and the contents
 * of every object that exists. A call may succeed or fail; which one is not
 * under the broker's control, so it is chosen nondeterministically, except
 * that creating an existing object or deleting a missing one always fails.
 */
module Cluster {
  import opened Objects

  datatype Ref = Ref(namespace: string, kind: Kind, name: string)

  datatype Call = CreateCall(ref: Ref, ok: bool) | DeleteCall(ref: Ref, ok: bool)

  /** The effect of one call on the set of existing objects. */
  function Apply(objects: set<Ref>, c: Call): (after: set<Ref>) {
    if !c.ok then objects
    else match c
      case CreateCall(r, _) => objects + {r}
      case DeleteCall(r, _) => objects - {r}
  }

  /** The effect of a sequence of calls, in order. */
  function ApplyAll(objects: set<Ref>, calls: seq<Call>): (after: set<Ref>)
    decreases |calls|
  {
    if calls == [] then objects
    else Apply(ApplyAll(objects, calls[..|calls| - 1]), calls[|calls| - 1])
  }

  /** Running two call sequences one after the other is running their concatenation. */
  lemma {:induction false} ApplyAllConcat(objects: set<Ref>, first: seq<Call>, second: seq<Call>)
    ensures ApplyAll(objects, first + second) == ApplyAll(ApplyAll(objects, first), second)
    decreases |second|
  {
    if second == [] {
      assert first + second == first;
    } else {
      var n := |second| - 1;
      assert (first + second)[..|first + second| - 1] == first + second[..n];
      assert (first + second)[|first + second| - 1] == second[n];
      ApplyAllConcat(objects, first, second[..n]);
    }
  }

  /** Three calls applied one after the other. */
  lemma ApplyAllThree(objects: set<Ref>, calls: seq<Call>)
    requires |calls| == 3
    ensures ApplyAll(objects, calls) == Apply(Apply(Apply(objects, calls[0]), calls[1]), calls[2])
  {
    var two := calls[..2];
    var one := two[..1];
    assert one[..0] == [];
    assert ApplyAll(objects, one) == Apply(objects, calls[0]);
    assert ApplyAll(objects, two) == Apply(ApplyAll(objects, one), calls[1]);
  }

  class Backend {
    /** The objects that exist. */
    var objects: set<Ref>
    /** What each existing object holds: the object as it was submitted. */
    var store: map<Ref, Object>
    /** Every call made so far, with its answer. */
    var log: seq<Call>

    /** The objects are exactly what the successful calls of the log leave behind, and each has stored contents. */
    ghost predicate Valid()
      reads this
    {
      objects == ApplyAll({}, log) && store.Keys == objects
    }

    constructor ()
      ensures Valid() && objects == {} && store == map[] && log == []
    {
      objects := {};
      store := map[];
      log := [];
    }

    method Create(namespace: string, obj: Object) returns (ok: bool)
      requires Valid()
      modifies this
      ensures Valid()
      ensures log == old(log) + [CreateCall(Ref(namespace, obj.Kind(), obj.Name()), ok)]
      ensures ok ==> Ref(namespace, obj.Kind(), obj.Name()) !in old(objects)
      ensures objects == if ok then old(objects) + {Ref(namespace, obj.Kind(), obj.Name())} else old(objects)
      ensures store == if ok then old(store)[Ref(namespace, obj.Kind(), obj.Name()) := obj] else old(store)
    {
      var r := Ref(namespace, obj.Kind(), obj.Name());
      if r in objects {
        ok := false;
      } else {
        ok := *;
      }
      var c := CreateCall(r, ok);
      assert (log + [c])[..|log|] == log;
      log := log + [c];
      objects := Apply(objects, c);
      if ok {
        store := store[r := obj];
      }
    }

    method Delete(namespace: string, kind: Kind, name: string) returns (ok: bool)
      requires Valid()
      modifies this
      ensures Valid()
      ensures log == old(log) + [DeleteCall(Ref(namespace, kind, name), ok)]
      ensures ok ==> Ref(namespace, kind, name) in old(objects)
      ensures objects == if ok then old(objects) - {Ref(namespace, kind, name)} else old(objects)
      ensures store == if ok then old(store) - {Ref(namespace, kind, name)} else old(store)
    {
      var r := Ref(namespace, kind, name);
      if r !in objects {
        ok := false;
      } else {
        ok := *;
      }
      var c := DeleteCall(r, ok);
      assert (log + [c])[..|log|] == log;
      log := log + [c];
      objects := Apply(objects, c);
      if ok {
        store := store - {r};
      }
    }
  }
}
