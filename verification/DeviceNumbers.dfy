/**
 Character device numbers: every probe takes the next minor and advances it only when its node
 could be created.
 */
module DeviceNumbers {
  import opened Options

  /** dev_t as MKDEV builds it. */
  datatype Dev = MkDev(major: nat, minor: nat)

  /** A probed context: its number, whether its node exists, and whether it was removed. */
  datatype Context = Context(dev: Dev, node: bool, removed: bool)

  function Created(created: seq<bool>): nat {
    if created == [] then 0
    else Created(created[..|created| - 1]) + if created[|created| - 1] then 1 else 0
  }

  predicate AnyCreated(created: seq<bool>, i: nat, j: nat)
    requires i <= j <= |created|
  {
    exists k :: i <= k < j && created[k]
  }

  /** The minor moves between two probes exactly when a node was created in between. */
  lemma {:induction false} MinorMoves(created: seq<bool>, i: nat, j: nat)
    requires i <= j <= |created|
    ensures Created(created[..i]) <= Created(created[..j])
    ensures Created(created[..i]) < Created(created[..j]) <==> AnyCreated(created, i, j)
    decreases j - i
  {
    if i < j {
      MinorMoves(created, i, j - 1);
      assert created[..j][..j - 1] == created[..j - 1];
      assert AnyCreated(created, i, j) <==> AnyCreated(created, i, j - 1) || created[j - 1];
    }
  }

  /** The minors given out are distinct exactly when every creation but the last succeeded. */
  lemma DistinctMinors(created: seq<bool>)
    ensures (forall i, j :: 0 <= i < j < |created| ==>
               Created(created[..i]) != Created(created[..j]))
       <==> (forall i :: 0 <= i < |created| - 1 ==> created[i])
  {
    if forall i :: 0 <= i < |created| - 1 ==> created[i] {
      forall i, j | 0 <= i < j < |created| ensures Created(created[..i]) != Created(created[..j]) {
        MinorMoves(created, i, j);
        assert created[i];
      }
    } else {
      var i :| 0 <= i < |created| - 1 && !created[i];
      MinorMoves(created, i, i + 1);
      assert Created(created[..i]) == Created(created[..i + 1]);
    }
  }

  class CharDriver {
    const major: nat
    var nextMinor: nat
    var contexts: seq<Context>
    ghost var created: seq<bool>      // what device_create did in each probe so far

    ghost predicate Valid()
      reads this
    {
      && |created| == |contexts|
      && nextMinor == Created(created)
      && (forall i :: 0 <= i < |contexts| ==>
            contexts[i].dev == MkDev(major, Created(created[..i])))
      && (forall i :: 0 <= i < |contexts| && contexts[i].node ==> created[i])
    }

    constructor (major: nat)
      ensures Valid() && contexts == [] && nextMinor == 0 && this.major == major
    {
      this.major, nextMinor, contexts, created := major, 0, [], [];
    }

    /** The end of the probe: take a number, add the cdev, create the node. */
    method AddDevice(createOk: bool) returns (index: nat)
      requires Valid()
      modifies this
      ensures Valid()
      ensures index == |old(contexts)| && created == old(created) + [createOk]
      ensures contexts == old(contexts)
                + [Context(MkDev(major, old(nextMinor)), createOk, false)]
      ensures nextMinor == old(nextMinor) + if createOk then 1 else 0
    {
      index := |contexts|;
      contexts := contexts + [Context(MkDev(major, nextMinor), createOk, false)];
      created := created + [createOk];
      assert created[..index] == old(created);
      assert forall i :: 0 <= i < index ==> created[..i] == old(created)[..i];
      if createOk {
        nextMinor := nextMinor + 1;
      }
    }

    /** The kernel looks a node up by its number alone, and takes the first it finds away. */
    method DeviceDestroy(dev: Dev)
      requires Valid()
      modifies this`contexts
      ensures Valid() && |contexts| == |old(contexts)|
      ensures forall k :: 0 <= k < |contexts| ==>
                contexts[k] == if old(contexts)[k].dev == dev then old(contexts)[k].(node := false)
                               else old(contexts)[k]
    {
      for n := 0 to |contexts|
        invariant contexts == old(contexts)
        invariant forall k :: 0 <= k < n ==> !(contexts[k].node && contexts[k].dev == dev)
      {
        if contexts[n].node && contexts[n].dev == dev {
          NodesHaveOwnNumbers(n);
          contexts := contexts[n := contexts[n].(node := false)];
          return;
        }
      }
    }

    /** device_destroy by the context's number, and kfree; the minor is not given back. */
    method RemoveDevice(index: nat)
      requires Valid() && index < |contexts|
      modifies this`contexts
      ensures Valid() && |contexts| == |old(contexts)|
      ensures forall k :: 0 <= k < |contexts| && k != index ==>
                contexts[k] == WithoutNode(old(contexts)[k], old(contexts)[index].dev)
      ensures contexts[index] == old(contexts)[index].(node := false, removed := true)
    {
      DeviceDestroy(contexts[index].dev);
      contexts := contexts[index := contexts[index].(removed := true)];
    }

    /**
     Opening a number: some context in the cdev map that has it.  A removed context stays in the
     map, because remove does not take its cdev out.
     */
    method Open(dev: Dev) returns (index: Option<nat>)
      ensures match index
              case None => forall i :: 0 <= i < |contexts| ==> contexts[i].dev != dev
              case Some(k) => k < |contexts| && contexts[k].dev == dev
    {
      for n := 0 to |contexts|
        invariant forall i :: 0 <= i < n ==> contexts[i].dev != dev
      {
        if contexts[n].dev == dev {
          return Some(n);
        }
      }
      index := None;
    }

    /** No two nodes have the same number. */
    lemma NodesHaveOwnNumbers(i: nat)
      requires Valid() && i < |contexts| && contexts[i].node
      ensures forall j :: 0 <= j < |contexts| && j != i && contexts[j].node ==>
                contexts[j].dev != contexts[i].dev
    {
      forall j | 0 <= j < |contexts| && j != i && contexts[j].node
        ensures contexts[j].dev != contexts[i].dev
      {
        if i < j {
          SameNumberExactly(i, j);
          assert created[i];
        } else {
          SameNumberExactly(j, i);
          assert created[j];
        }
      }
    }

    /** Two contexts share a number exactly when no node was created from the first to the second. */
    lemma SameNumberExactly(i: nat, j: nat)
      requires Valid() && i < j < |contexts|
      ensures contexts[i].dev == contexts[j].dev <==> !AnyCreated(created, i, j)
    {
      MinorMoves(created, i, j);
    }

    /** All numbers ever given are distinct exactly when every creation but the last succeeded. */
    lemma NumbersDistinctExactly()
      requires Valid()
      ensures (forall i, j :: 0 <= i < j < |contexts| ==> contexts[i].dev != contexts[j].dev)
         <==> (forall i :: 0 <= i < |contexts| - 1 ==> created[i])
    {
      DistinctMinors(created);
      assert forall i, j :: 0 <= i < j < |contexts| ==>
               (contexts[i].dev != contexts[j].dev
                <==> Created(created[..i]) != Created(created[..j]));
    }

    /** Removing card i would leave every other card's node in place. */
    ghost predicate RemovalSpares(i: nat)
      requires i < |contexts|
      reads this
    {
      forall j :: 0 <= j < |contexts| && j != i ==>
        WithoutNode(contexts[j], contexts[i].dev) == contexts[j]
    }

    /**
     Removing a card leaves the other nodes in place exactly when its own node was created, or the
     first node created after it is gone already.  Otherwise it takes that node away.
     */
    lemma RemovalSparesExactly(i: nat)
      requires Valid() && i < |contexts|
      ensures RemovalSpares(i) <==>
              created[i] || forall j: nat :: NextCreated(created, i, j) ==> !contexts[j].node
    {
      forall j | 0 <= j < |contexts| && j != i && contexts[j].node
        ensures contexts[j].dev == contexts[i].dev <==> !created[i] && NextCreated(created, i, j)
      {
        if i < j {
          SameNumberExactly(i, j);
          assert created[i] ==> AnyCreated(created, i, j);
        } else {
          SameNumberExactly(j, i);
          assert AnyCreated(created, j, i);
        }
      }
      forall j: nat | NextCreated(created, i, j) && contexts[j].node && !created[i]
        ensures WithoutNode(contexts[j], contexts[i].dev) != contexts[j]
      {
        assert contexts[j].dev == contexts[i].dev;
      }
    }

    /** No other context, live or removed, has the number of context i. */
    ghost predicate Unambiguous(i: nat)
      requires i < |contexts|
      reads this
    {
      forall j :: 0 <= j < |contexts| && j != i ==> contexts[j].dev != contexts[i].dev
    }

    /**
     A node is unambiguous exactly when it belongs to the first probe or the probe just before it
     created its node too; what was probed later or removed does not matter.
     */
    lemma NodeUnambiguousExactly(i: nat)
      requires Valid() && i < |contexts| && contexts[i].node
      ensures Unambiguous(i) <==> i == 0 || created[i - 1]
    {
      forall j | i < j < |contexts| ensures contexts[j].dev != contexts[i].dev {
        SameNumberExactly(i, j);
        assert created[i];
      }
      forall j | 0 <= j < i && created[i - 1] ensures contexts[j].dev != contexts[i].dev {
        SameNumberExactly(j, i);
      }
      if i > 0 && !created[i - 1] {
        SameNumberExactly(i - 1, i);
        assert contexts[i - 1].dev == contexts[i].dev;
      }
    }
  }

  /** The context after device_destroy of a number. */
  function WithoutNode(c: Context, dev: Dev): Context {
    if c.dev == dev then c.(node := false) else c
  }

  /** The first node created after probe i is that of probe j. */
  predicate NextCreated(created: seq<bool>, i: nat, j: nat)
    requires i < |created|
  {
    i < j < |created| && created[j] && !AnyCreated(created, i, j)
  }

  /** Opening the node of a card yields the context of that card. */
  method OpenNode(driver: CharDriver, i: nat) returns (index: nat)
    requires driver.Valid() && i < |driver.contexts| && driver.contexts[i].node
    requires i == 0 || driver.created[i - 1]
    ensures index == i
  {
    var found := driver.Open(driver.contexts[i].dev);
    driver.NodeUnambiguousExactly(i);
    index := found.value;
  }

  /**
   The first card's node cannot be created, and its probe still returns 0; the second card gets the
   same number.  Removing the first card then takes the second card's node away.  Which of the two
   contexts the kernel finds for the number is left open.
   */
  method FailedCreation(major: nat) returns (driver: CharDriver)
    ensures driver.Valid() && driver.created == [false, true] && |driver.contexts| == 2
    ensures driver.contexts[0].dev == driver.contexts[1].dev
    ensures driver.contexts[0].removed && !driver.contexts[1].removed && !driver.contexts[1].node
  {
    driver := new CharDriver(major);
    var first := driver.AddDevice(false);
    var second := driver.AddDevice(true);
    assert driver.contexts[second].node && driver.contexts[second].dev == driver.contexts[first].dev;
    driver.RemoveDevice(first);
  }
}
