/**
 * The recursive script search of Source/ActorExtensions.cs, over an actor
 * tree in which each actor has its own scripts (those of the requested
 * type) and an ordered list of children. The search appends into one
 * shared list; after each child it appends that list to itself, so what
 * has been gathered so far doubles once per child.
 */
module ActorExtensions {

  /** An actor: the scripts of the requested type it holds, and its children in index order. */
  datatype Actor<T> = Actor(scripts: seq<T>, children: seq<Actor<T>>)

  /** A `List<T>` the search appends into. */
  class ScriptList<T> {
    var items: seq<T>

    constructor ()
      ensures items == []
    {
      items := [];
    }
  }

  /** The list contents the search leaves behind when it starts from `prior`. */
  function Collect<T>(actor: Actor<T>, prior: seq<T>): seq<T>
    decreases actor, 1
  {
    CollectChildren(actor, |actor.children|, prior + actor.scripts)
  }

  /**
   * The list contents after the first `n` children of `actor` have been
   * visited, starting from `start`: each child appends into the list, and
   * then the list is appended to itself.
   */
  function CollectChildren<T>(actor: Actor<T>, n: nat, start: seq<T>): seq<T>
    requires n <= |actor.children|
    decreases actor, 0, n
  {
    if n == 0 then start
    else
      var afterChild := Collect(actor.children[n - 1], CollectChildren(actor, n - 1, start));
      afterChild + afterChild
  }

  /**
   * `GetScriptsRecursive`: a null list is replaced by a new empty one; the
   * actor's scripts are appended, then each child in index order is searched
   * into the same list, which is then appended to itself. The same list is
   * returned.
   */
  method GetScriptsRecursive<T>(actor: Actor<T>, currentList: ScriptList?<T>) returns (r: ScriptList<T>)
    modifies currentList
    ensures currentList != null ==> r == currentList
    ensures currentList == null ==> fresh(r)
    ensures r.items == Collect(actor, if currentList == null then [] else old(currentList.items))
    decreases actor
  {
    var list := currentList;
    if list == null {
      list := new ScriptList<T>();
    }
    ghost var start := list.items + actor.scripts;
    list.items := list.items + actor.scripts;

    var i := 0;
    while i < |actor.children|
      invariant 0 <= i <= |actor.children|
      invariant currentList != null ==> list == currentList
      invariant currentList == null ==> fresh(list)
      invariant list.items == CollectChildren(actor, i, start)
    {
      ghost var before := list.items;
      var child := GetScriptsRecursive(actor.children[i], list);
      assert child.items == Collect(actor.children[i], before);
      list.items := list.items + child.items;
      i := i + 1;
    }
    return list;
  }

  /** The scripts of an actor and of all its descendants, once each, actor first, children in order. */
  function Preorder<T>(actor: Actor<T>): seq<T>
    decreases actor, 1
  {
    actor.scripts + PreorderChildren(actor, |actor.children|)
  }

  /** The preorder scripts of the first `n` children of `actor`. */
  function PreorderChildren<T>(actor: Actor<T>, n: nat): seq<T>
    requires n <= |actor.children|
    decreases actor, 0, n
  {
    if n == 0 then [] else PreorderChildren(actor, n - 1) + Preorder(actor.children[n - 1])
  }

  /** The search only appends: the list's previous contents stay in front. */
  lemma {:induction false} CollectKeepsPrior<T>(actor: Actor<T>, prior: seq<T>)
    ensures prior + actor.scripts <= Collect(actor, prior)
    decreases actor, 1
  {
    CollectChildrenKeepsStart(actor, |actor.children|, prior + actor.scripts);
  }

  lemma {:induction false} CollectChildrenKeepsStart<T>(actor: Actor<T>, n: nat, start: seq<T>)
    requires n <= |actor.children|
    ensures start <= CollectChildren(actor, n, start)
    decreases actor, 0, n
  {
    if n > 0 {
      var before := CollectChildren(actor, n - 1, start);
      CollectChildrenKeepsStart(actor, n - 1, start);
      CollectKeepsPrior(actor.children[n - 1], before);
    }
  }

  /** For an actor without children the result is the prior contents followed by its scripts. */
  lemma CollectLeaf<T>(actor: Actor<T>, prior: seq<T>)
    requires actor.children == []
    ensures Collect(actor, prior) == prior + actor.scripts
  {
  }

  /**
   * Nothing is lost and nothing foreign is added: the scripts in the result
   * are exactly those of the prior contents, the actor and its descendants.
   */
  lemma {:induction false} CollectElements<T>(actor: Actor<T>, prior: seq<T>)
    ensures forall x :: x in Collect(actor, prior) <==> x in prior || x in Preorder(actor)
    decreases actor, 1
  {
    var start := prior + actor.scripts;
    CollectChildrenElements(actor, |actor.children|, start);
  }

  lemma {:induction false} CollectChildrenElements<T>(actor: Actor<T>, n: nat, start: seq<T>)
    requires n <= |actor.children|
    ensures forall x :: x in CollectChildren(actor, n, start) <==> x in start || x in PreorderChildren(actor, n)
    decreases actor, 0, n
  {
    if n > 0 {
      var before := CollectChildren(actor, n - 1, start);
      CollectChildrenElements(actor, n - 1, start);
      CollectElements(actor.children[n - 1], before);
    }
  }

  function Pow2(n: nat): (p: nat)
    ensures p >= 1
  {
    if n == 0 then 1 else 2 * Pow2(n - 1)
  }

  /**
   * The list at least doubles with every child: after `n` children it is at
   * least 2^n times as long as it was before the first.
   */
  lemma {:induction false} CollectChildrenDoubles<T>(actor: Actor<T>, n: nat, start: seq<T>)
    requires n <= |actor.children|
    ensures |CollectChildren(actor, n, start)| >= Pow2(n) * |start|
    decreases n
  {
    if n > 0 {
      var before := CollectChildren(actor, n - 1, start);
      CollectChildrenDoubles(actor, n - 1, start);
      CollectKeepsPrior(actor.children[n - 1], before);
      assert |Collect(actor.children[n - 1], before)| >= |before|;
    }
  }

  /**
   * Because the list is appended to itself, a script can be reported more
   * than once: an actor with script x and one child with script y yields
   * [x, y, x, y] where each script once was meant.
   */
  lemma DuplicationWitness<T>(x: T, y: T)
    ensures var actor := Actor([x], [Actor([y], [])]);
      && Collect(actor, []) == [x, y, x, y]
      && Preorder(actor) == [x, y]
  {
    var child := Actor([y], []);
    var actor := Actor([x], [child]);
    assert actor.children[0] == child;
    assert [] + [x] == [x];
    assert Collect(child, [x]) == CollectChildren(child, 0, [x] + [y]) == [x, y];
    assert CollectChildren(actor, 0, [x]) == [x];
    assert Collect(actor, []) == CollectChildren(actor, 1, [x]) == [x, y] + [x, y];
    assert Preorder(child) == [y] + [];
    assert PreorderChildren(actor, 1) == [] + [y];
  }

  /**
   * The search without the self-append: each child is searched into the
   * shared list and the result left as it is, so every script is reported
   * once, in preorder.
   */
  method GetScriptsRecursiveFixed<T>(actor: Actor<T>, currentList: ScriptList?<T>) returns (r: ScriptList<T>)
    modifies currentList
    ensures currentList != null ==> r == currentList
    ensures currentList == null ==> fresh(r)
    ensures r.items == (if currentList == null then [] else old(currentList.items)) + Preorder(actor)
    decreases actor
  {
    var list := currentList;
    if list == null {
      list := new ScriptList<T>();
    }
    ghost var prior := list.items;
    list.items := list.items + actor.scripts;

    var i := 0;
    while i < |actor.children|
      invariant 0 <= i <= |actor.children|
      invariant currentList != null ==> list == currentList
      invariant currentList == null ==> fresh(list)
      invariant list.items == prior + actor.scripts + PreorderChildren(actor, i)
    {
      ghost var before := list.items;
      var child := GetScriptsRecursiveFixed(actor.children[i], list);
      assert list.items == before + Preorder(actor.children[i]);
      assert PreorderChildren(actor, i + 1) == PreorderChildren(actor, i) + Preorder(actor.children[i]);
      i := i + 1;
    }
    return list;
  }
}
