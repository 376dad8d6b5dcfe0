/** A DOM `classList` (a DOMTokenList) as an ordered sequence of class names,
    with the `add` and `remove` operations the site calls on
    `document.documentElement.classList`. */
module TokenList {

  /** `classList.add(c)`: appends `c` unless it is already present. */
  function Add(list: seq<string>, c: string): (r: seq<string>)
    ensures c in r
    ensures forall d :: d != c ==> (d in r <==> d in list)
    ensures c in list ==> r == list
  {
    if c in list then list else list + [c]
  }

  /** `classList.remove(c)`: drops every occurrence of `c`, keeping the
      other names in their order. */
  function Remove(list: seq<string>, c: string): (r: seq<string>)
    ensures c !in r
    ensures forall d :: d != c ==> (d in r <==> d in list)
    ensures |r| <= |list|
  {
    if list == [] then []
    else if list[0] == c then Remove(list[1..], c)
    else [list[0]] + Remove(list[1..], c)
  }

  /** Removing a name that is not there changes nothing. */
  lemma {:induction false} RemoveAbsent(list: seq<string>, c: string)
    requires c !in list
    ensures Remove(list, c) == list
  {
    if list != [] {
      RemoveAbsent(list[1..], c);
    }
  }

  /** `remove` distributes over concatenation. */
  lemma {:induction false} RemoveAppend(a: seq<string>, b: seq<string>, c: string)
    ensures Remove(a + b, c) == Remove(a, c) + Remove(b, c)
  {
    if a != [] {
      assert (a + b)[1..] == a[1..] + b;
      RemoveAppend(a[1..], b, c);
    } else {
      assert a + b == b;
    }
  }

  /** Adding a name that was absent and then removing it restores the list
      exactly, order included. */
  lemma AddThenRemove(list: seq<string>, c: string)
    requires c !in list
    ensures Remove(Add(list, c), c) == list
  {
    RemoveAppend(list, [c], c);
    RemoveAbsent(list, c);
  }
}
