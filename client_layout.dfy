/** The client layout's mount effect (src/components/ClientLayout.tsx): it
    adds the font class to the root element, and after a short delay strips
    the attributes browser extensions inject into `<body>` and `<html>`. The
    timer is a flag that the delay's expiry or the cleanup clears; the
    mutation observer is not part of this model. */
module ClientLayout {
  import opened Text
  import TokenList

  /** One attribute of an element. */
  datatype Attr = Attr(name: string, value: string)

  /** The attributes the scrubber removes: `data-` attributes whose name
      mentions one of the extension markers. */
  predicate IsExtensionAttribute(name: string) {
    && StartsWith(name, "data-")
    && (Contains(name, "gramm") || Contains(name, "lt-") || Contains(name, "gr-") || Contains(name, "new-gr"))
  }

  /** The attributes that survive the scrubber, in their original order. */
  function Kept(attrs: seq<Attr>): (r: seq<Attr>)
    ensures |r| <= |attrs|
  {
    if attrs == [] then []
    else (if IsExtensionAttribute(attrs[0].name) then [] else [attrs[0]]) + Kept(attrs[1..])
  }

  /** An attribute survives exactly when it was there and is not an
      extension attribute. */
  lemma {:induction false} KeptMembers(attrs: seq<Attr>)
    ensures forall a :: a in Kept(attrs) <==> a in attrs && !IsExtensionAttribute(a.name)
  {
    if attrs != [] {
      KeptMembers(attrs[1..]);
      assert attrs == [attrs[0]] + attrs[1..];
    }
  }

  /** An element never carries two attributes of the same name. */
  predicate DistinctNames(attrs: seq<Attr>) {
    forall i, j :: 0 <= i < j < |attrs| ==> attrs[i].name != attrs[j].name
  }

  /** The attributes left after `removeAttribute(name)`. */
  function WithoutName(attrs: seq<Attr>, name: string): seq<Attr> {
    if attrs == [] then []
    else (if attrs[0].name == name then [] else [attrs[0]]) + WithoutName(attrs[1..], name)
  }

  lemma {:induction false} WithoutAbsentName(attrs: seq<Attr>, name: string)
    requires forall a :: a in attrs ==> a.name != name
    ensures WithoutName(attrs, name) == attrs
  {
    if attrs != [] {
      WithoutAbsentName(attrs[1..], name);
    }
  }

  /** Removing the one attribute called `a.name` cuts exactly `a` out. */
  lemma {:induction false} WithoutUniqueName(pre: seq<Attr>, a: Attr, post: seq<Attr>)
    requires forall b :: b in pre ==> b.name != a.name
    requires forall b :: b in post ==> b.name != a.name
    ensures WithoutName(pre + [a] + post, a.name) == pre + post
    decreases |pre|
  {
    if pre == [] {
      assert ([a] + post)[1..] == post;
      WithoutAbsentName(post, a.name);
    } else {
      assert (pre + [a] + post)[1..] == pre[1..] + [a] + post;
      WithoutUniqueName(pre[1..], a, post);
    }
  }

  lemma {:induction false} KeptDistinct(attrs: seq<Attr>)
    requires DistinctNames(attrs)
    ensures DistinctNames(Kept(attrs))
  {
    if attrs != [] {
      var rest := attrs[1..];
      assert DistinctNames(rest) by {
        forall i, j | 0 <= i < j < |rest| ensures rest[i].name != rest[j].name {
          assert rest[i] == attrs[i + 1] && rest[j] == attrs[j + 1];
        }
      }
      KeptDistinct(rest);
      KeptMembers(rest);
      forall b | b in Kept(rest) ensures b.name != attrs[0].name {
        var k :| 0 <= k < |rest| && rest[k] == b;
        assert b == attrs[k + 1];
      }
    }
  }

  /** A DOM element, as far as its attributes go. */
  class Element {
    var attributes: seq<Attr>

    ghost predicate Valid()
      reads this
    {
      DistinctNames(attributes)
    }

    constructor (attributes: seq<Attr>)
      requires DistinctNames(attributes)
      ensures Valid() && this.attributes == attributes
    {
      this.attributes := attributes;
    }

    /** `element.removeAttribute(name)` */
    method RemoveAttribute(name: string)
      modifies this
      ensures attributes == WithoutName(old(attributes), name)
    {
      attributes := WithoutName(attributes, name);
    }
  }

  /** `removeAttributes(element)`: walks the live attribute list from the
      last index down to 0 and removes each extension attribute by name.
      Going downwards, a removal only shifts attributes already visited, so
      none is skipped. */
  method RemoveExtensionAttributes(e: Element)
    requires e.Valid()
    modifies e
    ensures e.Valid()
    ensures e.attributes == Kept(old(e.attributes))
  {
    ghost var original := e.attributes;
    var i := |e.attributes| - 1;
    while i >= 0
      invariant -1 <= i < |original|
      invariant e.attributes == original[..i + 1] + Kept(original[i + 1..])
    {
      var name := e.attributes[i].name;
      ScrubStep(original, i);
      if IsExtensionAttribute(name) {
        e.RemoveAttribute(name);
      }
      i := i - 1;
    }
    assert original[0..] == original;
    KeptDistinct(original);
  }

  /** One pass of the loop at index `i`, with the attributes after `i`
      already scrubbed: the scrubbed part grows by one whether or not
      `original[i]` is removed. */
  lemma ScrubStep(original: seq<Attr>, i: int)
    requires DistinctNames(original) && 0 <= i < |original|
    ensures (original[..i + 1] + Kept(original[i + 1..]))[i] == original[i]
    ensures IsExtensionAttribute(original[i].name) ==>
      WithoutName(original[..i + 1] + Kept(original[i + 1..]), original[i].name) == original[..i] + Kept(original[i..])
    ensures !IsExtensionAttribute(original[i].name) ==>
      original[..i + 1] + Kept(original[i + 1..]) == original[..i] + Kept(original[i..])
  {
    var a := original[i];
    var tail := original[i..];
    assert tail[0] == a && tail[1..] == original[i + 1..];
    assert Kept(tail) == (if IsExtensionAttribute(a.name) then [] else [a]) + Kept(original[i + 1..]);
    assert original[..i + 1] == original[..i] + [a];
    if IsExtensionAttribute(a.name) {
      ScrubRemoves(original, i);
    }
  }

  lemma ScrubRemoves(original: seq<Attr>, i: int)
    requires DistinctNames(original) && 0 <= i < |original|
    ensures WithoutName(original[..i] + [original[i]] + Kept(original[i + 1..]), original[i].name) ==
      original[..i] + Kept(original[i + 1..])
  {
    var a := original[i];
    var pre := original[..i];
    var post := Kept(original[i + 1..]);
    forall b | b in pre ensures b.name != a.name {
      var k :| 0 <= k < i && pre[k] == b;
    }
    KeptMembers(original[i + 1..]);
    forall b | b in post ensures b.name != a.name {
      var k :| 0 <= k < |original[i + 1..]| && original[i + 1..][k] == b;
      assert b == original[i + 1 + k];
    }
    WithoutUniqueName(pre, a, post);
  }

  // ---------------------------------------------------------------- what the scrubber keeps

  /** No extension attribute is left. */
  lemma NoExtensionAttributeLeft(attrs: seq<Attr>)
    ensures forall a :: a in Kept(attrs) ==> !IsExtensionAttribute(a.name)
  {
    KeptMembers(attrs);
  }

  /** Attributes that are not `data-` attributes survive, whatever they
      mention. */
  lemma NonDataAttributesKept(attrs: seq<Attr>, a: Attr)
    requires a in attrs && !StartsWith(a.name, "data-")
    ensures a in Kept(attrs)
  {
    KeptMembers(attrs);
  }

  /** The survivors keep their relative order: scrubbing a concatenation
      scrubs each part in place. */
  lemma {:induction false} KeptAppend(a: seq<Attr>, b: seq<Attr>)
    ensures Kept(a + b) == Kept(a) + Kept(b)
  {
    if a == [] {
      assert a + b == b;
    } else {
      assert (a + b)[1..] == a[1..] + b;
      KeptAppend(a[1..], b);
    }
  }

  lemma {:induction false} KeptClean(attrs: seq<Attr>)
    requires forall a :: a in attrs ==> !IsExtensionAttribute(a.name)
    ensures Kept(attrs) == attrs
  {
    if attrs != [] {
      KeptClean(attrs[1..]);
    }
  }

  /** A second pass removes nothing. */
  lemma KeptIdempotent(attrs: seq<Attr>)
    ensures Kept(Kept(attrs)) == Kept(attrs)
  {
    KeptMembers(attrs);
    KeptClean(Kept(attrs));
  }

  /** An example: a Grammarly marker goes, a `class` and a non-`data-`
      name that mentions `gramm` stay. */
  lemma ScrubExample()
    ensures Kept([Attr("data-gramm", "true"), Attr("class", "dark"), Attr("aria-gramm", "x")]) ==
      [Attr("class", "dark"), Attr("aria-gramm", "x")]
  {
    assert OccursAt("data-gramm", "gramm", 5);
    ContainsAt("data-gramm", "gramm");
    assert "class"[..5][0] != "data-"[0];
    assert "aria-gramm"[..5][0] != "data-"[0];
    var s := [Attr("data-gramm", "true"), Attr("class", "dark"), Attr("aria-gramm", "x")];
    assert s[1..] == [Attr("class", "dark"), Attr("aria-gramm", "x")];
    assert s[1..][1..] == [Attr("aria-gramm", "x")];
  }

  // ---------------------------------------------------------------- the effect

  /** The effect's footprint: the root element's class list, the two
      elements it scrubs, and whether its timer is still pending. */
  class LayoutEffect {
    var mounted: bool
    var rootClasses: seq<string>
    var timerPending: bool
    const fontClass: string
    const body: Element
    const root: Element

    ghost predicate Valid()
      reads this, body, root
    {
      body != root && body.Valid() && root.Valid()
    }

    constructor (fontClass: string, rootClasses: seq<string>, body: Element, root: Element)
      requires body != root && body.Valid() && root.Valid()
      ensures Valid() && !mounted && !timerPending
      ensures this.rootClasses == rootClasses && this.fontClass == fontClass
      ensures this.body == body && this.root == root
    {
      this.fontClass := fontClass;
      this.rootClasses := rootClasses;
      this.body := body;
      this.root := root;
      mounted := false;
      timerPending := false;
    }

    /** The effect body: nothing outside a browser; otherwise mark the
        layout mounted, add the font class and start the 100 ms timer. */
    method Mount(windowDefined: bool)
      modifies this
      ensures !windowDefined ==>
        mounted == old(mounted) && rootClasses == old(rootClasses) && timerPending == old(timerPending)
      ensures windowDefined ==>
        mounted && timerPending && rootClasses == TokenList.Add(old(rootClasses), fontClass)
    {
      if !windowDefined {
        return;
      }
      mounted := true;
      rootClasses := TokenList.Add(rootClasses, fontClass);
      timerPending := true;
    }

    /** The timer fires: scrub `<body>`, then `<html>`. */
    method TimerFires()
      requires Valid() && timerPending
      modifies this, body, root
      ensures Valid() && !timerPending
      ensures body.attributes == Kept(old(body.attributes))
      ensures root.attributes == Kept(old(root.attributes))
      ensures rootClasses == old(rootClasses) && mounted == old(mounted)
    {
      RemoveExtensionAttributes(body);
      RemoveExtensionAttributes(root);
      timerPending := false;
    }

    /** The cleanup: cancel the timer and take the font class off again. */
    method Cleanup()
      modifies this
      ensures !timerPending
      ensures rootClasses == TokenList.Remove(old(rootClasses), fontClass)
      ensures fontClass !in rootClasses
      ensures mounted == old(mounted)
    {
      timerPending := false;
      rootClasses := TokenList.Remove(rootClasses, fontClass);
    }
  }

  /** Mounting and then cleaning up leaves the class list as it was, when
      the font class was not there before. */
  lemma MountThenCleanupRestores(classes: seq<string>, fontClass: string)
    requires fontClass !in classes
    ensures TokenList.Remove(TokenList.Add(classes, fontClass), fontClass) == classes
  {
    TokenList.AddThenRemove(classes, fontClass);
  }
}
