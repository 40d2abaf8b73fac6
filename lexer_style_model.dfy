/**
 * The style tree behind the editor's style configuration dialog
 * (trunk/editor/lexerstylemodel.cpp). Every style node carries three
 * properties (font, text colour, background colour); each property either
 * holds the style's own value or inherits the value of the parent style.
 *
 * The tree is an arena: node `n` is `nodes[n]`, a parent always precedes its
 * children, and a node without a parent hangs directly under the data-less
 * root node. The property nodes below a style's property root are the
 * entries of its `props` sequence, in property order.
 */
module LexerStyles {
  import opened Common
  import opened LexerConfig

  datatype StyleProperty = Font | Foreground | Background

  /** The number of style properties (`_LastProperty`). */
  const LastProperty: nat := 3

  /** The position of a property below its style's property root. */
  function Ord(p: StyleProperty): nat
  {
    match p
    case Font => 0
    case Foreground => 1
    case Background => 2
  }

  /** The property at a position below a property root. */
  function PropertyAt(j: nat): StyleProperty
    requires j < LastProperty
  {
    if j == 0 then Font else if j == 1 then Foreground else Background
  }

  /** The value type a property holds: fonts for Font, colours for the others. */
  function PropertyType(p: StyleProperty): (t: VariantType)
    ensures t == FontType <==> p == Font
    ensures t == ColorType <==> p != Font
  {
    match p
    case Font => FontType
    case Foreground => ColorType
    case Background => ColorType
  }

  /** The display name of a property. */
  function PropertyName(p: StyleProperty): (name: string)
    ensures name == "Font" <==> p == Font
    ensures name == "Text Colour" <==> p == Foreground
    ensures name == "Background Colour" <==> p == Background
  {
    match p
    case Font => "Font"
    case Foreground => "Text Colour"
    case Background => "Background Colour"
  }

  /** The settings marker asking a property to inherit its parent's value. */
  const InheritMarker: Variant := StringValue("<Inherit>")

  /** One property of a style: which property, its value, and whether it is inherited. */
  datatype PropertyData = PropertyData(prop: StyleProperty, value: Variant, inherited: bool)

  /** A style node: its parent and children, its lexer and style id, and its properties. */
  datatype StyleNode = StyleNode(
    parent: Option<nat>, children: seq<nat>, lexer: Lexer, style: int, props: seq<PropertyData>)

  /** The data of a property of a node (`propertyDataFromNode`). */
  function Prop(node: StyleNode, p: StyleProperty): PropertyData
  {
    if Ord(p) < |node.props| then node.props[Ord(p)] else PropertyData(p, Invalid, false)
  }

  /** Replaces the data of one property of a node. */
  function SetProp(node: StyleNode, p: StyleProperty, d: PropertyData): StyleNode
  {
    if Ord(p) < |node.props| then node.(props := node.props[Ord(p) := d]) else node
  }

  /** Replaces the value of one property of a node, keeping its inherited flag. */
  function SetValue(node: StyleNode, p: StyleProperty, v: Variant): StyleNode
  {
    SetProp(node, p, Prop(node, p).(value := v))
  }

  /** The property nodes a new style node gets: one per property, in order, none set. */
  function InitialProps(): (props: seq<PropertyData>)
    ensures |props| == LastProperty
    ensures forall j :: 0 <= j < LastProperty ==> props[j] == PropertyData(PropertyAt(j), Invalid, false)
  {
    [PropertyData(Font, Invalid, false), PropertyData(Foreground, Invalid, false),
     PropertyData(Background, Invalid, false)]
  }

  /** Node `n` is a well-formed member of the arena. */
  predicate WellFormed(nodes: seq<StyleNode>, n: nat)
    requires n < |nodes|
  {
    && |nodes[n].props| == LastProperty
    && (forall j :: 0 <= j < LastProperty ==> nodes[n].props[j].prop == PropertyAt(j))
    && (nodes[n].parent.Some? ==>
          nodes[n].parent.value < n && n in nodes[nodes[n].parent.value].children)
    && (forall k :: 0 <= k < |nodes[n].children| ==>
          n < nodes[n].children[k] < |nodes| && nodes[nodes[n].children[k]].parent == Some(n))
    && (forall k, k' :: 0 <= k < k' < |nodes[n].children| ==> nodes[n].children[k] != nodes[n].children[k'])
  }

  /** The arena is a tree whose parent and child links agree. */
  predicate Valid(nodes: seq<StyleNode>)
  {
    forall n :: 0 <= n < |nodes| ==> WellFormed(nodes, n)
  }

  /** An inherited property holds exactly its parent style's value. */
  predicate InheritConsistent(nodes: seq<StyleNode>)
  {
    forall m, p :: 0 <= m < |nodes| && Prop(nodes[m], p).inherited ==>
      && nodes[m].parent.Some? && nodes[m].parent.value < m
      && Prop(nodes[m], p).value == Prop(nodes[nodes[m].parent.value], p).value
  }

  /** Two nodes agree on everything but their property values and inherited flags. */
  predicate SameStructure(x: StyleNode, y: StyleNode)
  {
    && x.parent == y.parent && x.children == y.children && x.lexer == y.lexer && x.style == y.style
    && |x.props| == |y.props|
    && forall j :: 0 <= j < |x.props| ==> x.props[j].prop == y.props[j].prop
  }

  /** Two nodes agree on everything but their property values. */
  predicate SameExceptValues(x: StyleNode, y: StyleNode)
  {
    && SameStructure(x, y)
    && forall j :: 0 <= j < |x.props| ==> x.props[j].inherited == y.props[j].inherited
  }

  /** Two arenas differ at most in property values and inherited flags. */
  predicate StructureOnly(a: seq<StyleNode>, b: seq<StyleNode>)
  {
    |a| == |b| && forall i :: 0 <= i < |a| ==> SameStructure(a[i], b[i])
  }

  /** Two arenas differ at most in property values. */
  predicate ValuesOnly(a: seq<StyleNode>, b: seq<StyleNode>)
  {
    |a| == |b| && forall i :: 0 <= i < |a| ==> SameExceptValues(a[i], b[i])
  }

  lemma SetPropStructure(x: StyleNode, p: StyleProperty, d: PropertyData)
    requires d.prop == Prop(x, p).prop
    ensures SameStructure(x, SetProp(x, p, d))
    ensures d.inherited == Prop(x, p).inherited ==> SameExceptValues(x, SetProp(x, p, d))
    ensures Ord(p) < |x.props| ==> Prop(SetProp(x, p, d), p) == d
    ensures forall q :: q != p ==> Prop(SetProp(x, p, d), q) == Prop(x, q)
  {
  }

  lemma ValidStructure(a: seq<StyleNode>, b: seq<StyleNode>)
    requires Valid(a) && StructureOnly(a, b)
    ensures Valid(b)
  {
    forall n | 0 <= n < |b| ensures WellFormed(b, n) {
      assert WellFormed(a, n);
      assert SameStructure(a[n], b[n]);
      if b[n].parent.Some? {
        assert SameStructure(a[b[n].parent.value], b[b[n].parent.value]);
      }
      forall k | 0 <= k < |b[n].children|
        ensures n < b[n].children[k] < |b| && b[b[n].children[k]].parent == Some(n)
      {
        assert SameStructure(a[a[n].children[k]], b[a[n].children[k]]);
      }
    }
  }

  /**
   * `m` lies strictly below `a`, and every style on the way up from `m` to a
   * child of `a`, both included, inherits property `p`.
   */
  predicate Inherits(nodes: seq<StyleNode>, m: nat, a: nat, p: StyleProperty)
    decreases m
  {
    && m < |nodes| && nodes[m].parent.Some? && nodes[m].parent.value < m
    && Prop(nodes[m], p).inherited
    && (nodes[m].parent.value == a || Inherits(nodes, nodes[m].parent.value, a, p))
  }

  /** `m` is the inheriting child `c` or inherits through it. */
  predicate Reached(nodes: seq<StyleNode>, m: nat, c: nat, p: StyleProperty)
  {
    c < |nodes| && Prop(nodes[c], p).inherited && (m == c || Inherits(nodes, m, c, p))
  }

  /** `m` is reached through one of the first `i` children in `cs`. */
  predicate ReachedBefore(nodes: seq<StyleNode>, m: nat, cs: seq<nat>, i: nat, p: StyleProperty)
    requires i <= |cs|
  {
    exists k :: 0 <= k < i && Reached(nodes, m, cs[k], p)
  }

  /** Every style that inherits from `a` lies after it. */
  lemma {:induction false} InheritsBelow(nodes: seq<StyleNode>, m: nat, a: nat, p: StyleProperty)
    requires Inherits(nodes, m, a, p)
    ensures a < m
    decreases m
  {
    var q := nodes[m].parent.value;
    if q != a {
      InheritsBelow(nodes, q, a, p);
    }
  }

  /** Inheritance chains compose. */
  lemma {:induction false} InheritsThrough(nodes: seq<StyleNode>, m: nat, c: nat, a: nat, p: StyleProperty)
    requires Inherits(nodes, m, c, p) && Inherits(nodes, c, a, p)
    ensures Inherits(nodes, m, a, p)
    decreases m
  {
    var q := nodes[m].parent.value;
    if q != c {
      InheritsThrough(nodes, q, c, a, p);
    }
  }

  /** Inheritance depends only on the structure and the inherited flags. */
  lemma {:induction false} InheritsValuesOnly(a: seq<StyleNode>, b: seq<StyleNode>, m: nat, top: nat, p: StyleProperty)
    requires ValuesOnly(a, b)
    ensures Inherits(a, m, top, p) == Inherits(b, m, top, p)
    decreases m
  {
    if m < |a| {
      assert SameExceptValues(a[m], b[m]);
      assert Prop(a[m], p).inherited == Prop(b[m], p).inherited;
      if a[m].parent.Some? && a[m].parent.value < m {
        InheritsValuesOnly(a, b, a[m].parent.value, top, p);
      }
    }
  }

  /**
   * A style inherits from `a` exactly when it is reached through one of the
   * children of `a`: the recursion over children visits precisely the
   * inheriting descendants.
   */
  lemma {:induction false} InheritsViaChild(nodes: seq<StyleNode>, m: nat, a: nat, p: StyleProperty)
    requires Valid(nodes) && a < |nodes|
    ensures Inherits(nodes, m, a, p) <==> ReachedBefore(nodes, m, nodes[a].children, |nodes[a].children|, p)
    decreases m
  {
    var cs := nodes[a].children;
    if Inherits(nodes, m, a, p) {
      var q := nodes[m].parent.value;
      assert WellFormed(nodes, m);
      if q == a {
        var k :| 0 <= k < |cs| && cs[k] == m;
        assert Reached(nodes, m, cs[k], p);
      } else {
        InheritsViaChild(nodes, q, a, p);
        var k :| 0 <= k < |cs| && Reached(nodes, q, cs[k], p);
        if q != cs[k] {
          InheritsThrough(nodes, m, q, cs[k], p);
        }
        assert Reached(nodes, m, cs[k], p);
      }
    }
    if ReachedBefore(nodes, m, cs, |cs|, p) {
      var k :| 0 <= k < |cs| && Reached(nodes, m, cs[k], p);
      assert WellFormed(nodes, a);
      assert Inherits(nodes, cs[k], a, p);
      if m != cs[k] {
        InheritsThrough(nodes, m, cs[k], a, p);
      }
    }
  }

  /**
   * The tree after `inheritProperty(v, a, p)`: every style that inherits
   * property `p` from `a` holds `v`; every other node is unchanged.
   */
  function Propagate(nodes: seq<StyleNode>, a: nat, p: StyleProperty, v: Variant): seq<StyleNode>
  {
    seq(|nodes|, m requires 0 <= m < |nodes| => if Inherits(nodes, m, a, p) then SetValue(nodes[m], p, v) else nodes[m])
  }

  /**
   * Propagation gives every inheriting style the value and keeps it
   * inherited; other styles, and the other properties, are untouched.
   */
  lemma PropagateSpec(nodes: seq<StyleNode>, a: nat, p: StyleProperty, v: Variant)
    ensures var r := Propagate(nodes, a, p, v);
      && |r| == |nodes|
      && (forall m :: 0 <= m < |nodes| && !Inherits(nodes, m, a, p) ==> r[m] == nodes[m])
      && (forall m :: 0 <= m < |nodes| && Inherits(nodes, m, a, p) ==>
            Prop(r[m], p) == Prop(nodes[m], p).(value := v) && Prop(r[m], p).inherited)
      && (forall m, q :: 0 <= m < |nodes| && q != p ==> Prop(r[m], q) == Prop(nodes[m], q))
      && (forall m :: 0 <= m < |nodes| ==> r[m].parent == nodes[m].parent)
  {
  }

  /** Propagation changes only values: structure and inherited flags stay. */
  lemma PropagateValuesOnly(nodes: seq<StyleNode>, a: nat, p: StyleProperty, v: Variant)
    requires Valid(nodes)
    ensures ValuesOnly(nodes, Propagate(nodes, a, p, v))
    ensures Valid(Propagate(nodes, a, p, v))
  {
    var r := Propagate(nodes, a, p, v);
    forall m | 0 <= m < |nodes| ensures SameExceptValues(nodes[m], r[m]) {
      assert WellFormed(nodes, m);
      SetPropStructure(nodes[m], p, Prop(nodes[m], p).(value := v));
    }
    ValidStructure(nodes, r);
  }

  /** The value of property `p` of the parent of a style, or an invalid value at the top. */
  function ParentValue(nodes: seq<StyleNode>, n: nat, p: StyleProperty): Variant
    requires n < |nodes|
  {
    if nodes[n].parent.Some? && nodes[n].parent.value < |nodes| then Prop(nodes[nodes[n].parent.value], p).value
    else Invalid
  }

  /**
   * The data `setProperty(val, n, p, defVal)` leaves in property `p` of style
   * `n`. A value of the property's type is stored as the style's own. A style
   * directly under the root never inherits: it takes `defVal` when that is
   * properly typed and otherwise keeps its value. Elsewhere, unless `val` is
   * the inherit marker, a typed `defVal` that differs from the parent's value
   * becomes the style's own; in every remaining case the style inherits the
   * parent's value.
   */
  function Assigned(nodes: seq<StyleNode>, n: nat, p: StyleProperty, val: Variant, defVal: Variant): (d: PropertyData)
    requires n < |nodes|
    ensures d.prop == Prop(nodes[n], p).prop
    ensures TypeOf(val) == PropertyType(p) ==> d.value == val && !d.inherited
    ensures nodes[n].parent.None? ==> !d.inherited
    ensures nodes[n].parent.None? && TypeOf(val) != PropertyType(p) ==>
      d.value == if TypeOf(defVal) == PropertyType(p) then defVal else Prop(nodes[n], p).value
    ensures TypeOf(val) != PropertyType(p) && nodes[n].parent.Some? && val != InheritMarker ==>
      (!d.inherited <==> TypeOf(defVal) == PropertyType(p) && ParentValue(nodes, n, p) != defVal)
    ensures TypeOf(val) != PropertyType(p) && nodes[n].parent.Some? && val == InheritMarker ==> d.inherited
    ensures !d.inherited && TypeOf(val) != PropertyType(p) && nodes[n].parent.Some? ==> d.value == defVal
    ensures d.inherited ==> nodes[n].parent.Some? && d.value == ParentValue(nodes, n, p)
  {
    var data := Prop(nodes[n], p);
    var ty := PropertyType(p);
    if TypeOf(val) == ty then
      data.(value := val, inherited := false)
    else if nodes[n].parent.None? then
      data.(value := if TypeOf(defVal) == ty then defVal else data.value, inherited := false)
    else if val != InheritMarker && TypeOf(defVal) == ty && ParentValue(nodes, n, p) != defVal then
      data.(value := defVal, inherited := false)
    else
      data.(value := ParentValue(nodes, n, p), inherited := true)
  }

  /** The tree after `setProperty(val, n, p, defVal)`. */
  function SetPropertyResult(nodes: seq<StyleNode>, n: nat, p: StyleProperty, val: Variant, defVal: Variant): seq<StyleNode>
    requires n < |nodes|
  {
    nodes[n := SetProp(nodes[n], p, Assigned(nodes, n, p, val, defVal))]
  }

  /** setProperty gives property `p` of style `n` its assigned data and touches nothing else. */
  lemma SetPropertySpec(nodes: seq<StyleNode>, n: nat, p: StyleProperty, val: Variant, defVal: Variant)
    requires n < |nodes|
    ensures var r := SetPropertyResult(nodes, n, p, val, defVal);
      && |r| == |nodes|
      && (forall i :: 0 <= i < |nodes| && i != n ==> r[i] == nodes[i])
      && (Ord(p) < |nodes[n].props| ==> Prop(r[n], p) == Assigned(nodes, n, p, val, defVal))
      && (forall q :: q != p ==> Prop(r[n], q) == Prop(nodes[n], q))
  {
  }

  /** setProperty changes one property of one style and keeps the tree's shape. */
  lemma SetPropertyStructure(nodes: seq<StyleNode>, n: nat, p: StyleProperty, val: Variant, defVal: Variant)
    requires Valid(nodes) && n < |nodes|
    ensures StructureOnly(nodes, SetPropertyResult(nodes, n, p, val, defVal))
    ensures Valid(SetPropertyResult(nodes, n, p, val, defVal))
  {
    var r := SetPropertyResult(nodes, n, p, val, defVal);
    SetPropStructure(nodes[n], p, Assigned(nodes, n, p, val, defVal));
    assert forall i :: 0 <= i < |nodes| && i != n ==> r[i] == nodes[i];
    ValidStructure(nodes, r);
  }

  /**
   * Setting a property of a style that has no child styles keeps every
   * inherited property equal to its parent's value.
   */
  lemma SetPropertyOnLeafKeepsConsistent(nodes: seq<StyleNode>, n: nat, p: StyleProperty, val: Variant, defVal: Variant)
    requires Valid(nodes) && InheritConsistent(nodes) && n < |nodes| && nodes[n].children == []
    ensures InheritConsistent(SetPropertyResult(nodes, n, p, val, defVal))
  {
    var r := SetPropertyResult(nodes, n, p, val, defVal);
    var d := Assigned(nodes, n, p, val, defVal);
    SetPropertyStructure(nodes, n, p, val, defVal);
    SetPropStructure(nodes[n], p, d);
    assert WellFormed(nodes, n);
    forall m, q | 0 <= m < |r| && Prop(r[m], q).inherited
      ensures r[m].parent.Some? && r[m].parent.value < m && Prop(r[m], q).value == Prop(r[r[m].parent.value], q).value
    {
      assert WellFormed(nodes, m);
    }
  }

  /**
   * The tree after `setData` sets property `p` of style `n` to `value`: the
   * property is updated with no default, and its resulting value is then
   * pushed to every style that inherits it from `n`.
   */
  function SetDataResult(nodes: seq<StyleNode>, n: nat, p: StyleProperty, value: Variant): seq<StyleNode>
    requires n < |nodes|
  {
    var updated := SetPropertyResult(nodes, n, p, value, Invalid);
    Propagate(updated, n, p, Prop(updated[n], p).value)
  }

  /**
   * `setData` as written: the value pushed to the inheriting styles is the
   * requested value, and nothing is pushed when it is the inherit marker.
   */
  function SetDataAsWritten(nodes: seq<StyleNode>, n: nat, p: StyleProperty, value: Variant): seq<StyleNode>
    requires n < |nodes|
  {
    var updated := SetPropertyResult(nodes, n, p, value, Invalid);
    if value != InheritMarker then Propagate(updated, n, p, value) else updated
  }

  /**
   * setData updates property `p` of style `n` as setProperty assigns it,
   * keeps its other properties, gives every style that inherited `p` from
   * `n` the value `n` ends with, and leaves every other style alone.
   */
  lemma SetDataSpec(nodes: seq<StyleNode>, n: nat, p: StyleProperty, value: Variant)
    requires n < |nodes|
    ensures var r := SetDataResult(nodes, n, p, value);
      && |r| == |nodes|
      && (Ord(p) < |nodes[n].props| ==> Prop(r[n], p) == Assigned(nodes, n, p, value, Invalid))
      && (forall m, q :: 0 <= m < |nodes| && q != p ==> Prop(r[m], q) == Prop(nodes[m], q))
      && (forall m :: 0 <= m < |nodes| && Inherits(nodes, m, n, p) ==>
            Prop(r[m], p).value == Prop(r[n], p).value && Prop(r[m], p).inherited)
      && (forall m :: 0 <= m < |nodes| && m != n && !Inherits(nodes, m, n, p) ==> r[m] == nodes[m])
      && (forall m :: 0 <= m < |nodes| ==> r[m].parent == nodes[m].parent)
  {
    var n1 := SetPropertyResult(nodes, n, p, value, Invalid);
    SetPropertySpec(nodes, n, p, value, Invalid);
    SetPropertyFrame(nodes, n, p, value);
    PropagateSpec(n1, n, p, Prop(n1[n], p).value);
  }

  /**
   * setData as written: style `n` is updated as by setData, but any value
   * other than the inherit marker, of the property's type or not, is what
   * the inheriting styles receive; the marker reaches none of them.
   */
  lemma SetDataAsWrittenSpec(nodes: seq<StyleNode>, n: nat, p: StyleProperty, value: Variant)
    requires n < |nodes|
    ensures var r := SetDataAsWritten(nodes, n, p, value);
      && |r| == |nodes|
      && (Ord(p) < |nodes[n].props| ==> Prop(r[n], p) == Assigned(nodes, n, p, value, Invalid))
      && (forall q :: q != p ==> Prop(r[n], q) == Prop(nodes[n], q))
      && (value != InheritMarker ==>
            forall m :: 0 <= m < |nodes| && Inherits(nodes, m, n, p) ==> Prop(r[m], p).value == value)
      && (value == InheritMarker ==> r == SetPropertyResult(nodes, n, p, value, Invalid))
      && (forall m :: 0 <= m < |nodes| && m != n && !Inherits(nodes, m, n, p) ==> r[m] == nodes[m])
  {
    var n1 := SetPropertyResult(nodes, n, p, value, Invalid);
    SetPropertySpec(nodes, n, p, value, Invalid);
    SetPropertyFrame(nodes, n, p, value);
    PropagateSpec(n1, n, p, value);
  }

  /**
   * After setProperty on style `n`, the styles inheriting from `n` are the
   * same as before, and `n` itself is not among them.
   */
  lemma SetPropertyFrame(nodes: seq<StyleNode>, n: nat, p: StyleProperty, value: Variant)
    requires n < |nodes|
    ensures !Inherits(SetPropertyResult(nodes, n, p, value, Invalid), n, n, p)
    ensures forall m :: Inherits(nodes, m, n, p) == Inherits(SetPropertyResult(nodes, n, p, value, Invalid), m, n, p)
  {
    var n1 := SetPropertyResult(nodes, n, p, value, Invalid);
    if Inherits(n1, n, n, p) {
      InheritsBelow(n1, n, n, p);
    }
    forall m
      ensures Inherits(nodes, m, n, p) == Inherits(n1, m, n, p)
    {
      InheritsIgnoresTop(nodes, n1, m, n, p);
    }
  }

  /**
   * Editing a property keeps the tree's shape and keeps every inherited
   * property equal to its parent's value.
   */
  lemma SetDataKeepsConsistent(nodes: seq<StyleNode>, n: nat, p: StyleProperty, value: Variant)
    requires Valid(nodes) && InheritConsistent(nodes) && n < |nodes|
    ensures Valid(SetDataResult(nodes, n, p, value))
    ensures InheritConsistent(SetDataResult(nodes, n, p, value))
  {
    var n1 := SetPropertyResult(nodes, n, p, value, Invalid);
    var v := Prop(n1[n], p).value;
    var n2 := Propagate(n1, n, p, v);
    SetPropertyStructure(nodes, n, p, value, Invalid);
    PropagateValuesOnly(n1, n, p, v);
    forall m, q | 0 <= m < |n2| && Prop(n2[m], q).inherited
      ensures n2[m].parent.Some? && n2[m].parent.value < m && Prop(n2[m], q).value == Prop(n2[n2[m].parent.value], q).value
    {
      SetDataConsistentAt(nodes, n, p, value, m, q);
    }
  }

  /** SetDataKeepsConsistent for one property of one style. */
  lemma SetDataConsistentAt(nodes: seq<StyleNode>, n: nat, p: StyleProperty, value: Variant, m: nat, q: StyleProperty)
    requires Valid(nodes) && InheritConsistent(nodes) && n < |nodes| && m < |nodes|
    requires Prop(SetDataResult(nodes, n, p, value)[m], q).inherited
    ensures var r := SetDataResult(nodes, n, p, value);
      r[m].parent.Some? && r[m].parent.value < m && Prop(r[m], q).value == Prop(r[r[m].parent.value], q).value
  {
    var r := SetDataResult(nodes, n, p, value);
    var d := Assigned(nodes, n, p, value, Invalid);
    SetDataSpec(nodes, n, p, value);
    assert WellFormed(nodes, n);
    if q != p {
      assert Prop(nodes[m], q).inherited;
      var pm := nodes[m].parent.value;
      assert Prop(r[pm], q) == Prop(nodes[pm], q);
    } else if m == n {
      assert Prop(r[n], p) == d;
      var pm := nodes[n].parent.value;
      if Inherits(nodes, pm, n, p) {
        InheritsBelow(nodes, pm, n, p);
      }
      assert r[pm] == nodes[pm];
    } else if Inherits(nodes, m, n, p) {
      var pm := nodes[m].parent.value;
      assert pm == n || Inherits(nodes, pm, n, p);
    } else {
      assert r[m] == nodes[m];
      var pm := nodes[m].parent.value;
      assert pm != n && !Inherits(nodes, pm, n, p);
      assert r[pm] == nodes[pm];
    }
  }

  /** Whether a style inherits from `a` does not depend on `a` itself. */
  lemma {:induction false} InheritsIgnoresTop(x: seq<StyleNode>, y: seq<StyleNode>, m: nat, a: nat, p: StyleProperty)
    requires |x| == |y| && forall i :: 0 <= i < |x| && i != a ==> x[i] == y[i]
    ensures Inherits(x, m, a, p) == Inherits(y, m, a, p)
    decreases m
  {
    if m == a {
      if Inherits(x, m, a, p) {
        InheritsBelow(x, m, a, p);
      }
      if Inherits(y, m, a, p) {
        InheritsBelow(y, m, a, p);
      }
    } else if m < |x| && x[m].parent.Some? && x[m].parent.value < m {
      InheritsIgnoresTop(x, y, x[m].parent.value, a, p);
    }
  }

  /**
   * Editing a property with a value of its type stores the value as the
   * style's own, gives the same value to every style that inherits the
   * property from it, and changes nothing else.
   */
  lemma SetDataTypedValue(nodes: seq<StyleNode>, n: nat, p: StyleProperty, value: Variant)
    requires Valid(nodes) && n < |nodes| && TypeOf(value) == PropertyType(p)
    ensures var r := SetDataResult(nodes, n, p, value);
      && |r| == |nodes|
      && Prop(r[n], p) == Prop(nodes[n], p).(value := value, inherited := false)
      && (forall q :: q != p ==> Prop(r[n], q) == Prop(nodes[n], q))
      && (forall m :: 0 <= m < |nodes| && Inherits(nodes, m, n, p) ==> r[m] == SetValue(nodes[m], p, value))
      && (forall m :: 0 <= m < |nodes| && m != n && !Inherits(nodes, m, n, p) ==> r[m] == nodes[m])
  {
    var d := Assigned(nodes, n, p, value, Invalid);
    var n1 := SetPropertyResult(nodes, n, p, value, Invalid);
    var r := SetDataResult(nodes, n, p, value);
    assert WellFormed(nodes, n);
    SetPropStructure(nodes[n], p, d);
    if Inherits(n1, n, n, p) {
      InheritsBelow(n1, n, n, p);
    }
    assert r[n] == n1[n];
    forall m | 0 <= m < |nodes|
      ensures Inherits(nodes, m, n, p) == Inherits(n1, m, n, p)
    {
      InheritsIgnoresTop(nodes, n1, m, n, p);
    }
  }

  /** A three-level font chain: a top style, its child with its own font, and an inheriting grandchild. */
  function InheritChain(): seq<StyleNode>
  {
    var l := CommonLexer();
    [StyleNode(None, [1], l, 0, ChainProps(1, false)),
     StyleNode(Some(0), [2], l, 0, ChainProps(2, false)),
     StyleNode(Some(1), [], l, 0, ChainProps(2, true))]
  }

  /** The properties of a style of the chain: a font, possibly inherited, and fixed colours. */
  function ChainProps(font: nat, inherited: bool): seq<PropertyData>
  {
    [PropertyData(Font, FontValue(font), inherited), PropertyData(Foreground, ColorValue(0), false),
     PropertyData(Background, ColorValue(1), false)]
  }

  /** The chain is a valid tree in which the inheriting grandchild holds its parent's font. */
  lemma InheritChainConsistent()
    ensures Valid(InheritChain()) && InheritConsistent(InheritChain())
  {
    var nodes := InheritChain();
    forall n | 0 <= n < |nodes| ensures WellFormed(nodes, n) {
      assert |nodes[n].props| == LastProperty;
      assert nodes[n].props[0].prop == Font && nodes[n].props[1].prop == Foreground;
      assert nodes[n].props[2].prop == Background;
      if n == 0 {
        assert nodes[0].children == [1];
      } else if n == 1 {
        assert nodes[1].children == [2] && 1 in nodes[0].children;
      } else {
        assert nodes[2].children == [] && 2 in nodes[1].children;
      }
    }
    forall m, q | 0 <= m < |nodes| && Prop(nodes[m], q).inherited
      ensures nodes[m].parent.Some? && nodes[m].parent.value < m
      ensures Prop(nodes[m], q).value == Prop(nodes[nodes[m].parent.value], q).value
    {
      assert m == 2 && q == Font;
    }
  }

  /**
   * As written, resetting a style's property to "<Inherit>" leaves the styles
   * that inherit it from that style with the old value: in the chain above,
   * the middle style takes the top style's font while the grandchild, still
   * marked inherited, keeps the middle style's former font.
   */
  lemma SetDataAsWrittenLosesInheritance()
    ensures Valid(InheritChain()) && InheritConsistent(InheritChain())
    ensures var r := SetDataAsWritten(InheritChain(), 1, Font, InheritMarker);
      && Prop(r[1], Font) == PropertyData(Font, FontValue(1), true)
      && Prop(r[2], Font) == PropertyData(Font, FontValue(2), true)
      && !InheritConsistent(r)
    ensures InheritConsistent(SetDataResult(InheritChain(), 1, Font, InheritMarker))
  {
    var nodes := InheritChain();
    InheritChainConsistent();
    var r := SetDataAsWritten(nodes, 1, Font, InheritMarker);
    assert ParentValue(nodes, 1, Font) == FontValue(1);
    assert Prop(r[2], Font).inherited && r[2].parent == Some(1);
    SetDataKeepsConsistent(nodes, 1, Font, InheritMarker);
  }

  /**
   * As written, a value not of the property's type is pushed to the
   * inheriting styles although the edited style does not take it: in the
   * chain, giving the middle style a colour as its font makes it inherit the
   * top style's font, while the grandchild receives the colour.
   */
  lemma SetDataAsWrittenPushesUntypedValue()
    ensures var r := SetDataAsWritten(InheritChain(), 1, Font, ColorValue(5));
      && Prop(r[1], Font) == PropertyData(Font, FontValue(1), true)
      && Prop(r[2], Font) == PropertyData(Font, ColorValue(5), true)
      && !InheritConsistent(r)
    ensures var r := SetDataResult(InheritChain(), 1, Font, ColorValue(5));
      Prop(r[2], Font) == PropertyData(Font, FontValue(1), true) && InheritConsistent(r)
  {
    var nodes := InheritChain();
    InheritChainConsistent();
    assert ParentValue(nodes, 1, Font) == FontValue(1);
    assert Inherits(nodes, 2, 1, Font);
    SetDataAsWrittenSpec(nodes, 1, Font, ColorValue(5));
    SetDataSpec(nodes, 1, Font, ColorValue(5));
    var r := SetDataAsWritten(nodes, 1, Font, ColorValue(5));
    assert Prop(r[2], Font).inherited && r[2].parent == Some(1);
    SetDataKeepsConsistent(nodes, 1, Font, ColorValue(5));
  }

  /** Item roles (Qt::ItemDataRole values). */
  const DisplayRole: int := 0
  const DecorationRole: int := 1
  const EditRole: int := 2
  const FontRole: int := 6
  const BackgroundRole: int := 8
  const ForegroundRole: int := 9

  /** Every index of the model has two columns. */
  const ColumnCount: int := 2

  /** The role under which a style's sample column shows a property. */
  function SampleRole(p: StyleProperty): int
  {
    match p
    case Font => FontRole
    case Foreground => ForegroundRole
    case Background => BackgroundRole
  }

  /** The second column of a style (`styleData`): a sample text drawn with the style's properties. */
  function StyleRoleData(node: StyleNode, role: int): (r: Variant)
    ensures role == DisplayRole ==> r == StringValue("Sample Text")
    ensures forall p :: role == SampleRole(p) ==> r == Prop(node, p).value
    ensures role != DisplayRole && role != FontRole && role != ForegroundRole && role != BackgroundRole ==> r == Invalid
  {
    if role == DisplayRole then StringValue("Sample Text")
    else if role == FontRole then Prop(node, Font).value
    else if role == ForegroundRole then Prop(node, Foreground).value
    else if role == BackgroundRole then Prop(node, Background).value
    else Invalid
  }

  /**
   * The second column of a property (`propertyData`). An inherited property
   * displays "Inherit" and is never decorated; an own font is displayed, an
   * own colour is shown as decoration; editing always sees the stored value.
   */
  function PropertyRoleData(data: PropertyData, role: int): (r: Variant)
    ensures role == EditRole ==> r == data.value
    ensures role == DisplayRole && data.inherited ==> r == StringValue("Inherit")
    ensures role == DisplayRole && !data.inherited ==> r == if data.prop == Font then data.value else Invalid
    ensures role == DecorationRole ==> r == if !data.inherited && data.prop != Font then data.value else Invalid
    ensures role != EditRole && role != DisplayRole && role != DecorationRole ==> r == Invalid
  {
    if role == DisplayRole then
      if data.inherited then StringValue("Inherit")
      else if PropertyType(data.prop) == FontType then data.value
      else Invalid
    else if role == DecorationRole then
      if !data.inherited && PropertyType(data.prop) == ColorType then data.value else Invalid
    else if role == EditRole then data.value
    else Invalid
  }

  /**
   * What a model index points to: nothing, the data-less root, a style, the
   * data-less property root of a style, or one property of a style.
   */
  datatype NodeRef =
    | NoNode
    | RootRef
    | StyleRef(node: nat)
    | PropertyRootRef(node: nat)
    | PropertyRef(node: nat, prop: StyleProperty)

  /**
   * `data(index, role)`: the number 0 for a missing or data-less node; for a
   * style, its language name (default style) or style description, then its
   * sample; for a property, its name, then its value.
   */
  function Data(nodes: seq<StyleNode>, ref: NodeRef, column: int, role: int): (r: Variant)
    ensures ref.NoNode? || ref.RootRef? || ref.PropertyRootRef? ==> r == IntValue(0)
    ensures ref.StyleRef? && ref.node < |nodes| && column == 1 ==> r == StyleRoleData(nodes[ref.node], role)
    ensures ref.PropertyRef? && ref.node < |nodes| && column == 1 ==> r == PropertyRoleData(Prop(nodes[ref.node], ref.prop), role)
    ensures ref.PropertyRef? && ref.node < |nodes| && column == 0 && role == DisplayRole ==> r == StringValue(PropertyName(ref.prop))
    ensures ref.StyleRef? && ref.node < |nodes| && column == 0 && role == DisplayRole ==>
      var node := nodes[ref.node];
      r == StringValue(if node.style == node.lexer.defaultStyle then node.lexer.language else Description(node.lexer, node.style))
  {
    match ref
    case StyleRef(n) =>
      if n >= |nodes| then IntValue(0)
      else
        var node := nodes[n];
        if column == 0 then
          if role != DisplayRole then Invalid
          else if node.style == node.lexer.defaultStyle then StringValue(node.lexer.language)
          else StringValue(Description(node.lexer, node.style))
        else if column == 1 then StyleRoleData(node, role)
        else Invalid
    case PropertyRef(n, p) =>
      if n >= |nodes| then IntValue(0)
      else if column == 0 then
        if role == DisplayRole then StringValue(PropertyName(p)) else Invalid
      else if column == 1 then PropertyRoleData(Prop(nodes[n], p), role)
      else Invalid
    case _ => IntValue(0)
  }

  /**
   * After a property is edited with a value of its type, the property's
   * editor and the style's sample show that value, and so do the samples of
   * all styles inheriting the property, whose property still reads "Inherit".
   */
  lemma EditShowsInInheritors(nodes: seq<StyleNode>, n: nat, p: StyleProperty, value: Variant)
    requires Valid(nodes) && n < |nodes| && TypeOf(value) == PropertyType(p)
    ensures var r := SetDataResult(nodes, n, p, value);
      && Data(r, PropertyRef(n, p), 1, EditRole) == value
      && Data(r, StyleRef(n), 1, SampleRole(p)) == value
      && forall m :: 0 <= m < |nodes| && Inherits(nodes, m, n, p) ==>
           && Data(r, StyleRef(m), 1, SampleRole(p)) == value
           && Data(r, PropertyRef(m, p), 1, DisplayRole) == StringValue("Inherit")
  {
    SetDataTypedValue(nodes, n, p, value);
    var r := SetDataResult(nodes, n, p, value);
    forall m | 0 <= m < |nodes| && Inherits(nodes, m, n, p)
      ensures Prop(r[m], p) == Prop(nodes[m], p).(value := value)
    {
      assert WellFormed(nodes, m);
      SetPropStructure(nodes[m], p, Prop(nodes[m], p).(value := value));
    }
  }

  /** The lowest style id from `from` on that has no description. */
  function FirstUndescribed(l: Lexer, from: nat): (r: nat)
    ensures from <= r && Description(l, r) == ""
    ensures forall i :: from <= i < r ==> Description(l, i) != ""
    decreases |l.descriptions| - from
  {
    if Description(l, from) == "" then from else FirstUndescribed(l, from + 1)
  }

  /** The first undescribed id is determined by the descriptions before it. */
  lemma {:induction false} FirstUndescribedIs(l: Lexer, from: nat, i: nat)
    requires from <= i && Description(l, i) == ""
    requires forall j :: from <= j < i ==> Description(l, j) != ""
    ensures FirstUndescribed(l, from) == i
    decreases i - from
  {
    if from < i {
      FirstUndescribedIs(l, from + 1, i);
    }
  }

  /** The ids below `i` other than the default style, in increasing order. */
  function StyleIdsBelow(l: Lexer, i: nat): seq<int>
  {
    if i == 0 then [] else StyleIdsBelow(l, i - 1) + (if i - 1 == l.defaultStyle then [] else [i - 1])
  }

  /** The styles of a lexer that get their own node. */
  function StyleIds(l: Lexer): seq<int>
  {
    StyleIdsBelow(l, FirstUndescribed(l, 0))
  }

  lemma {:induction false} StyleIdsBelowSpec(l: Lexer, i: nat)
    ensures forall s :: s in StyleIdsBelow(l, i) <==> 0 <= s < i && s != l.defaultStyle
    ensures forall a, b :: 0 <= a < b < |StyleIdsBelow(l, i)| ==> StyleIdsBelow(l, i)[a] < StyleIdsBelow(l, i)[b]
  {
    if i > 0 {
      var prev := StyleIdsBelow(l, i - 1);
      StyleIdsBelowSpec(l, i - 1);
      forall a | 0 <= a < |prev| ensures prev[a] < i - 1 {
        assert prev[a] in prev;
      }
    }
  }

  /**
   * A lexer's own style nodes are for exactly the styles described before the
   * first undescribed id, except the default style, in increasing id order.
   */
  lemma StyleIdsAreDescribedStyles(l: Lexer)
    ensures forall s :: s in StyleIds(l) <==>
      0 <= s && s != l.defaultStyle && forall j :: 0 <= j <= s ==> Description(l, j) != ""
    ensures forall a, b :: 0 <= a < b < |StyleIds(l)| ==> StyleIds(l)[a] < StyleIds(l)[b]
  {
    var e := FirstUndescribed(l, 0);
    StyleIdsBelowSpec(l, e);
    forall s | 0 <= s && s != l.defaultStyle && s !in StyleIds(l)
      ensures exists j :: 0 <= j <= s && Description(l, j) == ""
    {
      assert 0 <= e <= s && Description(l, e) == "";
    }
  }

  /** Where a node sits and what it styles. */
  datatype Slot = Slot(parent: Option<nat>, lexer: Lexer, style: int)

  function Skeleton(nodes: seq<StyleNode>): seq<Slot>
  {
    seq(|nodes|, i requires 0 <= i < |nodes| => Slot(nodes[i].parent, nodes[i].lexer, nodes[i].style))
  }

  function StyleSlots(parent: nat, l: Lexer, ids: seq<int>): seq<Slot>
  {
    seq(|ids|, k requires 0 <= k < |ids| => Slot(Some(parent), l, ids[k]))
  }

  /** The slots for the styles below i + 1 extend those below i by style i, unless it is the default. */
  lemma StyleSlotsStep(parent: nat, l: Lexer, i: nat)
    ensures StyleSlots(parent, l, StyleIdsBelow(l, i + 1))
         == StyleSlots(parent, l, StyleIdsBelow(l, i)) + (if i == l.defaultStyle then [] else [Slot(Some(parent), l, i)])
  {
  }

  /**
   * The tree built from a list of lexers: the first one's node sits under
   * the root; every later lexer gets a node under the first one, followed by
   * one node per style of it (StyleIds) under that lexer node.
   */
  function Layout(lexers: seq<Lexer>): (r: seq<Slot>)
    ensures |lexers| > 0 ==> |r| > 0
    decreases |lexers|
  {
    if lexers == [] then []
    else if |lexers| == 1 then [Slot(None, lexers[0], lexers[0].defaultStyle)]
    else
      var prev := Layout(lexers[..|lexers| - 1]);
      var l := lexers[|lexers| - 1];
      prev + [Slot(Some(0), l, l.defaultStyle)] + StyleSlots(|prev|, l, StyleIds(l))
  }

  /**
   * The first lexer's node is the single node under the root; every other
   * node has a parent before it, and lexer nodes hang under the first node.
   */
  lemma {:induction false} LayoutSingleTop(lexers: seq<Lexer>)
    requires |lexers| > 0
    ensures Layout(lexers)[0] == Slot(None, lexers[0], lexers[0].defaultStyle)
    ensures forall i :: 0 < i < |Layout(lexers)| ==>
      Layout(lexers)[i].parent.Some? && Layout(lexers)[i].parent.value < i
    decreases |lexers|
  {
    if |lexers| > 1 {
      var init := lexers[..|lexers| - 1];
      LayoutSingleTop(init);
      assert init[0] == lexers[0];
    }
  }

  lemma SetValueTwice(x: StyleNode, p: StyleProperty, v: Variant)
    ensures SetValue(SetValue(x, p, v), p, v) == SetValue(x, p, v)
  {
  }

  lemma ValuesOnlyTrans(a: seq<StyleNode>, b: seq<StyleNode>, c: seq<StyleNode>)
    requires ValuesOnly(a, b) && ValuesOnly(b, c)
    ensures ValuesOnly(a, c)
  {
    forall i | 0 <= i < |a| ensures SameExceptValues(a[i], c[i]) {
      assert SameExceptValues(a[i], b[i]) && SameExceptValues(b[i], c[i]);
    }
  }

  lemma ValuesOnlyStructure(a: seq<StyleNode>, b: seq<StyleNode>)
    requires ValuesOnly(a, b)
    ensures StructureOnly(a, b)
  {
    forall i | 0 <= i < |a| ensures SameStructure(a[i], b[i]) {
      assert SameExceptValues(a[i], b[i]);
    }
  }

  lemma StructureKeepsSkeleton(a: seq<StyleNode>, b: seq<StyleNode>)
    requires StructureOnly(a, b)
    ensures Skeleton(a) == Skeleton(b)
  {
    forall i | 0 <= i < |a| ensures Skeleton(a)[i] == Skeleton(b)[i] {
      assert SameStructure(a[i], b[i]);
    }
  }

  /** Loop step of inheritProperty: reaching through one more child. */
  lemma ChildStep(n0: seq<StyleNode>, cur: seq<StyleNode>, a: nat, p: StyleProperty, v: Variant, i: nat)
    requires Valid(n0) && a < |n0| && i < |n0[a].children| && ValuesOnly(n0, cur)
    ensures forall m :: ReachedBefore(n0, m, n0[a].children, i + 1, p) <==>
      ReachedBefore(n0, m, n0[a].children, i, p) || Reached(n0, m, n0[a].children[i], p)
    ensures n0[a].children[i] < |cur|
    ensures Prop(cur[n0[a].children[i]], p).inherited == Prop(n0[n0[a].children[i]], p).inherited
  {
    assert WellFormed(n0, a);
    var c := n0[a].children[i];
    assert SameExceptValues(n0[c], cur[c]);
    assert WellFormed(n0, c);
  }

  /** Loop step of inheritProperty: the inheriting child takes the value. */
  lemma ChildValueSet(n0: seq<StyleNode>, cur: seq<StyleNode>, next: seq<StyleNode>, a: nat, p: StyleProperty, v: Variant, i: nat)
    requires Valid(n0) && a < |n0| && i < |n0[a].children| && ValuesOnly(n0, cur)
    requires n0[a].children[i] < |cur|
    requires next == cur[n0[a].children[i] := SetValue(cur[n0[a].children[i]], p, v)]
    ensures Valid(next) && ValuesOnly(n0, next)
    ensures a < n0[a].children[i] < |next|
  {
    var c := n0[a].children[i];
    assert WellFormed(n0, a);
    assert WellFormed(n0, c) && SameExceptValues(n0[c], cur[c]);
    SetPropStructure(cur[c], p, Prop(cur[c], p).(value := v));
    assert ValuesOnly(cur, next);
    ValuesOnlyTrans(n0, cur, next);
    ValuesOnlyStructure(n0, next);
    ValidStructure(n0, next);
  }

  /** Loop step of inheritProperty: the recursion covers the child's inheriting subtree. */
  lemma ChildSubtreeSet(n0: seq<StyleNode>, cur: seq<StyleNode>, next: seq<StyleNode>, a: nat, p: StyleProperty, v: Variant, i: nat)
    requires Valid(n0) && a < |n0| && i < |n0[a].children| && ValuesOnly(n0, cur)
    requires n0[a].children[i] < |cur| && Prop(n0[n0[a].children[i]], p).inherited
    requires next == cur[n0[a].children[i] := SetValue(cur[n0[a].children[i]], p, v)]
    requires Valid(next) && ValuesOnly(n0, next)
    requires forall m :: 0 <= m < |n0| ==>
      cur[m] == if ReachedBefore(n0, m, n0[a].children, i, p) then SetValue(n0[m], p, v) else n0[m]
    requires forall m :: ReachedBefore(n0, m, n0[a].children, i + 1, p) <==>
      ReachedBefore(n0, m, n0[a].children, i, p) || Reached(n0, m, n0[a].children[i], p)
    ensures var r := Propagate(next, n0[a].children[i], p, v);
      && Valid(r) && ValuesOnly(n0, r)
      && forall m :: 0 <= m < |n0| ==>
           r[m] == if ReachedBefore(n0, m, n0[a].children, i + 1, p) then SetValue(n0[m], p, v) else n0[m]
  {
    var c := n0[a].children[i];
    var r := Propagate(next, c, p, v);
    PropagateValuesOnly(next, c, p, v);
    ValuesOnlyTrans(n0, next, r);
    forall m | 0 <= m < |n0|
      ensures r[m] == if ReachedBefore(n0, m, n0[a].children, i + 1, p) then SetValue(n0[m], p, v) else n0[m]
    {
      InheritsValuesOnly(n0, next, m, c, p);
      SetValueTwice(n0[m], p, v);
      if m == c || Inherits(n0, m, c, p) {
        assert Reached(n0, m, c, p);
        SetValueTwice(SetValue(n0[m], p, v), p, v);
      }
    }
  }

  /** The arena with a new leaf style appended under `parent`. */
  function AppendNode(nodes: seq<StyleNode>, parent: Option<nat>, lexer: Lexer, style: int): seq<StyleNode>
    requires parent.Some? ==> parent.value < |nodes|
  {
    var linked := if parent.Some? then
      nodes[parent.value := nodes[parent.value].(children := nodes[parent.value].children + [|nodes|])]
    else nodes;
    linked + [StyleNode(parent, [], lexer, style, InitialProps())]
  }

  /** Appending a leaf keeps the tree valid and consistent and extends its skeleton. */
  lemma AppendNodeSpec(nodes: seq<StyleNode>, parent: Option<nat>, lexer: Lexer, style: int)
    requires Valid(nodes) && InheritConsistent(nodes)
    requires parent.Some? ==> parent.value < |nodes|
    ensures var r := AppendNode(nodes, parent, lexer, style);
      && Valid(r) && InheritConsistent(r)
      && Skeleton(r) == Skeleton(nodes) + [Slot(parent, lexer, style)]
  {
    var r := AppendNode(nodes, parent, lexer, style);
    var n := |nodes|;
    AppendNodeValid(nodes, parent, lexer, style);
    forall m, q | 0 <= m < |r| && Prop(r[m], q).inherited
      ensures r[m].parent.Some? && r[m].parent.value < m && Prop(r[m], q).value == Prop(r[r[m].parent.value], q).value
    {
      assert m < n;
      assert Prop(r[m], q) == Prop(nodes[m], q);
      assert Prop(r[nodes[m].parent.value], q) == Prop(nodes[nodes[m].parent.value], q);
    }
    assert Skeleton(r) == Skeleton(nodes) + [Slot(parent, lexer, style)];
  }

  /** Appending a node keeps the tree valid. */
  lemma AppendNodeValid(nodes: seq<StyleNode>, parent: Option<nat>, lexer: Lexer, style: int)
    requires Valid(nodes)
    requires parent.Some? ==> parent.value < |nodes|
    ensures Valid(AppendNode(nodes, parent, lexer, style))
  {
    var r := AppendNode(nodes, parent, lexer, style);
    var n := |nodes|;
    forall i | 0 <= i < |r| ensures WellFormed(r, i) {
      if i < n {
        assert WellFormed(nodes, i);
        if r[i].parent.Some? {
          var q := r[i].parent.value;
          assert i in nodes[q].children;
          assert i in r[q].children;
        }
        forall k | 0 <= k < |r[i].children|
          ensures i < r[i].children[k] < |r| && r[r[i].children[k]].parent == Some(i)
        {
          if k < |nodes[i].children| {
            assert r[i].children[k] == nodes[i].children[k];
          }
        }
      } else {
        assert r[i].children == [];
        if parent.Some? {
          assert r[parent.value].children == nodes[parent.value].children + [n];
          assert n in r[parent.value].children;
        }
      }
    }
  }

  /** The name under which a property is stored in the settings. */
  function SettingName(p: StyleProperty): string
  {
    match p
    case Font => "Font"
    case Foreground => "Foreground"
    case Background => "Background"
  }

  /** The settings key of a property of a style: LEXER\STYLE\PROPERTY. */
  function StyleKey(l: Lexer, style: int, p: StyleProperty): string
  {
    l.name + "\\" + Description(l, style) + "\\" + SettingName(p)
  }

  /** A settings lookup: the stored value, or an invalid value when there is none. */
  function SettingValue(settings: map<string, Variant>, key: string): Variant
  {
    if key in settings then settings[key] else Invalid
  }

  /**
   * The tree after `loadStyle(settings, n)`: each property is set from the
   * settings, with the lexer's own font, colour or paper for the style as
   * the default.
   */
  function LoadedStyle(nodes: seq<StyleNode>, n: nat, settings: map<string, Variant>): seq<StyleNode>
    requires n < |nodes|
  {
    var l := nodes[n].lexer;
    var style := nodes[n].style;
    var withFont := SetPropertyResult(nodes, n, Font, SettingValue(settings, StyleKey(l, style, Font)), FontOf(l, style));
    var withColor := SetPropertyResult(withFont, n, Foreground,
      SettingValue(settings, StyleKey(l, style, Foreground)), ColorOf(l, style));
    SetPropertyResult(withColor, n, Background, SettingValue(settings, StyleKey(l, style, Background)), PaperOf(l, style))
  }

  /** The style model: the arena of style nodes. */
  class LexerStyleModel {
    var nodes: seq<StyleNode>

    /**
     * Builds the tree from the lexers (the first being the common-defaults
     * lexer) and loads every style from the settings. The result is a valid
     * tree laid out as Layout says, in which every inherited property holds
     * its parent's value.
     */
    constructor (lexers: seq<Lexer>, settings: map<string, Variant>)
      ensures Valid(nodes) && InheritConsistent(nodes)
      ensures Skeleton(nodes) == Layout(lexers)
    {
      nodes := [];
      new;
      var defNode: Option<nat> := None;
      var k := 0;
      while k < |lexers|
        invariant 0 <= k <= |lexers|
        invariant defNode.Some? <==> k > 0
        invariant defNode.Some? ==> defNode.value == 0
        invariant Valid(nodes) && InheritConsistent(nodes)
        invariant Skeleton(nodes) == Layout(lexers[..k])
      {
        var lexer := lexers[k];
        assert lexers[..k + 1][..k] == lexers[..k];
        if defNode.None? {
          var top := CreateStyleNode(None, lexer, lexer.defaultStyle);
          LoadStyle(settings, top);
          defNode := Some(top);
        } else {
          var lexNode := CreateStyleNode(defNode, lexer, lexer.defaultStyle);
          LoadStyle(settings, lexNode);
          CreateStyleNodes(lexer, lexNode, settings);
        }
        k := k + 1;
      }
      assert lexers[..|lexers|] == lexers;
    }

    /**
     * The constructor's per-style loop for one lexer: a node under the lexer
     * node for every described style other than the default, loaded from the
     * settings.
     */
    method CreateStyleNodes(lexer: Lexer, lexNode: nat, settings: map<string, Variant>)
      requires Valid(nodes) && InheritConsistent(nodes) && lexNode < |nodes|
      modifies this
      ensures Valid(nodes) && InheritConsistent(nodes)
      ensures Skeleton(nodes) == Skeleton(old(nodes)) + StyleSlots(lexNode, lexer, StyleIds(lexer))
    {
      ghost var prev := Skeleton(nodes);
      assert StyleSlots(lexNode, lexer, StyleIdsBelow(lexer, 0)) == [];
      var i := 0;
      while Description(lexer, i) != ""
        invariant Valid(nodes) && InheritConsistent(nodes) && lexNode < |nodes|
        invariant Skeleton(nodes) == prev + StyleSlots(lexNode, lexer, StyleIdsBelow(lexer, i))
        invariant forall j :: 0 <= j < i ==> Description(lexer, j) != ""
        decreases |lexer.descriptions| - i
      {
        StyleSlotsStep(lexNode, lexer, i);
        if i != lexer.defaultStyle {
          AddStyleNode(lexNode, lexer, i, settings);
        }
        i := i + 1;
      }
      FirstUndescribedIs(lexer, 0, i);
    }

    /** One step of createStyleNodes: a style node under the lexer node, loaded from the settings. */
    method AddStyleNode(lexNode: nat, lexer: Lexer, style: int, settings: map<string, Variant>)
      requires Valid(nodes) && InheritConsistent(nodes) && lexNode < |nodes|
      modifies this
      ensures Valid(nodes) && InheritConsistent(nodes) && lexNode < |nodes|
      ensures Skeleton(nodes) == Skeleton(old(nodes)) + [Slot(Some(lexNode), lexer, style)]
    {
      var styleNode := CreateStyleNode(Some(lexNode), lexer, style);
      LoadStyle(settings, styleNode);
    }

    /**
     * createStyleNode: appends a style node with one unset property node per
     * property, in order, as the last child of its parent (or under the root).
     */
    method CreateStyleNode(parent: Option<nat>, lexer: Lexer, style: int) returns (n: nat)
      requires Valid(nodes) && InheritConsistent(nodes)
      requires parent.Some? ==> parent.value < |nodes|
      modifies this
      ensures n == |old(nodes)| && |nodes| == n + 1
      ensures nodes[n] == StyleNode(parent, [], lexer, style, InitialProps())
      ensures parent.Some? ==> nodes[parent.value].children == old(nodes)[parent.value].children + [n]
      ensures Valid(nodes) && InheritConsistent(nodes)
      ensures Skeleton(nodes) == Skeleton(old(nodes)) + [Slot(parent, lexer, style)]
    {
      var props: seq<PropertyData> := [];
      var i := 0;
      while i != LastProperty
        invariant 0 <= i <= LastProperty
        invariant props == InitialProps()[..i]
      {
        props := props + [PropertyData(PropertyAt(i), Invalid, false)];
        i := i + 1;
      }
      assert props == InitialProps();
      ghost var before := nodes;
      n := |nodes|;
      if parent.Some? {
        nodes := nodes[parent.value := nodes[parent.value].(children := nodes[parent.value].children + [n])];
      }
      nodes := nodes + [StyleNode(parent, [], lexer, style, props)];
      assert nodes == AppendNode(before, parent, lexer, style);
      AppendNodeSpec(before, parent, lexer, style);
    }

    /** loadStyle: sets the three properties of style `n` from the settings. */
    method LoadStyle(settings: map<string, Variant>, n: nat)
      requires Valid(nodes) && n < |nodes|
      modifies this
      ensures nodes == LoadedStyle(old(nodes), n, settings)
      ensures Valid(nodes) && Skeleton(nodes) == Skeleton(old(nodes))
      ensures old(nodes)[n].children == [] && InheritConsistent(old(nodes)) ==> InheritConsistent(nodes)
    {
      var lexer := nodes[n].lexer;
      var style := nodes[n].style;
      ghost var n0 := nodes;
      SetPropertyStructure(nodes, n, Font, SettingValue(settings, StyleKey(lexer, style, Font)), FontOf(lexer, style));
      if n0[n].children == [] && InheritConsistent(n0) {
        SetPropertyOnLeafKeepsConsistent(nodes, n, Font, SettingValue(settings, StyleKey(lexer, style, Font)), FontOf(lexer, style));
      }
      SetProperty(SettingValue(settings, StyleKey(lexer, style, Font)), n, Font, FontOf(lexer, style));
      ghost var n1 := nodes;
      SetPropertyStructure(nodes, n, Foreground,
        SettingValue(settings, StyleKey(lexer, style, Foreground)), ColorOf(lexer, style));
      if n0[n].children == [] && InheritConsistent(n0) {
        SetPropertyOnLeafKeepsConsistent(nodes, n, Foreground,
          SettingValue(settings, StyleKey(lexer, style, Foreground)), ColorOf(lexer, style));
      }
      SetProperty(SettingValue(settings, StyleKey(lexer, style, Foreground)), n, Foreground, ColorOf(lexer, style));
      ghost var n2 := nodes;
      SetPropertyStructure(nodes, n, Background,
        SettingValue(settings, StyleKey(lexer, style, Background)), PaperOf(lexer, style));
      if n0[n].children == [] && InheritConsistent(n0) {
        SetPropertyOnLeafKeepsConsistent(nodes, n, Background,
          SettingValue(settings, StyleKey(lexer, style, Background)), PaperOf(lexer, style));
      }
      SetProperty(SettingValue(settings, StyleKey(lexer, style, Background)), n, Background, PaperOf(lexer, style));
      StructureKeepsSkeleton(n0, n1);
      StructureKeepsSkeleton(n1, n2);
      StructureKeepsSkeleton(n2, nodes);
    }

    /** setProperty: assigns property `p` of style `n` as Assigned says. */
    method SetProperty(val: Variant, n: nat, p: StyleProperty, defVal: Variant)
      requires Valid(nodes) && n < |nodes|
      modifies this
      ensures nodes == SetPropertyResult(old(nodes), n, p, val, defVal)
    {
      assert WellFormed(nodes, n);
      ghost var target := Assigned(nodes, n, p, val, defVal);
      var data := Prop(nodes[n], p);
      if TypeOf(val) == PropertyType(p) {
        data := data.(value := val, inherited := false);
        assert data == target;
        nodes := nodes[n := SetProp(nodes[n], p, data)];
        return;
      }
      if nodes[n].parent.None? {
        if TypeOf(defVal) == PropertyType(p) {
          data := data.(value := defVal);
        }
        data := data.(inherited := false);
        assert data == target;
        nodes := nodes[n := SetProp(nodes[n], p, data)];
        return;
      }
      var parentValue := Prop(nodes[nodes[n].parent.value], p).value;
      if val != InheritMarker {
        if TypeOf(defVal) == PropertyType(p) && parentValue != defVal {
          data := data.(value := defVal, inherited := false);
          assert data == target;
          nodes := nodes[n := SetProp(nodes[n], p, data)];
          return;
        }
      }
      data := data.(value := parentValue, inherited := true);
      assert data == target;
      nodes := nodes[n := SetProp(nodes[n], p, data)];
    }

    /**
     * inheritProperty: gives value `v` to every child of `a` that inherits
     * property `p`, and recursively to the inheriting styles below it.
     */
    method InheritProperty(v: Variant, a: nat, p: StyleProperty)
      requires Valid(nodes) && a < |nodes|
      modifies this
      ensures nodes == Propagate(old(nodes), a, p, v)
      decreases |nodes| - a
    {
      ghost var n0 := nodes;
      var children := nodes[a].children;
      assert WellFormed(nodes, a);
      var i := 0;
      while i < |children|
        invariant 0 <= i <= |children|
        invariant Valid(nodes) && ValuesOnly(n0, nodes)
        invariant forall m :: 0 <= m < |n0| ==>
          nodes[m] == if ReachedBefore(n0, m, children, i, p) then SetValue(n0[m], p, v) else n0[m]
      {
        var child := children[i];
        ChildStep(n0, nodes, a, p, v, i);
        if Prop(nodes[child], p).inherited {
          ghost var mid := nodes;
          nodes := nodes[child := SetValue(nodes[child], p, v)];
          ChildValueSet(n0, mid, nodes, a, p, v, i);
          ghost var next := nodes;
          InheritProperty(v, child, p);
          ChildSubtreeSet(n0, mid, next, a, p, v, i);
        }
        i := i + 1;
      }
      forall m | 0 <= m < |n0|
        ensures ReachedBefore(n0, m, children, |children|, p) == Inherits(n0, m, a, p)
      {
        InheritsViaChild(n0, m, a, p);
      }
    }

    /**
     * setData: only the property nodes accept edits, and only under the edit
     * role. The property is assigned, and its resulting value is pushed to
     * the styles that inherit it.
     */
    method SetData(ref: NodeRef, value: Variant, role: int) returns (ok: bool)
      requires Valid(nodes)
      modifies this
      ensures ok <==> ref.PropertyRef? && ref.node < |old(nodes)| && role == EditRole
      ensures nodes == if ok then SetDataResult(old(nodes), ref.node, ref.prop, value) else old(nodes)
    {
      var isNull := ref.NoNode? || ((ref.StyleRef? || ref.PropertyRootRef? || ref.PropertyRef?) && ref.node >= |nodes|);
      var hasData := ref.StyleRef? || ref.PropertyRef?;
      if isNull || !hasData || LogicalNot(NodeTypeOrdinal(ref)) == PropertyNodeOrdinal {
        return false;
      }
      if role != EditRole {
        return false;
      }
      var styleNode := ref.node;
      SetProperty(value, styleNode, ref.prop, Invalid);
      SetPropertyStructure(old(nodes), styleNode, ref.prop, value, Invalid);
      InheritProperty(Prop(nodes[styleNode], ref.prop).value, styleNode, ref.prop);
      return true;
    }
  }

  /** The node-type ordinals: style data first, then property data. */
  const StyleNodeOrdinal: int := 0
  const PropertyNodeOrdinal: int := 1

  function NodeTypeOrdinal(ref: NodeRef): int
  {
    if ref.PropertyRef? then PropertyNodeOrdinal else StyleNodeOrdinal
  }

  /** C++ logical negation of an integer, as an integer. */
  function LogicalNot(x: int): int
  {
    if x == 0 then 1 else 0
  }
}
