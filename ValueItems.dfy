/**
 * Per-element bookkeeping of a value item (smtk/attribute/ValueItem.cxx):
 * the isSet flags, the discrete indices, the expression children and the list
 * of active conditional children that the first discrete index selects.
 */
module ValueItems {
  import opened Common

  /**
   * What a value item reads from its ValueItemDefinition. validExpressions
   * stands for isValidExpression; discreteEnums are the enumerant labels by
   * index; conditionalItems maps a label to the names of the child items it
   * activates; childItems names the children buildChildrenItems creates.
   */
  datatype ValueItemDefinition = ValueItemDefinition(
    numberOfRequiredValues: nat,
    hasDefault: bool,
    isDiscrete: bool,
    defaultDiscreteIndex: int,
    allowsExpressions: bool,
    validExpressions: set<Id>,
    discreteEnums: seq<string>,
    conditionalItems: map<string, seq<string>>,
    childItems: set<string>)

  /** The definition handed to setDefinition: a value-item definition or one of another kind. */
  datatype ItemDefinition = ValueDefinition(def: ValueItemDefinition) | OtherDefinition

  /**
   * One slot of the expression vector: Unbuilt is the null pointer a resize
   * leaves behind; an Expression is a reference item whose target attribute may
   * be missing and which remembers whether it is still attached to its owner.
   */
  datatype ExpressionSlot = Unbuilt | Expression(target: Option<Id>, attached: bool)

  /** What buildExpressionItem puts in a slot: an attached reference with no target. */
  const NewExpression: ExpressionSlot := Expression(None, true)

  predicate IsDiscreteIndexValid(d: ValueItemDefinition, index: int)
  {
    0 <= index < |d.discreteEnums|
  }

  /** isValidExpression: a null attribute is never a valid expression. */
  predicate IsValidExpression(d: ValueItemDefinition, exp: Option<Id>)
  {
    exp.Some? && exp.value in d.validExpressions
  }

  /** ValueItemDefinition::conditionalItems: the names registered for a label, or none. */
  function ConditionalItemsFor(d: ValueItemDefinition, enumLabel: string): seq<string>
  {
    if enumLabel in d.conditionalItems then d.conditionalItems[enumLabel] else []
  }

  /** Looking a name up among the item's children: the child, or null when there is none. */
  function Resolve(name: string, children: set<string>): Option<string>
  {
    if name in children then Some(name) else None
  }

  /** Resolve every name, keeping their order. */
  function ResolveAll(names: seq<string>, children: set<string>): (r: seq<Option<string>>)
    ensures |r| == |names|
    ensures forall k :: 0 <= k < |r| ==> r[k] == Resolve(names[k], children)
  {
    if names == [] then [] else [Resolve(names[0], children)] + ResolveAll(names[1..], children)
  }

  /**
   * The active children a discrete item has when its first element holds index:
   * none for an invalid index, otherwise the conditional items registered for
   * that enumerant's label, in declaration order, and nothing else.
   */
  function ActiveChildren(d: ValueItemDefinition, children: set<string>, index: int): (r: seq<Option<string>>)
    ensures !IsDiscreteIndexValid(d, index) ==> r == []
    ensures IsDiscreteIndexValid(d, index) ==>
      var names := ConditionalItemsFor(d, d.discreteEnums[index]);
      |r| == |names| && forall k :: 0 <= k < |r| ==> r[k] == Resolve(names[k], children)
  {
    if IsDiscreteIndexValid(d, index) then
      ResolveAll(ConditionalItemsFor(d, d.discreteEnums[index]), children)
    else
      []
  }

  /**
   * A child is active exactly when the selected enumerant registers its name
   * and the item has a child of that name; registered names with no such
   * child leave a null entry, and nothing else is listed.
   */
  lemma ActiveChildrenExactly(d: ValueItemDefinition, children: set<string>, index: int, name: string)
    requires IsDiscreteIndexValid(d, index)
    ensures Some(name) in ActiveChildren(d, children, index) <==>
      name in children && name in ConditionalItemsFor(d, d.discreteEnums[index])
    ensures None in ActiveChildren(d, children, index) <==>
      exists k :: 0 <= k < |ConditionalItemsFor(d, d.discreteEnums[index])| &&
        ConditionalItemsFor(d, d.discreteEnums[index])[k] !in children
  {
    var names := ConditionalItemsFor(d, d.discreteEnums[index]);
    var r := ActiveChildren(d, children, index);
    if name in children && name in names {
      var k :| 0 <= k < |names| && names[k] == name;
      assert r[k] == Some(name);
    }
    if Some(name) in r {
      var k :| 0 <= k < |r| && r[k] == Some(name);
      assert names[k] == name;
    }
    if exists k :: 0 <= k < |names| && names[k] !in children {
      var k :| 0 <= k < |names| && names[k] !in children;
      assert r[k] == None;
    }
  }

  /**
   * A two-unit example: with enumerants "mm" and "cm", where "cm" registers
   * the children "cmSize" and "cmTolerance" but only "cmSize" exists, choosing
   * index 1 activates "cmSize" and leaves a null entry for the missing one,
   * and an index past the enumerants activates nothing.
   */
  lemma UnitsExample()
    ensures var d := ValueItemDefinition(1, true, true, 0, false, {}, ["mm", "cm"],
                                         map["mm" := ["mmSize"], "cm" := ["cmSize", "cmTolerance"]],
                                         {"mmSize", "cmSize"});
      && ActiveChildren(d, d.childItems, 0) == [Some("mmSize")]
      && ActiveChildren(d, d.childItems, 1) == [Some("cmSize"), None]
      && ActiveChildren(d, d.childItems, 2) == []
  {
    var d := ValueItemDefinition(1, true, true, 0, false, {}, ["mm", "cm"],
                                 map["mm" := ["mmSize"], "cm" := ["cmSize", "cmTolerance"]],
                                 {"mmSize", "cmSize"});
    assert ConditionalItemsFor(d, d.discreteEnums[1]) == ["cmSize", "cmTolerance"];
    assert "cmTolerance" !in d.childItems;
  }

  /** std::vector::resize(n, fill): keep the first n elements, pad with fill. */
  function Resize<T>(s: seq<T>, n: nat, fill: T): (r: seq<T>)
    ensures |r| == n
    ensures forall k :: 0 <= k < n ==> r[k] == if k < |s| then s[k] else fill
  {
    if n <= |s| then s[..n] else s + seq(n - |s|, _ => fill)
  }

  class ValueItem {
    var definition: Option<ValueItemDefinition>
    var isSetFlags: seq<bool>
    var discreteIndices: seq<int>
    var expressions: seq<ExpressionSlot>
    var childrenItems: set<string>
    var activeChildrenItems: seq<Option<string>>

    /**
     * The item invariant. Unbound: everything empty. Bound: a fixed-size item
     * has one flag (and one discrete index) per required value; expression
     * slots run parallel to the flags exactly when expressions are allowed, all
     * built and attached; an element with an expression is set and its target
     * is a valid expression; and the active children are those selected by the
     * first discrete index, with no stale entry.
     */
    ghost predicate Valid()
      reads this
    {
      match definition
      case None =>
        isSetFlags == [] && discreteIndices == [] && expressions == [] &&
        childrenItems == {} && activeChildrenItems == []
      case Some(d) =>
        && (d.numberOfRequiredValues > 0 ==>
              |isSetFlags| == d.numberOfRequiredValues &&
              (d.isDiscrete ==> |discreteIndices| == d.numberOfRequiredValues))
        && (d.allowsExpressions ==> |expressions| == |isSetFlags|)
        && (!d.allowsExpressions ==> expressions == [])
        && (forall i :: 0 <= i < |expressions| ==>
              expressions[i].Expression? && expressions[i].attached &&
              (expressions[i].target.Some? ==>
                 isSetFlags[i] && IsValidExpression(d, expressions[i].target)))
        && activeChildrenItems ==
             (if d.isDiscrete && |discreteIndices| > 0
              then ActiveChildren(d, childrenItems, discreteIndices[0]) else [])
    }

    /** A new item is bound to nothing and holds no per-element state. */
    constructor ()
      ensures definition == None && Valid()
    {
      definition := None;
      isSetFlags, discreteIndices, expressions := [], [], [];
      childrenItems, activeChildrenItems := {}, [];
    }

    /** Zero required values when no definition is bound. */
    function NumberOfRequiredValues(): (n: nat)
      reads this
      ensures definition.None? ==> n == 0
      ensures definition.Some? ==> n == definition.value.numberOfRequiredValues
    {
      if definition.None? then 0 else definition.value.numberOfRequiredValues
    }

    /** Expressions are never allowed when no definition is bound. */
    predicate AllowsExpressions()
      reads this
      ensures definition.None? ==> !AllowsExpressions()
      ensures definition.Some? ==> (AllowsExpressions() <==> definition.value.allowsExpressions)
    {
      definition.Some? && definition.value.allowsExpressions
    }

    /**
     * Bind the item to vdef. baseBinds is what the base Item::setDefinition
     * answers, which is not part of this model; it is consulted only for a
     * value-item definition.
     */
    method SetDefinition(vdef: ItemDefinition, baseBinds: bool) returns (ok: bool)
      requires Valid()
      modifies this
      ensures ok == (vdef.ValueDefinition? && baseBinds)
      ensures !ok ==> unchanged(this)
      ensures ok ==>
        var d := vdef.def;
        var n := d.numberOfRequiredValues;
        && definition == Some(d)
        && childrenItems == old(childrenItems) + d.childItems
        && isSetFlags == (if n > 0 then Resize(old(isSetFlags), n, d.hasDefault) else old(isSetFlags))
        && discreteIndices ==
             (if n > 0 && d.isDiscrete
              then Resize(old(discreteIndices), n, d.defaultDiscreteIndex) else old(discreteIndices))
        && expressions == (if n > 0 && d.allowsExpressions then seq(n, _ => NewExpression) else old(expressions))
        && activeChildrenItems ==
             (if n > 0 && d.isDiscrete
              then ActiveChildren(d, childrenItems, discreteIndices[0]) else old(activeChildrenItems))
      // Binding an unbound item: every flag is the default's presence, and the invariant holds.
      ensures ok && old(definition).None? ==>
        var d := vdef.def;
        var n := d.numberOfRequiredValues;
        && isSetFlags == seq(n, _ => d.hasDefault)
        && (d.isDiscrete && n > 0 ==>
              && discreteIndices == seq(n, _ => d.defaultDiscreteIndex)
              && activeChildrenItems == ActiveChildren(d, d.childItems, d.defaultDiscreteIndex))
        && Valid()
    {
      if !vdef.ValueDefinition? || !baseBinds {
        return false;
      }
      var d := vdef.def;
      definition := Some(d);
      // buildChildrenItems
      childrenItems := childrenItems + d.childItems;
      var n := d.numberOfRequiredValues;
      if n > 0 {
        isSetFlags := Resize(isSetFlags, n, d.hasDefault);
        if d.isDiscrete {
          discreteIndices := Resize(discreteIndices, n, d.defaultDiscreteIndex);
          UpdateActiveChildrenItems();
        }
        if d.allowsExpressions {
          var slots := Resize(expressions, n, Unbuilt);
          var i := 0;
          while i < n
            invariant 0 <= i <= n && |slots| == n
            invariant forall k :: 0 <= k < i ==> slots[k] == NewExpression
          {
            // buildExpressionItem(this, i)
            slots := slots[i := NewExpression];
            i := i + 1;
          }
          expressions := slots;
        }
      }
      ok := true;
    }

    /** The destructor: every expression child forgets its owning item. */
    method Dispose()
      requires Valid()
      modifies this
      ensures |expressions| == |old(expressions)|
      ensures forall i :: 0 <= i < |expressions| ==>
        expressions[i] == old(expressions[i]).(attached := false)
      ensures definition == old(definition) && isSetFlags == old(isSetFlags)
      ensures discreteIndices == old(discreteIndices) && childrenItems == old(childrenItems)
      ensures activeChildrenItems == old(activeChildrenItems)
    {
      var i, n := 0, |expressions|;
      while i < n
        invariant 0 <= i <= n && |expressions| == n
        invariant forall k :: 0 <= k < i ==> expressions[k] == old(expressions[k]).(attached := false)
        invariant forall k :: i <= k < n ==> expressions[k] == old(expressions[k])
        invariant definition == old(definition) && isSetFlags == old(isSetFlags)
        invariant discreteIndices == old(discreteIndices) && childrenItems == old(childrenItems)
        invariant activeChildrenItems == old(activeChildrenItems)
      {
        expressions := expressions[i := expressions[i].(attached := false)];
        i := i + 1;
      }
    }

    /** The attribute element's expression refers to, or null when expressions are not allowed. */
    function ExpressionOf(element: nat): (r: Option<Id>)
      reads this
      requires Valid() && definition.Some?
      requires definition.value.allowsExpressions ==> element < |expressions|
      ensures !definition.value.allowsExpressions ==> r == None
      ensures r.Some? ==> isSetFlags[element] && IsValidExpression(definition.value, r)
    {
      if definition.value.allowsExpressions then expressions[element].target else None
    }

    /**
     * Let element take its value from the attribute exp, or clear its
     * expression when exp is null.
     */
    method SetExpression(element: nat, exp: Option<Id>) returns (ok: bool)
      requires Valid() && definition.Some?
      requires definition.value.allowsExpressions ==> element < |expressions|
      modifies this
      ensures definition == old(definition) && Valid()
      ensures ok == (definition.value.allowsExpressions && (exp.None? || IsValidExpression(definition.value, exp)))
      ensures !ok ==> unchanged(this)
      // A null expression succeeds; it unsets the element only when an expression was there.
      ensures ok && exp.None? ==>
        if old(expressions[element].target).Some? then
          && isSetFlags == old(isSetFlags)[element := false]
          && expressions == old(expressions)[element := old(expressions[element]).(target := None)]
        else
          isSetFlags == old(isSetFlags) && expressions == old(expressions)
      ensures ok && exp.Some? ==>
        && isSetFlags == old(isSetFlags)[element := true]
        && expressions == old(expressions)[element := old(expressions[element]).(target := exp)]
      ensures discreteIndices == old(discreteIndices)
      ensures childrenItems == old(childrenItems) && activeChildrenItems == old(activeChildrenItems)
    {
      var d := definition.value;
      if d.allowsExpressions {
        if exp.None? {
          if expressions[element].target.Some? {
            isSetFlags := isSetFlags[element := false];
            expressions := expressions[element := expressions[element].(target := None)];
          }
          return true;
        }
        if IsValidExpression(d, exp) {
          isSetFlags := isSetFlags[element := true];
          expressions := expressions[element := expressions[element].(target := exp)];
          return true;
        }
      }
      return false;
    }

    /** Grow an extensible item by one element whose value is the expression exp. */
    method AppendExpression(exp: Option<Id>) returns (ok: bool)
      requires Valid() && definition.Some?
      modifies this
      ensures definition == old(definition) && Valid()
      ensures ok == (definition.value.allowsExpressions && definition.value.numberOfRequiredValues == 0 &&
                     IsValidExpression(definition.value, exp))
      ensures !ok ==> unchanged(this)
      ensures ok ==>
        && expressions == old(expressions) + [Expression(exp, true)]
        && isSetFlags == old(isSetFlags) + [true]
      ensures discreteIndices == old(discreteIndices)
      ensures childrenItems == old(childrenItems) && activeChildrenItems == old(activeChildrenItems)
    {
      var d := definition.value;
      if !d.allowsExpressions {
        return false;
      }
      if d.numberOfRequiredValues != 0 {
        return false;
      }
      if !IsValidExpression(d, exp) {
        return false;
      }
      var n := |expressions|;
      expressions := Resize(expressions, n + 1, Unbuilt);
      expressions := expressions[n := NewExpression];
      expressions := expressions[n := expressions[n].(target := exp)];
      isSetFlags := isSetFlags + [true];
      ok := true;
    }

    /** Whether the bound definition is discrete. */
    predicate IsDiscrete()
      reads this
      requires definition.Some?
    {
      definition.value.isDiscrete
    }

    /**
     * Select enumerant index for element: clears the element's expression, marks
     * it set and recomputes the active children.
     */
    method SetDiscreteIndex(element: nat, index: int) returns (ok: bool)
      requires Valid() && definition.Some?
      requires IsDiscrete() && IsDiscreteIndexValid(definition.value, index) ==>
        element < |discreteIndices| && element < |isSetFlags|
      modifies this
      ensures definition == old(definition) && Valid()
      ensures ok == (definition.value.isDiscrete && IsDiscreteIndexValid(definition.value, index))
      ensures !ok ==> unchanged(this)
      ensures ok ==>
        && discreteIndices == old(discreteIndices)[element := index]
        && isSetFlags == old(isSetFlags)[element := true]
        && expressions ==
             (if definition.value.allowsExpressions
              then old(expressions)[element := old(expressions[element]).(target := None)]
              else old(expressions))
        && activeChildrenItems == ActiveChildren(definition.value, childrenItems, discreteIndices[0])
      ensures childrenItems == old(childrenItems)
    {
      if !IsDiscrete() {
        return false;
      }
      var d := definition.value;
      if IsDiscreteIndexValid(d, index) {
        discreteIndices := discreteIndices[element := index];
        if d.allowsExpressions {
          expressions := expressions[element := expressions[element].(target := None)];
        }
        isSetFlags := isSetFlags[element := true];
        // updateDiscreteValue(element) sets the literal value; values are not part of this model.
        UpdateActiveChildrenItems();
        return true;
      }
      return false;
    }

    /** Rebuild the active children from the first element's discrete index. */
    method UpdateActiveChildrenItems()
      requires definition.Some?
      requires definition.value.isDiscrete ==> |discreteIndices| > 0
      modifies this`activeChildrenItems
      ensures definition.value.isDiscrete ==>
        activeChildrenItems == ActiveChildren(definition.value, childrenItems, discreteIndices[0])
      ensures !definition.value.isDiscrete ==> activeChildrenItems == old(activeChildrenItems)
    {
      if !IsDiscrete() {
        return;
      }
      activeChildrenItems := [];
      var d := definition.value;
      if !IsDiscreteIndexValid(d, discreteIndices[0]) {
        return;
      }
      var citems := ConditionalItemsFor(d, d.discreteEnums[discreteIndices[0]]);
      var i, n := 0, |citems|;
      while i < n
        invariant 0 <= i <= n
        invariant |activeChildrenItems| == i
        invariant forall k :: 0 <= k < i ==> activeChildrenItems[k] == Resolve(citems[k], childrenItems)
      {
        activeChildrenItems := activeChildrenItems + [Resolve(citems[i], childrenItems)];
        i := i + 1;
      }
    }
  }
}
