/**
 * The attribute records that operation results and hints are made of, and the
 * attribute resource (an operation's "specification") that stores them.
 *
 * Only what the modelled core touches is represented: integer, void, string and
 * reference items looked up by name, the association item, creation of an
 * attribute from a definition and removal of an attribute from its resource.
 */
module Attributes {
  import opened Common

  /** An integer item: its value and whether the (optional) item is enabled. */
  datatype IntItem = IntItem(value: int, enabled: bool)

  /** A string item: its values, bounded by maxValues when that is positive. */
  datatype StringItem = StringItem(values: seq<string>, maxValues: nat)

  /** A reference item: the referenced objects in order, bounded by maxValues when positive. */
  datatype RefItem = RefItem(values: seq<Id>, maxValues: nat)

  /**
   * An attribute definition: the items an instance starts with (integer items
   * with their initial state, void items with their initial enabled flag, string
   * and reference items with their capacities) and the association rule, if any.
   */
  datatype Definition = Definition(
    ints: map<string, IntItem>,
    voids: map<string, bool>,
    strings: map<string, nat>,
    refs: map<string, nat>,
    associations: Option<nat>)

  /** An attribute instance; associations is None when its definition has no association rule. */
  datatype Attribute = Attribute(
    typeName: string,
    ints: map<string, IntItem>,
    voids: map<string, bool>,
    strings: map<string, StringItem>,
    refs: map<string, RefItem>,
    associations: Option<RefItem>)

  /** A new instance of definition d: every item present, every list item empty. */
  function Instantiate(typeName: string, d: Definition): (a: Attribute)
    ensures a.typeName == typeName
    ensures a.ints == d.ints && a.voids == d.voids
    ensures a.strings.Keys == d.strings.Keys && a.refs.Keys == d.refs.Keys
    ensures forall n :: n in a.strings ==> a.strings[n] == StringItem([], d.strings[n])
    ensures forall n :: n in a.refs ==> a.refs[n] == RefItem([], d.refs[n])
    ensures a.associations.Some? <==> d.associations.Some?
    ensures a.associations.Some? ==> a.associations.value == RefItem([], d.associations.value)
  {
    Attribute(typeName, d.ints, d.voids,
      map n | n in d.strings :: StringItem([], d.strings[n]),
      map n | n in d.refs :: RefItem([], d.refs[n]),
      if d.associations.Some? then Some(RefItem([], d.associations.value)) else None)
  }

  /** Whether a reference item can take one more value. */
  predicate HasRoom(item: RefItem)
  {
    item.maxValues == 0 || |item.values| < item.maxValues
  }

  /** ReferenceItem::appendValue: fails, leaving the item alone, when the item is full. */
  function AppendRef(item: RefItem, x: Id): (r: (bool, RefItem))
    ensures r.0 == HasRoom(item)
    ensures r.1.maxValues == item.maxValues
    ensures r.1.values == if r.0 then item.values + [x] else item.values
  {
    if HasRoom(item) then (true, item.(values := item.values + [x])) else (false, item)
  }

  /** StringItem::setValues: fails, leaving the item alone, when there are too many values. */
  function SetStrings(item: StringItem, vs: seq<string>): (r: (bool, StringItem))
    ensures r.0 == (item.maxValues == 0 || |vs| <= item.maxValues)
    ensures r.1 == if r.0 then item.(values := vs) else item
  {
    if item.maxValues == 0 || |vs| <= item.maxValues then (true, item.(values := vs)) else (false, item)
  }

  /** StringItem::appendValue: fails, leaving the item alone, when the item is full. */
  function AppendString(item: StringItem, v: string): (r: (bool, StringItem))
    ensures r.0 == (item.maxValues == 0 || |item.values| < item.maxValues)
    ensures r.1.maxValues == item.maxValues
    ensures r.1.values == if r.0 then item.values + [v] else item.values
  {
    if item.maxValues == 0 || |item.values| < item.maxValues then (true, item.(values := item.values + [v]))
    else (false, item)
  }

  /** The attributes of a resource, keyed by identity, and the next identity to hand out. */
  datatype Store = Store(attributes: map<Id, Attribute>, nextId: Id)

  /** Every stored identity was handed out before nextId. */
  ghost predicate FreshIds(s: Store)
  {
    forall id :: id in s.attributes ==> id < s.nextId
  }

  /** Resource::createAttribute(type): a fresh instance, or nothing when the type is not defined. */
  function Create(defs: map<string, Definition>, s: Store, typeName: string): (r: (Option<Id>, Store))
    ensures typeName !in defs ==> r == (None, s)
    ensures typeName in defs ==> r.0 == Some(s.nextId) && r.1.nextId == s.nextId + 1
    ensures typeName in defs ==>
      r.1.attributes == s.attributes[s.nextId := Instantiate(typeName, defs[typeName])]
    ensures FreshIds(s) ==> FreshIds(r.1) && (r.0.Some? ==> r.0.value !in s.attributes)
  {
    if typeName in defs then
      (Some(s.nextId), Store(s.attributes[s.nextId := Instantiate(typeName, defs[typeName])], s.nextId + 1))
    else
      (None, s)
  }

  /** Resource::removeAttribute: true exactly when the attribute was there. */
  function Remove(s: Store, id: Id): (r: (bool, Store))
    ensures r.0 == (id in s.attributes)
    ensures r.1.attributes == s.attributes - {id} && r.1.nextId == s.nextId
    ensures FreshIds(s) ==> FreshIds(r.1)
  {
    (id in s.attributes, s.(attributes := s.attributes - {id}))
  }

  /** Replace the stored record of an existing attribute. */
  function Put(s: Store, id: Id, a: Attribute): (r: Store)
    requires id in s.attributes
    ensures r.attributes == s.attributes[id := a] && r.nextId == s.nextId
    ensures r.attributes.Keys == s.attributes.Keys
    ensures FreshIds(s) ==> FreshIds(r)
  {
    s.(attributes := s.attributes[id := a])
  }

  /** Replacing a record that was just stored is the same as storing the replacement in the first place. */
  lemma PutOverrides(attributes: map<Id, Attribute>, nextId: Id, id: Id, a: Attribute, b: Attribute)
    ensures Put(Store(attributes[id := a], nextId), id, b) == Store(attributes[id := b], nextId)
  {
    assert attributes[id := a][id := b] == attributes[id := b];
  }

  /**
   * An attribute resource. Its definitions are fixed once read; its attributes
   * change in place. resultDefinitionOf and parametersOf stand for the lookups
   * an operation makes in its specification by its unique name.
   */
  class AttributeResource {
    const definitions: map<string, Definition>
    const resultDefinitionOf: map<string, string>
    const parametersOf: map<string, Id>
    var store: Store

    constructor (definitions: map<string, Definition>, resultDefinitionOf: map<string, string>,
                 parametersOf: map<string, Id>, store: Store)
      ensures this.definitions == definitions && this.resultDefinitionOf == resultDefinitionOf
      ensures this.parametersOf == parametersOf && this.store == store
    {
      this.definitions := definitions;
      this.resultDefinitionOf := resultDefinitionOf;
      this.parametersOf := parametersOf;
      this.store := store;
    }

    method CreateAttribute(typeName: string) returns (id: Option<Id>)
      modifies this
      ensures (id, store) == Create(definitions, old(store), typeName)
    {
      id, store := Create(definitions, store, typeName).0, Create(definitions, store, typeName).1;
    }

    method RemoveAttribute(id: Id) returns (removed: bool)
      modifies this
      ensures (removed, store) == Remove(old(store), id)
    {
      removed, store := Remove(store, id).0, Remove(store, id).1;
    }

    method PutAttribute(id: Id, a: Attribute)
      requires id in store.attributes
      modifies this
      ensures store == Put(old(store), id, a)
    {
      store := Put(store, id, a);
    }
  }
}
