/**
 * Operation result hints: advisory attributes (select these objects, scroll
 * to them, activate this task) that an operation creates in its specification
 * and lists in its result's "hints" reference item, and the traversals that
 * hand them back to a presentation layer.
 *
 * The add operations change the specification in place and are methods on an
 * AttributeResource, each proved equal to a function on the store. The
 * traversals only read and are functions; their functor is the sequence of
 * answers it gives (see module Visits).
 */
module Hints {
  import opened Common
  import opened Attributes
  import Visits

  const HintsName := "hints"
  const TasksName := "tasks"
  const SelectionHintType := "selection hint"
  const BrowserScrollHintType := "browser scroll hint"
  const BrowserExpandHintType := "browser expand hint"
  const RenderFocusHintType := "render focus hint"
  const ActivateTaskHintType := "activate task hint"

  /** smtk::view::SelectionAction, stored in a hint as its ordinal. */
  datatype SelectionAction =
    | FilteredReplace | UnfilteredReplace | FilteredAdd | UnfilteredAdd
    | FilteredSubtract | UnfilteredSubtract | Default

  function ActionCode(a: SelectionAction): int
  {
    match a
    case FilteredReplace => 0
    case UnfilteredReplace => 1
    case FilteredAdd => 2
    case UnfilteredAdd => 3
    case FilteredSubtract => 4
    case UnfilteredSubtract => 5
    case Default => 6
  }

  /** static_cast<SelectionAction>(code) for the codes that name an enumerator. */
  function ActionOf(code: int): (a: Option<SelectionAction>)
    ensures a.Some? <==> 0 <= code <= 6
    ensures a.Some? ==> ActionCode(a.value) == code
  {
    if code == 0 then Some(FilteredReplace)
    else if code == 1 then Some(UnfilteredReplace)
    else if code == 2 then Some(FilteredAdd)
    else if code == 3 then Some(UnfilteredAdd)
    else if code == 4 then Some(FilteredSubtract)
    else if code == 5 then Some(UnfilteredSubtract)
    else if code == 6 then Some(Default)
    else None
  }

  /** Storing an action and casting it back gives the same action. */
  lemma ActionRoundTrip(a: SelectionAction)
    ensures ActionOf(ActionCode(a)) == Some(a)
  {
  }

  /** What a selection hint carries besides its associations. */
  datatype SelectionSettings = SelectionSettings(action: SelectionAction, value: int, bitwise: bool, ephemeral: bool)

  /** The defaults of addSelectionHint's trailing arguments. */
  const DefaultSelection := SelectionSettings(Default, 1, false, false)

  // ---------------------------------------------------------------------------
  // Filling a reference item

  /** How many of n appends to item succeed before the first that fails. */
  function Room(item: RefItem, n: nat): (k: nat)
    ensures k <= n
  {
    if item.maxValues == 0 then n
    else if |item.values| >= item.maxValues then 0
    else if n <= item.maxValues - |item.values| then n
    else item.maxValues - |item.values|
  }

  /**
   * The association loop: append the values one by one and stop at the first
   * append that fails. It succeeds exactly when everything fits, and the item
   * then holds its old values followed by the prefix that fitted.
   */
  function AppendEach(item: RefItem, xs: seq<Id>): (r: (bool, RefItem))
    ensures r.0 <==> Room(item, |xs|) == |xs|
    ensures r.1.maxValues == item.maxValues
    ensures r.1.values == item.values + xs[..Room(item, |xs|)]
    decreases |xs|
  {
    if xs == [] then (true, item)
    else
      var (appended, item') := AppendRef(item, xs[0]);
      if !appended then (false, item)
      else
        var r := AppendEach(item', xs[1..]);
        assert Room(item', |xs| - 1) + 1 == Room(item, |xs|);
        assert item.values + xs[..Room(item, |xs|)]
            == item'.values + xs[1..][..Room(item', |xs| - 1)];
        r
  }

  /** An empty item of capacity max takes n values exactly when n fits. */
  lemma EmptyItemRoom(max: nat, n: nat)
    ensures Room(RefItem([], max), n) == n <==> (max == 0 || n <= max)
  {
  }

  // ---------------------------------------------------------------------------
  // Attaching a hint to a result

  /** The record a hint holds in s, when it is a live attribute there. */
  predicate IsLive(s: Store, id: Id)
  {
    id in s.attributes
  }

  /** The result's "hints" values in s. */
  function HintList(s: Store, result: Id): seq<Id>
    requires result in s.attributes && HintsName in s.attributes[result].refs
  {
    s.attributes[result].refs[HintsName].values
  }

  /**
   * The common tail of both add operations: the hint is appended to the
   * result's "hints" item whatever happened before (the source combines the
   * flags with a non-short-circuit and), and when anything failed the hint is
   * removed from the resource again.
   */
  function AttachOrDiscard(s: Store, result: Id, hint: Id, ok: bool): (r: (Option<Id>, Store))
    requires result in s.attributes && HintsName in s.attributes[result].refs
    requires hint in s.attributes && hint != result
    ensures var hints := s.attributes[result].refs[HintsName];
            && r.0 == (if ok && HasRoom(hints) then Some(hint) else None)
            && r.1.nextId == s.nextId
            && r.1.attributes.Keys == (if r.0.Some? then s.attributes.Keys else s.attributes.Keys - {hint})
            && r.1.attributes[result] == s.attributes[result].(refs := s.attributes[result].refs[HintsName := AppendRef(hints, hint).1])
            && (forall id :: id in r.1.attributes && id != result ==> r.1.attributes[id] == s.attributes[id])
    ensures FreshIds(s) ==> FreshIds(r.1)
  {
    var rec := s.attributes[result];
    var (appended, hints) := AppendRef(rec.refs[HintsName], hint);
    var s1 := Put(s, result, rec.(refs := rec.refs[HintsName := hints]));
    if ok && appended then (Some(hint), s1) else (None, Remove(s1, hint).1)
  }

  /** What the add operations demand of the result: a live attribute, with a "hints" item once that is used. */
  predicate ResultAccepts(s: Store, result: Option<Id>, reachesHints: bool)
  {
    result.Some? ==> result.value in s.attributes && (reachesHints ==> HintsName in s.attributes[result.value].refs)
  }

  // ---------------------------------------------------------------------------
  // addHintWithAssociations and its wrappers

  /** Whether the hint type's definition makes the association loop run. */
  predicate HasAssociations(defs: map<string, Definition>, hintType: string)
  {
    hintType in defs && defs[hintType].associations.Some?
  }

  /** The hint addHintWithAssociations leaves in the store when it succeeds. */
  function AssociatedHint(defs: map<string, Definition>, hintType: string, associations: seq<Id>): Attribute
    requires HasAssociations(defs, hintType)
  {
    Instantiate(hintType, defs[hintType]).(associations := Some(RefItem(associations, defs[hintType].associations.value)))
  }

  /**
   * addHintWithAssociations on a store: nothing for a null result or an
   * unknown hint type; a hint without associations stays in the store but is
   * not returned; otherwise the associations are appended, the hint is
   * attached, and it is returned unless an append failed.
   */
  function HintWithAssociations(defs: map<string, Definition>, s: Store, result: Option<Id>,
                                associations: seq<Id>, hintType: string): (r: (Option<Id>, Store))
    requires ResultAccepts(s, result, HasAssociations(defs, hintType))
    requires FreshIds(s)
    ensures result.None? || hintType !in defs ==> r == (None, s)
    ensures result.Some? && hintType in defs && !HasAssociations(defs, hintType) ==>
      r == (None, Create(defs, s, hintType).1)
    ensures r.0.Some? <==>
      && result.Some? && HasAssociations(defs, hintType)
      && (defs[hintType].associations.value == 0 || |associations| <= defs[hintType].associations.value)
      && HasRoom(s.attributes[result.value].refs[HintsName])
    ensures r.0.Some? ==>
      && result.Some? && HasAssociations(defs, hintType)
      && r.0 == Some(s.nextId) && s.nextId in r.1.attributes
      && r.1.attributes[s.nextId] == AssociatedHint(defs, hintType, associations)
      && result.value in r.1.attributes && HintsName in r.1.attributes[result.value].refs
      && HintList(r.1, result.value) == HintList(s, result.value) + [s.nextId]
    ensures FreshIds(r.1)
  {
    if result.None? then (None, s)
    else
      var (h, s1) := Create(defs, s, hintType);
      if h.None? then (None, s)
      else
        var rec := s1.attributes[h.value];
        if rec.associations.None? then (None, s1)
        else
          var (ok, item) := AppendEach(rec.associations.value, associations);
          EmptyItemRoom(rec.associations.value.maxValues, |associations|);
          assert ok ==> associations[..Room(rec.associations.value, |associations|)] == associations;
          assert ok ==> item == RefItem(associations, rec.associations.value.maxValues);
          assert rec.(associations := Some(item)) == AssociatedHint(defs, hintType, associations) || !ok;
          var s2 := Put(s1, h.value, rec.(associations := Some(item)));
          AttachOrDiscard(s2, result.value, h.value, ok)
  }

  /**
   * When the hint is created with associations but an append fails, the hint
   * is removed from the store and every other attribute is as it was, except
   * that the result's "hints" item still took the hint's identity if it had
   * room: the list then names an attribute that no longer exists, which the
   * traversals skip.
   */
  lemma FailedHintIsDiscarded(defs: map<string, Definition>, s: Store, result: Option<Id>,
                              associations: seq<Id>, hintType: string)
    requires ResultAccepts(s, result, HasAssociations(defs, hintType)) && FreshIds(s)
    requires result.Some? && HasAssociations(defs, hintType)
    ensures var r := HintWithAssociations(defs, s, result, associations, hintType);
            r.0.None? ==>
              && r.1.nextId == s.nextId + 1
              && r.1.attributes.Keys == s.attributes.Keys
              && (forall id :: id in s.attributes && id != result.value ==> r.1.attributes[id] == s.attributes[id])
              && HintList(r.1, result.value) == AppendRef(s.attributes[result.value].refs[HintsName], s.nextId).1.values
              && !IsLive(r.1, s.nextId)
  {
  }

  /** The store changes only at the new hint and at the result, whatever happens. */
  lemma HintWithAssociationsFrame(defs: map<string, Definition>, s: Store, result: Option<Id>,
                                  associations: seq<Id>, hintType: string, id: Id)
    requires ResultAccepts(s, result, HasAssociations(defs, hintType)) && FreshIds(s)
    requires id in s.attributes && (result.Some? ==> id != result.value)
    ensures var r := HintWithAssociations(defs, s, result, associations, hintType);
            id in r.1.attributes && r.1.attributes[id] == s.attributes[id]
  {
  }

  /** addHintWithAssociations, on the resource that holds the result. */
  method AddHintWithAssociations(spec: AttributeResource, result: Option<Id>, associations: seq<Id>, hintType: string)
    returns (hint: Option<Id>)
    requires ResultAccepts(spec.store, result, HasAssociations(spec.definitions, hintType))
    requires FreshIds(spec.store)
    modifies spec
    ensures (hint, spec.store) == HintWithAssociations(spec.definitions, old(spec.store), result, associations, hintType)
  {
    if result.None? {
      return None;
    }
    var h := spec.CreateAttribute(hintType);
    if h.None? {
      return None;
    }
    var rec := spec.store.attributes[h.value];
    if rec.associations.None? {
      return None;
    }
    var item := rec.associations.value;
    var ok := true;
    var i := 0;
    while i < |associations|
      invariant 0 <= i <= |associations|
      invariant AppendEach(rec.associations.value, associations)
             == if ok then AppendEach(item, associations[i..]) else (false, item)
    {
      assert associations[i..][1..] == associations[i + 1..];
      var appended, item' := AppendRef(item, associations[i]).0, AppendRef(item, associations[i]).1;
      ok := ok && appended;
      item := item';
      i := i + 1;
      if !ok {
        break;
      }
    }
    spec.PutAttribute(h.value, rec.(associations := Some(item)));
    hint := AttachHint(spec, result.value, h.value, ok);
  }

  /** The tail of both add operations, in place. */
  method AttachHint(spec: AttributeResource, result: Id, hint: Id, ok: bool) returns (r: Option<Id>)
    requires result in spec.store.attributes && HintsName in spec.store.attributes[result].refs
    requires hint in spec.store.attributes && hint != result
    modifies spec
    ensures (r, spec.store) == AttachOrDiscard(old(spec.store), result, hint, ok)
  {
    var rec := spec.store.attributes[result];
    var appended, hints := AppendRef(rec.refs[HintsName], hint).0, AppendRef(rec.refs[HintsName], hint).1;
    spec.PutAttribute(result, rec.(refs := rec.refs[HintsName := hints]));
    if ok && appended {
      r := Some(hint);
    } else {
      var _ := spec.RemoveAttribute(hint);
      r := None;
    }
  }

  /** addBrowserScrollHint. */
  method AddBrowserScrollHint(spec: AttributeResource, result: Option<Id>, associations: seq<Id>)
    returns (hint: Option<Id>)
    requires ResultAccepts(spec.store, result, HasAssociations(spec.definitions, BrowserScrollHintType))
    requires FreshIds(spec.store)
    modifies spec
    ensures (hint, spec.store) == HintWithAssociations(spec.definitions, old(spec.store), result, associations, BrowserScrollHintType)
  {
    hint := AddHintWithAssociations(spec, result, associations, BrowserScrollHintType);
  }

  /** addBrowserExpandHint. */
  method AddBrowserExpandHint(spec: AttributeResource, result: Option<Id>, associations: seq<Id>)
    returns (hint: Option<Id>)
    requires ResultAccepts(spec.store, result, HasAssociations(spec.definitions, BrowserExpandHintType))
    requires FreshIds(spec.store)
    modifies spec
    ensures (hint, spec.store) == HintWithAssociations(spec.definitions, old(spec.store), result, associations, BrowserExpandHintType)
  {
    hint := AddHintWithAssociations(spec, result, associations, BrowserExpandHintType);
  }

  /** addRenderFocusHint. */
  method AddRenderFocusHint(spec: AttributeResource, result: Option<Id>, associations: seq<Id>)
    returns (hint: Option<Id>)
    requires ResultAccepts(spec.store, result, HasAssociations(spec.definitions, RenderFocusHintType))
    requires FreshIds(spec.store)
    modifies spec
    ensures (hint, spec.store) == HintWithAssociations(spec.definitions, old(spec.store), result, associations, RenderFocusHintType)
  {
    hint := AddHintWithAssociations(spec, result, associations, RenderFocusHintType);
  }

  // ---------------------------------------------------------------------------
  // addSelectionHint

  /** The items a selection hint's definition must provide for addSelectionHint to fill. */
  predicate HasSelectionItems(a: Attribute)
  {
    "action" in a.ints && "value" in a.ints && "bitwise" in a.voids && "ephemeral" in a.voids
  }

  /** A hint record with its selection items set from the settings. */
  function WithSelection(a: Attribute, x: SelectionSettings): (r: Attribute)
    requires HasSelectionItems(a)
    ensures HasSelectionItems(r) && r.typeName == a.typeName && r.associations == a.associations
    ensures r.strings == a.strings && r.refs == a.refs
    ensures r.ints["action"].value == ActionCode(x.action) && r.ints["value"].value == x.value
    ensures r.voids["bitwise"] == x.bitwise && r.voids["ephemeral"] == x.ephemeral
  {
    a.(ints := a.ints["action" := a.ints["action"].(value := ActionCode(x.action))]
                     ["value" := a.ints["value"].(value := x.value)],
       voids := a.voids["bitwise" := x.bitwise]["ephemeral" := x.ephemeral])
  }

  /** Whether the selection hint definition, if any, has the selection items. */
  predicate SelectionDefinable(defs: map<string, Definition>)
  {
    SelectionHintType in defs ==> HasSelectionItems(Instantiate(SelectionHintType, defs[SelectionHintType]))
  }

  /** addSelectionHint on a store: the base hint, then its selection items set when it was created. */
  function SelectionHint(defs: map<string, Definition>, s: Store, result: Option<Id>,
                         associations: seq<Id>, x: SelectionSettings := DefaultSelection): (r: (Option<Id>, Store))
    requires ResultAccepts(s, result, HasAssociations(defs, SelectionHintType))
    requires FreshIds(s) && SelectionDefinable(defs)
    ensures r.0 == HintWithAssociations(defs, s, result, associations, SelectionHintType).0
    ensures r.0.None? ==> r.1 == HintWithAssociations(defs, s, result, associations, SelectionHintType).1
    ensures r.0.Some? ==>
      && r.1.attributes.Keys == HintWithAssociations(defs, s, result, associations, SelectionHintType).1.attributes.Keys
      && r.1.attributes[r.0.value] == WithSelection(AssociatedHint(defs, SelectionHintType, associations), x)
    ensures FreshIds(r.1)
  {
    var (h, s1) := HintWithAssociations(defs, s, result, associations, SelectionHintType);
    if h.None? then (h, s1)
    else (h, Put(s1, h.value, WithSelection(s1.attributes[h.value], x)))
  }

  /** addSelectionHint, on the resource that holds the result. */
  method AddSelectionHint(spec: AttributeResource, result: Option<Id>, associations: seq<Id>,
                          x: SelectionSettings := DefaultSelection)
    returns (hint: Option<Id>)
    requires ResultAccepts(spec.store, result, HasAssociations(spec.definitions, SelectionHintType))
    requires FreshIds(spec.store) && SelectionDefinable(spec.definitions)
    modifies spec
    ensures (hint, spec.store) == SelectionHint(spec.definitions, old(spec.store), result, associations, x)
  {
    hint := AddHintWithAssociations(spec, result, associations, SelectionHintType);
    if hint.None? {
      return;
    }
    spec.PutAttribute(hint.value, WithSelection(spec.store.attributes[hint.value], x));
  }

  // ---------------------------------------------------------------------------
  // addHintWithTasks and addActivateTaskHint

  /**
   * ReferenceItem::setValue(object): the object takes the first slot. A fresh
   * association item has no slot yet in this model, so one is made for it.
   */
  function SetFirstRef(item: RefItem, x: Id): (r: RefItem)
    ensures |r.values| > 0 && r.values[0] == x && r.maxValues == item.maxValues
    ensures item.values != [] ==> r.values[1..] == item.values[1..]
  {
    if item.values == [] then item.(values := [x]) else item.(values := [x] + item.values[1..])
  }

  /** Whether the hint type's definition has a "tasks" string item. */
  predicate HasTasks(defs: map<string, Definition>, hintType: string)
  {
    hintType in defs && TasksName in defs[hintType].strings
  }

  /** What the task operations demand of the hint type: an association item, which is used unchecked. */
  predicate TaskHintDefinable(defs: map<string, Definition>, hintType: string)
  {
    hintType in defs ==> defs[hintType].associations.Some?
  }

  /** The hint addHintWithTasks leaves in the store when it succeeds. */
  function TaskHint(defs: map<string, Definition>, hintType: string, project: Id, taskIds: seq<string>): Attribute
    requires HasTasks(defs, hintType) && TaskHintDefinable(defs, hintType)
  {
    var a := Instantiate(hintType, defs[hintType]);
    a.(associations := Some(SetFirstRef(a.associations.value, project)),
       strings := a.strings[TasksName := StringItem(taskIds, defs[hintType].strings[TasksName])])
  }

  /**
   * addHintWithTasks on a store: nothing for a null result or an unknown hint
   * type; the project becomes the hint's association; a hint without a "tasks"
   * item stays in the store but is not returned; otherwise the task ids are
   * set, the hint is attached, and it is returned unless either step failed.
   */
  function HintWithTasks(defs: map<string, Definition>, s: Store, result: Option<Id>,
                         project: Id, taskIds: seq<string>, hintType: string): (r: (Option<Id>, Store))
    requires ResultAccepts(s, result, HasTasks(defs, hintType))
    requires FreshIds(s) && TaskHintDefinable(defs, hintType)
    ensures result.None? || hintType !in defs ==> r == (None, s)
    ensures result.Some? && hintType in defs && !HasTasks(defs, hintType) ==>
      r.0.None? && IsLive(r.1, s.nextId) && r.1.nextId == s.nextId + 1
    ensures r.0.Some? <==>
      && result.Some? && HasTasks(defs, hintType)
      && (defs[hintType].strings[TasksName] == 0 || |taskIds| <= defs[hintType].strings[TasksName])
      && HasRoom(s.attributes[result.value].refs[HintsName])
    ensures r.0.Some? ==>
      && result.Some? && HasTasks(defs, hintType)
      && r.0 == Some(s.nextId) && s.nextId in r.1.attributes
      && r.1.attributes[s.nextId] == TaskHint(defs, hintType, project, taskIds)
      && result.value in r.1.attributes && HintsName in r.1.attributes[result.value].refs
      && HintList(r.1, result.value) == HintList(s, result.value) + [s.nextId]
    ensures FreshIds(r.1)
  {
    if result.None? then (None, s)
    else
      var (h, s1) := Create(defs, s, hintType);
      if h.None? then (None, s)
      else
        var rec := s1.attributes[h.value];
        var rec1 := rec.(associations := Some(SetFirstRef(rec.associations.value, project)));
        var s2 := Put(s1, h.value, rec1);
        if TasksName !in rec1.strings then (None, s2)
        else
          var (ok, tasks) := SetStrings(rec1.strings[TasksName], taskIds);
          var s3 := Put(s2, h.value, rec1.(strings := rec1.strings[TasksName := tasks]));
          AttachOrDiscard(s3, result.value, h.value, ok)
  }

  /** addHintWithTasks, on the resource that holds the result. */
  method AddHintWithTasks(spec: AttributeResource, result: Option<Id>, project: Id, taskIds: seq<string>, hintType: string)
    returns (hint: Option<Id>)
    requires ResultAccepts(spec.store, result, HasTasks(spec.definitions, hintType))
    requires FreshIds(spec.store) && TaskHintDefinable(spec.definitions, hintType)
    modifies spec
    ensures (hint, spec.store) == HintWithTasks(spec.definitions, old(spec.store), result, project, taskIds, hintType)
  {
    if result.None? {
      return None;
    }
    var h := spec.CreateAttribute(hintType);
    if h.None? {
      return None;
    }
    var rec := spec.store.attributes[h.value];
    rec := rec.(associations := Some(SetFirstRef(rec.associations.value, project)));
    spec.PutAttribute(h.value, rec);
    if TasksName !in rec.strings {
      return None;
    }
    var ok, tasks := SetStrings(rec.strings[TasksName], taskIds).0, SetStrings(rec.strings[TasksName], taskIds).1;
    spec.PutAttribute(h.value, rec.(strings := rec.strings[TasksName := tasks]));
    hint := AttachHint(spec, result.value, h.value, ok);
  }

  /**
   * addActivateTaskHint: exactly one task id, in its text form, under the
   * "activate task hint" type.
   */
  method AddActivateTaskHint(spec: AttributeResource, result: Option<Id>, project: Id, taskId: string)
    returns (hint: Option<Id>)
    requires ResultAccepts(spec.store, result, HasTasks(spec.definitions, ActivateTaskHintType))
    requires FreshIds(spec.store) && TaskHintDefinable(spec.definitions, ActivateTaskHintType)
    modifies spec
    ensures (hint, spec.store) == HintWithTasks(spec.definitions, old(spec.store), result, project, [taskId], ActivateTaskHintType)
  {
    hint := AddHintWithTasks(spec, result, project, [taskId], ActivateTaskHintType);
  }

  // ---------------------------------------------------------------------------
  // The traversals

  /** Whether id names a live hint of the given type (a removed hint reads as null). */
  predicate IsHintOf(s: Store, id: Id, hintType: string)
  {
    id in s.attributes && s.attributes[id].typeName == hintType
  }

  /** What visitSelectionHints hands its functor for one hint. */
  datatype SelectionVisit = SelectionVisit(associations: Option<RefItem>, action: Option<SelectionAction>,
                                           value: int, bitwise: bool, ephemeral: bool)

  /** Every live selection hint among ids has the items visitSelectionHints reads unchecked. */
  predicate SelectionHintsReadable(s: Store, ids: seq<Id>)
  {
    forall i :: 0 <= i < |ids| && IsHintOf(s, ids[i], SelectionHintType) ==> HasSelectionItems(s.attributes[ids[i]])
  }

  /** The call visitSelectionHints makes for one listed hint, if any. */
  function SelectionCall(s: Store, id: Id): (c: Option<SelectionVisit>)
    requires IsHintOf(s, id, SelectionHintType) ==> HasSelectionItems(s.attributes[id])
    ensures c.Some? <==> IsHintOf(s, id, SelectionHintType)
  {
    if !IsHintOf(s, id, SelectionHintType) then None
    else
      var a := s.attributes[id];
      Some(SelectionVisit(a.associations, ActionOf(a.ints["action"].value), a.ints["value"].value,
                          a.voids["bitwise"], a.voids["ephemeral"]))
  }

  function SelectionCalls(s: Store, ids: seq<Id>): (cs: seq<Option<SelectionVisit>>)
    requires SelectionHintsReadable(s, ids)
    ensures |cs| == |ids|
    ensures forall i :: 0 <= i < |ids| ==> cs[i] == SelectionCall(s, ids[i])
  {
    if ids == [] then [] else [SelectionCall(s, ids[0])] + SelectionCalls(s, ids[1..])
  }

  /**
   * visitSelectionHints: Empty when the result has no "hints" item, otherwise
   * the visiting loop over the live selection hints it lists.
   */
  function VisitSelectionHints(s: Store, result: Attribute, answers: seq<Visits.Visit>)
    : (r: (Visits.Visited, seq<SelectionVisit>))
    requires HintsName in result.refs ==> SelectionHintsReadable(s, result.refs[HintsName].values)
    ensures HintsName !in result.refs ==> r == (Visits.Empty, [])
    ensures HintsName in result.refs ==>
      r == Visits.VisitEach(SelectionCalls(s, result.refs[HintsName].values), answers)
  {
    if HintsName !in result.refs then (Visits.Empty, [])
    else Visits.VisitEach(SelectionCalls(s, result.refs[HintsName].values), answers)
  }

  /** The call visitFocusHintsOfType makes for one listed hint, if any: its associations. */
  function FocusCall(s: Store, id: Id, hintType: string): (c: Option<Option<RefItem>>)
    ensures c.Some? <==> IsHintOf(s, id, hintType)
  {
    if IsHintOf(s, id, hintType) then Some(s.attributes[id].associations) else None
  }

  function FocusCalls(s: Store, ids: seq<Id>, hintType: string): (cs: seq<Option<Option<RefItem>>>)
    ensures |cs| == |ids|
    ensures forall i :: 0 <= i < |ids| ==> cs[i] == FocusCall(s, ids[i], hintType)
  {
    if ids == [] then [] else [FocusCall(s, ids[0], hintType)] + FocusCalls(s, ids[1..], hintType)
  }

  /** visitFocusHintsOfType: as visitSelectionHints, over the live hints of the given type. */
  function VisitFocusHintsOfType(s: Store, result: Attribute, hintType: string, answers: seq<Visits.Visit>)
    : (r: (Visits.Visited, seq<Option<RefItem>>))
    ensures HintsName !in result.refs ==> r == (Visits.Empty, [])
    ensures HintsName in result.refs ==>
      r == Visits.VisitEach(FocusCalls(s, result.refs[HintsName].values, hintType), answers)
  {
    if HintsName !in result.refs then (Visits.Empty, [])
    else Visits.VisitEach(FocusCalls(s, result.refs[HintsName].values, hintType), answers)
  }

  /** What visitTaskHintsOfType hands its functor for one hint: projects and task ids. */
  datatype TaskVisit = TaskVisit(projects: set<Id>, taskIds: set<string>)

  /** Every live hint of the type among ids has the association item visitTaskHintsOfType reads unchecked. */
  predicate TaskHintsReadable(s: Store, ids: seq<Id>, hintType: string)
  {
    forall i :: 0 <= i < |ids| && IsHintOf(s, ids[i], hintType) ==> s.attributes[ids[i]].associations.Some?
  }

  /**
   * The call visitTaskHintsOfType makes for one listed hint, if any. projectIds
   * are the objects that are projects; a hint without a "tasks" item is skipped.
   */
  function TaskCall(s: Store, id: Id, hintType: string, projectIds: set<Id>): (c: Option<TaskVisit>)
    requires IsHintOf(s, id, hintType) ==> s.attributes[id].associations.Some?
    ensures c.Some? <==> IsHintOf(s, id, hintType) && TasksName in s.attributes[id].strings
    ensures c.Some? ==>
      && (forall p :: p in c.value.projects <==> p in projectIds && p in s.attributes[id].associations.value.values)
      && (forall t :: t in c.value.taskIds <==> t in s.attributes[id].strings[TasksName].values)
  {
    if !IsHintOf(s, id, hintType) then None
    else
      var a := s.attributes[id];
      if TasksName !in a.strings then None
      else
        Some(TaskVisit(set p | p in a.associations.value.values && p in projectIds,
                       set t | t in a.strings[TasksName].values))
  }

  function TaskCalls(s: Store, ids: seq<Id>, hintType: string, projectIds: set<Id>): (cs: seq<Option<TaskVisit>>)
    requires TaskHintsReadable(s, ids, hintType)
    ensures |cs| == |ids|
    ensures forall i :: 0 <= i < |ids| ==> cs[i] == TaskCall(s, ids[i], hintType, projectIds)
  {
    if ids == [] then [] else [TaskCall(s, ids[0], hintType, projectIds)] + TaskCalls(s, ids[1..], hintType, projectIds)
  }

  /** visitTaskHintsOfType: as visitFocusHintsOfType, skipping hints that have no "tasks" item. */
  function VisitTaskHintsOfType(s: Store, result: Attribute, hintType: string, projectIds: set<Id>,
                                answers: seq<Visits.Visit>): (r: (Visits.Visited, seq<TaskVisit>))
    requires HintsName in result.refs ==> TaskHintsReadable(s, result.refs[HintsName].values, hintType)
    ensures HintsName !in result.refs ==> r == (Visits.Empty, [])
    ensures HintsName in result.refs ==>
      r == Visits.VisitEach(TaskCalls(s, result.refs[HintsName].values, hintType, projectIds), answers)
  {
    if HintsName !in result.refs then (Visits.Empty, [])
    else Visits.VisitEach(TaskCalls(s, result.refs[HintsName].values, hintType, projectIds), answers)
  }

  // ---------------------------------------------------------------------------
  // Adding, then visiting

  /** A selection hint that was added is handed back with the associations and settings it was added with. */
  lemma SelectionHintRoundTrip(defs: map<string, Definition>, s: Store, result: Option<Id>,
                               associations: seq<Id>, x: SelectionSettings)
    requires ResultAccepts(s, result, HasAssociations(defs, SelectionHintType))
    requires FreshIds(s) && SelectionDefinable(defs)
    ensures var r := SelectionHint(defs, s, result, associations, x);
            r.0.Some? ==>
              && SelectionCall(r.1, r.0.value)
                 == Some(SelectionVisit(Some(RefItem(associations, defs[SelectionHintType].associations.value)),
                                        Some(x.action), x.value, x.bitwise, x.ephemeral))
              && r.0.value == HintList(r.1, result.value)[|HintList(r.1, result.value)| - 1]
  {
    var r := SelectionHint(defs, s, result, associations, x);
    if r.0.Some? {
      ActionRoundTrip(x.action);
      var r1 := HintWithAssociations(defs, s, result, associations, SelectionHintType);
      assert r.1.attributes[result.value] == r1.1.attributes[result.value];
    }
  }

  /** A selection hint added without settings is handed back with DEFAULT, 1, not bitwise and not ephemeral. */
  lemma DefaultSelectionRoundTrip(defs: map<string, Definition>, s: Store, result: Option<Id>, associations: seq<Id>)
    requires ResultAccepts(s, result, HasAssociations(defs, SelectionHintType))
    requires FreshIds(s) && SelectionDefinable(defs)
    ensures var r := SelectionHint(defs, s, result, associations);
            r.0.Some? ==>
              SelectionCall(r.1, r.0.value)
              == Some(SelectionVisit(Some(RefItem(associations, defs[SelectionHintType].associations.value)),
                                     Some(Default), 1, false, false))
  {
    SelectionHintRoundTrip(defs, s, result, associations, DefaultSelection);
  }

  /** A focus hint that was added is handed back with the associations it was added with. */
  lemma FocusHintRoundTrip(defs: map<string, Definition>, s: Store, result: Option<Id>,
                           associations: seq<Id>, hintType: string)
    requires ResultAccepts(s, result, HasAssociations(defs, hintType)) && FreshIds(s)
    ensures var r := HintWithAssociations(defs, s, result, associations, hintType);
            r.0.Some? ==>
              && FocusCall(r.1, r.0.value, hintType)
                 == Some(Some(RefItem(associations, defs[hintType].associations.value)))
              && r.0.value == HintList(r.1, result.value)[|HintList(r.1, result.value)| - 1]
  {
  }

  /** An activate-task hint that was added is handed back with its project and its one task id. */
  lemma ActivateTaskHintRoundTrip(defs: map<string, Definition>, s: Store, result: Option<Id>,
                                  project: Id, taskId: string, projectIds: set<Id>)
    requires ResultAccepts(s, result, HasTasks(defs, ActivateTaskHintType))
    requires FreshIds(s) && TaskHintDefinable(defs, ActivateTaskHintType)
    ensures var r := HintWithTasks(defs, s, result, project, [taskId], ActivateTaskHintType);
            r.0.Some? ==>
              && TaskCall(r.1, r.0.value, ActivateTaskHintType, projectIds)
                 == Some(TaskVisit(if project in projectIds then {project} else {}, {taskId}))
              && r.0.value == HintList(r.1, result.value)[|HintList(r.1, result.value)| - 1]
  {
    var r := HintWithTasks(defs, s, result, project, [taskId], ActivateTaskHintType);
    if r.0.Some? {
      var c := TaskCall(r.1, r.0.value, ActivateTaskHintType, projectIds);
      var assoc := r.1.attributes[r.0.value].associations.value.values;
      assert assoc == [project];
      assert c.value.projects == (if project in projectIds then {project} else {});
      assert c.value.taskIds == {taskId};
    }
  }
}
