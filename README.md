# SMTK operation core, modelled in Dafny

This project models the core of SMTK (the Simulation Modeling Tool Kit) that an
operation runs through. It also proves properties of that model.

- **Operation lifecycle** (`smtk/operation/Operation.cxx`), in `Operations.dfy`:
  - the specification is created lazily, and so are the parameters and the result definition;
  - `operate()` locks resources, checks `ableToOperate()`, lets WILL_OPERATE observers cancel, runs the domain logic and post-processes a success;
  - it then writes a summary into the log, serializes the new log slice into the result, notifies DID_OPERATE and unlocks;
  - the destructor removes the parameters and results it created.
- **Value items** (`smtk/attribute/ValueItem.cxx`), in `ValueItems.dfy`: the per-element vectors of set flags, discrete indices and expression slots, and the active conditional children chosen by the first discrete index.
- **Modelling-kernel bridge** (`smtk/model/Bridge.cxx`), in `Bridges.dfy`:
  - transcription of entities and the dangling-entity map;
  - operator lookup in the bridge's operator table, and operator construction.
- **Result hints** (`smtk/operation/Hints.h`), in `Hints.dfy` and `Visits.dfy`:
  - adding selection, browser, render-focus and task hints to a result;
  - visiting the hints a result lists, filtered by type, with a functor that may halt.
- **Resource observer registry** (`smtk/resource/Observer.h`), in `ResourceObservers.dfy`.
- **File item accessors** (`smtk/attribute/FileItem.h`), in `FileItems.dfy`.

`Attributes.dfy` holds the attribute records and the attribute resource they live in. Results, parameters and hints are such records, and the resource is an operation's specification. `Common.dfy` holds `Option` (a nullable pointer) and `Id` (the identity of a persistent object).

State that the C++ code updates in place is modelled as classes with `modifies` clauses:

- `Operation`, `Logger`, `ValueItem`, `Bridge`, `AttributeResource`, `Observers` and `FileItem`.
- Each state-changing method is proved equal to a function of the old state, and the properties are lemmas about those functions.
- Calls the core makes into code it cannot see are modelled as inputs:
  - the domain logic's outcome, the parameters' validity, the observers' verdict and the records each of these collaborators logs are fields of a `Hooks` record;
  - what `transcribeInternal` does is a pair of parameters: the `declareDanglingEntity` calls it makes, in order, and the bits it reports;
  - a visitor functor is the sequence of Continue/Halt answers it gives.
- The effects the core exists to produce are recorded in the class state:
  - the lock calls and observer calls of an operation, as its trace;
  - the notifications of the observer registry;
  - the calls a bridge makes to `transcribeInternal`.

## Model

| member | source | states |
|---|---|---|
| Operations.DecodeOutcome | smtk/operation/Operation.cxx:166-167 | an outcome code decodes to the one outcome whose code it is, and to nothing otherwise |
| Operations.OutcomeCodeInjective | smtk/operation/Operation.cxx:273-290 | distinct outcomes have distinct codes, so the switch in generateSummary picks at most one case |
| Operations.SummaryMessage | smtk/operation/Operation.cxx:270-290 | the summary starts with the class name and ": "; an unknown code adds nothing more; SUCCEEDED reads "operation succeeded" |
| Operations.SummarySeverity | smtk/operation/Operation.cxx:292-299 | the summary is logged as Info exactly when the outcome is SUCCEEDED, and as Error otherwise |
| Operations.DebugLevelOf | smtk/operation/Operation.cxx:159-160 | the debug level is the "debug level" item's value when that item exists and is enabled, and 0 otherwise |
| Operations.StampOutcome | smtk/operation/Operation.cxx:261-264 | the result's "outcome" item holds the outcome code and no other item changes |
| Operations.AppendLogEntry | smtk/operation/Operation.cxx:185 | the serialized log is appended to the result's "log" item and nothing else changes |
| Operations.OperateOutcome | smtk/operation/Operation.cxx:143-171 | invalid parameters give UNABLE_TO_OPERATE; a veto by an attached manager's observers gives CANCELED; otherwise the outcome is the domain logic's |
| Operations.HookLog | smtk/operation/Operation.cxx:139-171 | the records logged before the summary: the WILL_OPERATE observers' only when they are called, the domain logic's only when it runs, post-processing's only after a success; nothing when the operation is unable to operate |
| Operations.LoggedDuring | smtk/operation/Operation.cxx:173-179 | every run logs at least the summary record, so the log slice to serialize is never empty; an operation unable to operate serializes the summary alone |
| Operations.LockEvents | smtk/operation/Operation.cxx:121-126 | one lock call per (resource, permission) pair, in order |
| Operations.UnlockEvents | smtk/operation/Operation.cxx:196-201 | one unlock call per (resource, permission) pair, in order |
| Operations.LockedAppend | smtk/operation/Operation.cxx:118-126 | the locks taken by two traces one after the other add up (by induction) |
| Operations.LockEventsLockAll | smtk/operation/Operation.cxx:121-126 | the lock loop locks exactly the multiset of pairs, and the unlock loop unlocks exactly that multiset |
| Operations.NoLockEventsLockNothing | smtk/operation/Operation.cxx:139-193 | a trace with no lock or unlock calls neither locks nor unlocks anything |
| Operations.MiddleLocksNothing | smtk/operation/Operation.cxx:139-193 | between locking and unlocking, operate() takes and releases no locks |
| Operations.OperateLocksBalance | smtk/operation/Operation.cxx:115-204 | every pair locked on entry is unlocked with the same permission before return |
| Operations.ObserversCalledInPairs | smtk/operation/Operation.cxx:134-193 | WILL_OPERATE is called exactly when DID_OPERATE is: when a manager is attached and the operation is able to operate |
| Operations.UnableToOperateDoesNothing | smtk/operation/Operation.cxx:143-148 | an operation unable to operate yields UNABLE_TO_OPERATE and calls no observer, no domain logic and no post-processing |
| Operations.DomainLogicRunsUnlessStopped | smtk/operation/Operation.cxx:154-171 | the domain logic runs exactly when the operation is able and not vetoed; post-processing runs exactly when, in addition, it succeeded |
| Operations.AlwaysSummarizedAndSerialized | smtk/operation/Operation.cxx:173-187 | every run writes a summary with the outcome's severity and serializes a non-empty log slice |
| Operations.ExtractResultDefinition | smtk/operation/Operation.cxx:236-239 | a result definition is found exactly when the unique name maps to a definition the specification holds |
| Operations.MissingParameters | smtk/operation/Operation.cxx:221-227 | missing parameters are reported as an error |
| Operations.MissingResultDefinition | smtk/operation/Operation.cxx:253-259 | a missing result definition is reported as an error |
| Operations.Operation.constructor | smtk/operation/Operation.cxx:37-44 | a new operation has debug level 0 and no specification, parameters, result definition or results |
| Operations.Operation.UniqueName | smtk/operation/Operation.cxx:67-84 | the manager's registered unique name when there is one, and the class name otherwise |
| Operations.Operation.Specification | smtk/operation/Operation.cxx:86-108 | the specification is the manager's metadata specification, or the operation's own, created once and then cached |
| Operations.Operation.Parameters | smtk/operation/Operation.cxx:211-230 | the parameters are looked up once and cached; when they are missing an error is logged |
| Operations.Operation.AbleToOperate | smtk/operation/Operation.cxx:110-113 | the answer is the parameters' validity, and the parameters are fetched |
| Operations.Operation.CreateResult | smtk/operation/Operation.cxx:232-266 | a new result, under an identity no stored attribute had, is stamped with the outcome and remembered; without a result definition nothing is created and an error is logged |
| Operations.Operation.GenerateSummary | smtk/operation/Operation.cxx:268-300 | exactly one summary record is logged, with the message and severity of the result's outcome |
| Operations.Operation.LockResources | smtk/operation/Operation.cxx:118-126 | every pair is locked, in order |
| Operations.Operation.UnlockResources | smtk/operation/Operation.cxx:195-201 | every pair is unlocked, in order, and the held locks return to what they were |
| Operations.Operation.Decide | smtk/operation/Operation.cxx:139-164 | the ability check, the veto and the domain logic run as OperateOutcome decides; the WILL_OPERATE observers' and the domain logic's records are logged only when they are called; the debug level is set only when the domain logic runs |
| Operations.Operation.Execute | smtk/operation/Operation.cxx:139-171 | as Decide, then the result is created with the decided outcome and post-processed after a success; the log grows by exactly HookLog |
| Operations.Operation.PostProcessResult | smtk/operation/Operation.cxx:165-170 | post-processing runs, and logs its records, exactly when the domain logic ran and reported SUCCEEDED |
| Operations.Operation.NotifyDidOperate | smtk/operation/Operation.cxx:189-193 | the DID_OPERATE observers are called, and log their records, exactly when observers were asked before |
| Operations.Operation.Conclude | smtk/operation/Operation.cxx:173-193 | the summary is logged; the collaborators' records plus the summary are serialized into the result; DID_OPERATE is notified exactly when observers were asked, after the serialization |
| Operations.Operation.RecordLog | smtk/operation/Operation.cxx:176-187 | the log records since the start are serialized into the result's "log" item only when there are any |
| Operations.Operation.Run | smtk/operation/Operation.cxx:128-193 | Execute then Conclude: the result carries the outcome and the serialized records of this run up to the summary; the DID_OPERATE observers' records are logged but not serialized |
| Operations.Operation.Operate | smtk/operation/Operation.cxx:115-204 | the trace is OperateTrace (locks, checks, domain logic, summary, log, observers, unlocks); the held locks are restored; the log grows by HookLog, the summary and the DID_OPERATE observers' records; the result is a new attribute that holds the outcome and the serialized HookLog and summary |
| Operations.Operation.Destroy | smtk/operation/Operation.cxx:46-65 | the parameters and every result this operation created are removed from its specification |
| ValueItems.ResolveAll | smtk/attribute/ValueItem.cxx:237-247 | each conditional item name resolves to the child of that name, or to null when there is none, in order |
| ValueItems.ActiveChildren | smtk/attribute/ValueItem.cxx:221-250 | no active children for an invalid index; otherwise one entry per conditional item of the selected enumerant, in order |
| ValueItems.ActiveChildrenExactly | smtk/attribute/ValueItem.cxx:221-250 | a child is active exactly when it exists and is listed for the selected enumerant; a null entry appears exactly when a listed name has no child |
| ValueItems.UnitsExample | smtk/attribute/ValueItem.cxx:221-250 | with enumerants mm and cm, index 0 activates mmSize; index 1 activates cmSize plus a null for the missing cmTolerance; index 2 activates nothing |
| ValueItems.Resize | smtk/attribute/ValueItem.cxx:63-89 | std::vector::resize keeps the prefix and fills new slots with the given value |
| ValueItems.ValueItem.constructor | smtk/attribute/ValueItem.cxx:33-45 | a new item has no definition and satisfies the item invariant |
| ValueItems.ValueItem.SetDefinition | smtk/attribute/ValueItem.cxx:47-93 | binding fails unless the definition is a value-item definition that the base item accepts; otherwise the vectors are sized to the required count with the definition's defaults, expression slots are built, and the active children are recomputed |
| ValueItems.ValueItem.Dispose | smtk/attribute/ValueItem.cxx:95-103 | every expression slot is detached from its owner and nothing else changes |
| ValueItems.ValueItem.NumberOfRequiredValues | smtk/attribute/ValueItem.cxx:105-114 | 0 without a definition, and the definition's count otherwise |
| ValueItems.ValueItem.AllowsExpressions | smtk/attribute/ValueItem.cxx:116-125 | false without a definition, and the definition's flag otherwise |
| ValueItems.ValueItem.ExpressionOf | smtk/attribute/ValueItem.cxx:127-136 | null when expressions are not allowed; a present expression is valid and its element is set |
| ValueItems.ValueItem.SetExpression | smtk/attribute/ValueItem.cxx:138-161 | fails unless expressions are allowed and the expression is null or valid; a null expression unsets the element only if an expression was there; a valid one sets it |
| ValueItems.ValueItem.AppendExpression | smtk/attribute/ValueItem.cxx:163-185 | succeeds only on an extensible item (no required count) that allows the valid expression, and then appends one set, attached slot |
| ValueItems.ValueItem.SetDiscreteIndex | smtk/attribute/ValueItem.cxx:198-219 | fails unless the item is discrete and the index valid; otherwise stores the index, sets the element, clears its expression and recomputes the active children |
| ValueItems.ValueItem.UpdateActiveChildrenItems | smtk/attribute/ValueItem.cxx:221-250 | a discrete item's active children become those selected by its first discrete index; a non-discrete item's are unchanged |
| Bridges.FindOperatorXMLInternal | smtk/model/Bridge.cxx:282-298 | empty XML without a table or for an unregistered name, and the registered XML otherwise |
| Bridges.FindOperatorConstructorInternal | smtk/model/Bridge.cxx:302-317 | no constructor without a table or for an unregistered name, and the registered one otherwise |
| Bridges.LookupsFindOnlyRegistered | smtk/model/Bridge.cxx:282-317 | both lookups return something only for a name registered in the table |
| Bridges.Transcription | smtk/model/Bridge.cxx:72-98 | a request for nothing fails and changes nothing; an unknown entity is refused, without asking the subclass, when only dangling ones are honoured; success means every requested supported bit was transcribed; the subclass's declarations add entries and leave the others' bits alone; an entity that dangled before the call stops dangling exactly when everything supported is present, and one that did not dangles afterwards exactly when the subclass declared it short |
| Bridges.DeclareAll | smtk/model/Bridge.cxx:154-171 | successive declarations add exactly the entities declared short of the supported bits, give each of them bits that fall short, and leave every other entry as it was |
| Bridges.DeclareDangling | smtk/model/Bridge.cxx:167-171 | an entity is marked dangling, with the bits present, exactly when they do not cover all supported information |
| Bridges.MaskedBelowMeansShortfall | smtk/model/Bridge.cxx:169 | at any width, the masked bits are numerically below the supported mask exactly when they do not cover it (by induction on the bit positions) |
| Bridges.ExtraBitsAreHarmless | smtk/model/Bridge.cxx:84-95 | unsupported extra bits in the subclass's answer change neither the verdict nor the dangling map |
| Bridges.BaseBridgeFails | smtk/model/Bridge.cxx:199-205 | with the base transcribeInternal, which declares nothing and reports no bits, a request that includes supported bits always fails and leaves the dangling map as it was |
| Bridges.UnsupportedRequestSucceeds | smtk/model/Bridge.cxx:84-89 | a non-empty request with no supported bits succeeds vacuously, whatever was transcribed |
| Bridges.DeclareThenTranscribe | smtk/model/Bridge.cxx:72-171 | an entity declared dangling is transcribed under onlyDangling, and a complete transcription removes it again, whatever the subclass declares during the call |
| Bridges.DeclaredDuringTranscriptionDangles | smtk/model/Bridge.cxx:72-171 | an entity not yet dangling that the subclass declares short during the call is dangling afterwards with the declared bits, because only an entity found before the call is erased; the other entries are untouched |
| Bridges.Bridge.constructor | smtk/model/Bridge.cxx:22-25 | a new bridge has its session id and nothing dangling |
| Bridges.Bridge.SetSessionId | smtk/model/Bridge.cxx:213-216 | sessionId() afterwards returns the new id |
| Bridges.Bridge.Transcribe | smtk/model/Bridge.cxx:72-98 | the result and the new dangling map are those of Transcription: the subclass's declarations are applied in order by declareDanglingEntity, and the erase uses the lookup made before transcribeInternal; transcribeInternal is asked exactly when Transcription says so |
| Bridges.Bridge.DeclareDanglingEntity | smtk/model/Bridge.cxx:167-171 | the dangling map becomes DeclareDangling of the old one |
| Bridges.Bridge.Op | smtk/model/Bridge.cxx:124-146 | an operator exists exactly when the name is non-empty and its constructor exists and yields one; it is bound to this bridge and the manager, and a remote operator is named opName |
| Visits.FirstHalt | smtk/operation/Hints.h:156-158 | the first Halt among the functor's answers, with every earlier answer Continue |
| Visits.VisitEachMeaning | smtk/operation/Hints.h:144-163 | the loop calls the functor on the matching entries in order, up to and including the first that halts; the result is Some after a halt, All when something matched, and Empty otherwise (by induction) |
| Visits.VisitedCases | smtk/operation/Hints.h:144-163 | Empty exactly when nothing matches; Some exactly when the functor halts on a match; All exactly when something matches and nothing halts |
| Hints.ActionOf | smtk/operation/Hints.h:152 | a stored action code casts back to the one action with that code |
| Hints.ActionRoundTrip | smtk/operation/Hints.h:87-164 | an action stored by addSelectionHint reads back unchanged |
| Hints.Room | smtk/operation/Hints.h:66-74 | at most as many appends succeed as were asked for |
| Hints.AppendEach | smtk/operation/Hints.h:66-74 | appending stops at the first failure; it succeeds exactly when everything fits, and the item holds its old values plus the prefix that fitted (by induction) |
| Hints.EmptyItemRoom | smtk/operation/Hints.h:66-74 | an empty item takes n values exactly when it is unbounded or its bound is at least n |
| Hints.AttachOrDiscard | smtk/operation/Hints.h:75-83 | the hint is appended to the result's "hints" whatever happened before; it is returned only if everything succeeded, and removed otherwise; no other attribute changes |
| Hints.HintWithAssociations | smtk/operation/Hints.h:41-84 | nothing changes for a null result or unknown type; a hint without associations is left behind and not returned; it is returned exactly when all associations and the "hints" entry fit, and then it holds exactly the associations and is last in the result's "hints" |
| Hints.FailedHintIsDiscarded | smtk/operation/Hints.h:75-83 | after a failed append the hint is gone and every other attribute is as before, while the result's "hints" may still name it |
| Hints.HintWithAssociationsFrame | smtk/operation/Hints.h:41-84 | attributes other than the result are never changed |
| Hints.AddHintWithAssociations | smtk/operation/Hints.h:41-84 | the in-place operation leaves the hint and the resource exactly as HintWithAssociations says |
| Hints.AttachHint | smtk/operation/Hints.h:75-83 | the in-place tail leaves the hint and the resource as AttachOrDiscard says |
| Hints.AddBrowserScrollHint | smtk/operation/Hints.h:107-114 | addHintWithAssociations with type "browser scroll hint" |
| Hints.AddBrowserExpandHint | smtk/operation/Hints.h:116-123 | addHintWithAssociations with type "browser expand hint" |
| Hints.AddRenderFocusHint | smtk/operation/Hints.h:125-132 | addHintWithAssociations with type "render focus hint" |
| Hints.WithSelection | smtk/operation/Hints.h:100-103 | action, value, bitwise and ephemeral take the given settings and nothing else changes |
| Hints.SelectionHint | smtk/operation/Hints.h:87-105 | returns what the base operation returns; on success the stored hint carries the associations and the settings, which default to DEFAULT, 1, not bitwise, not ephemeral |
| Hints.AddSelectionHint | smtk/operation/Hints.h:87-105 | the in-place operation matches SelectionHint; the settings default to DEFAULT, 1, not bitwise, not ephemeral |
| Hints.SetFirstRef | smtk/operation/Hints.h:214 | the project becomes the first association |
| Hints.HintWithTasks | smtk/operation/Hints.h:195-234 | nothing changes for a null result or unknown type; a hint without "tasks" is left behind and not returned; it is returned exactly when the task ids and the "hints" entry fit, and then it holds the project and the task ids and is last in the result's "hints" |
| Hints.AddHintWithTasks | smtk/operation/Hints.h:195-234 | the in-place operation matches HintWithTasks |
| Hints.AddActivateTaskHint | smtk/operation/Hints.h:236-252 | addHintWithTasks with exactly one task id and type "activate task hint" |
| Hints.SelectionCall | smtk/operation/Hints.h:149-156 | only live selection hints are visited, with their associations and settings |
| Hints.SelectionCalls | smtk/operation/Hints.h:147-156 | one call decision per listed hint, in list order |
| Hints.VisitSelectionHints | smtk/operation/Hints.h:134-164 | Empty without a "hints" item, and otherwise the visiting loop over the selection hints |
| Hints.FocusCall | smtk/operation/Hints.h:182-185 | only live hints of the type are visited, with their associations |
| Hints.FocusCalls | smtk/operation/Hints.h:180-185 | one call decision per listed hint, in list order |
| Hints.VisitFocusHintsOfType | smtk/operation/Hints.h:166-193 | Empty without a "hints" item, and otherwise the visiting loop over the hints of the type |
| Hints.TaskCall | smtk/operation/Hints.h:270-299 | a live hint of the type is visited only when it has a "tasks" item, with its associated projects and its task ids |
| Hints.TaskCalls | smtk/operation/Hints.h:268-299 | one call decision per listed hint, in list order |
| Hints.VisitTaskHintsOfType | smtk/operation/Hints.h:254-307 | Empty without a "hints" item; otherwise the visiting loop, skipping hints without "tasks" so that they do not count as visited |
| Hints.SelectionHintRoundTrip | smtk/operation/Hints.h:87-164 | a selection hint that was added is listed last and is visited with the associations and settings it was added with |
| Hints.DefaultSelectionRoundTrip | smtk/operation/Hints.h:87-164 | a selection hint added without settings is visited with action DEFAULT, value 1, not bitwise and not ephemeral |
| Hints.FocusHintRoundTrip | smtk/operation/Hints.h:41-193 | a hint that was added is listed last and is visited with the associations it was added with |
| Hints.ActivateTaskHintRoundTrip | smtk/operation/Hints.h:236-307 | an activate-task hint that was added is listed last and is visited with its project and its one task id |
| ResourceObservers.MinKey | smtk/resource/Observer.h:66-71 | the least key, which std::map visits first |
| ResourceObservers.MaxKey | smtk/resource/Observer.h:53-56 | the greatest key in use |
| ResourceObservers.InKeyOrderIsSorted | smtk/resource/Observer.h:50-71 | iteration lists every key exactly once, in strictly ascending order (by induction) |
| ResourceObservers.Notifications | smtk/resource/Observer.h:50-51 | one call per key, to the observer under that key with the resource and event |
| ResourceObservers.AnnounceStep | smtk/resource/Observer.h:50-51 | notifying starts with the least remaining key |
| ResourceObservers.BroadcastReachesEveryObserver | smtk/resource/Observer.h:50-71 | operator() calls every registered observer exactly once, in ascending key order, and nothing else |
| ResourceObservers.NextKey | smtk/resource/Observer.h:53-56 | the key insert hands out is not in use and exceeds every key in use |
| ResourceObservers.InsertThenErase | smtk/resource/Observer.h:53-60 | erasing the key insert returned restores the registry |
| ResourceObservers.Observers.Notify | smtk/resource/Observer.h:50-51 | the calls made are exactly Broadcast of the registry |
| ResourceObservers.Observers.Insert | smtk/resource/Observer.h:53-56 | the observer is registered under NextKey; its initial update is requested only when immediatelyUpdate (default true) and there is an initializer |
| ResourceObservers.Observers.Erase | smtk/resource/Observer.h:58-60 | the key is unregistered, and the count of the observers left is returned |
| ResourceObservers.Observers.Find | smtk/resource/Observer.h:62-63 | the observer under the key, or null when there is none |
| FileItems.Assign | smtk/attribute/FileItem.h:55-57 | an in-range element takes the value and is marked set; nothing else changes, and an out-of-range element changes nothing |
| FileItems.Cleared | smtk/attribute/FileItem.h:66-67 | the element's flag becomes false and every other flag stays |
| FileItems.UnsetAfterAssign | smtk/attribute/FileItem.h:55-67 | unsetting a value that was just set keeps the value and only drops its flag |
| FileItems.FileItem.NumberOfValues | smtk/attribute/FileItem.h:49-50 | the number of stored values |
| FileItems.FileItem.Value | smtk/attribute/FileItem.h:53-54 | the stored value at the element, 0 by default |
| FileItems.FileItem.IsSet | smtk/attribute/FileItem.h:64-65 | the stored flag at the element, 0 by default |
| FileItems.FileItem.SetValueAt | smtk/attribute/FileItem.h:57 | the item becomes Assign of its old vectors |
| FileItems.FileItem.SetValue | smtk/attribute/FileItem.h:55-56 | exactly setValue(0, val) |
| FileItems.FileItem.Unset | smtk/attribute/FileItem.h:66-67 | only the element's flag is cleared; the values do not change |
| FileItems.FileItem.ValueAsStringAt | smtk/attribute/FileItem.h:63 | the text of the value at the element |
| FileItems.FileItem.ValueAsString | smtk/attribute/FileItem.h:61-62 | exactly valueAsString(0, format) |

## Left out

- Logging output: the log is a sequence of records. `Serialize` stands for the JSON dump of a log slice, so the JSON layout is not modelled.
- The messages Hints.h writes to the logger singleton are not modelled.
- Resource locks are ghost state: a multiset of held (resource, permission) pairs and the lock and unlock calls in the trace. Lock blocking and concurrency are not modelled.
- The abstract hooks are inputs in a `Hooks` record: `operateInternal`, `postProcessResult`, the parameters' `isValid()`, the WILL_OPERATE observers' verdict, and the records that the WILL_OPERATE observers, the domain logic, post-processing and the DID_OPERATE observers log. `extractResourcesAndPermissions` is also one of them.
- Operations.Operation.Operate: the result of `operateInternal` is assumed to be a fresh result made by `createResult` with the outcome the hooks give. Any other result it might return is not modelled.
- Operations.Operation.Operate: the collaborators are assumed to change nothing but the log. Other changes to attributes, made by the domain logic, post-processing or the observers, are not modelled.
- The numeric values of `Outcome` are assumed to be UNABLE_TO_OPERATE 0, CANCELED 1, FAILED 2, SUCCEEDED 3 and UNKNOWN -1. `Operation.h` is not part of this model.
- `extractParameters` is modelled as the specification's `parametersOf` lookup by unique name. `SpecificationOps` is not part of this model.
- Operations.Operation.Operate: requires that the parameters exist, because the source dereferences them without a check.
- Operations.Operation.Operate: requires that a result definition exists, because the source dereferences the result without a check.
- Operations.Operation.constructor: requires that the specification's store holds no attribute at or above its next identity (`FreshIds`). The attribute resource is not part of this model; `Attributes.Create`, `Remove` and `Put` are proved to keep this, and `Operation.Valid` carries it, so every result is a new attribute.
- Bridges.Transcription: of what `transcribeInternal` does, only its `declareDanglingEntity` calls and the bits it reports are modelled. Its other effects on the model manager are not.
- The weak-pointer lifetime of the manager is not modelled; an attached manager is one that is alive.
- `createBaseSpecification` and XML reading are not modelled. An operation's own specification is a constructor argument.
- ValueItems.ValueItem.SetDefinition: the base `Item::setDefinition` verdict is a parameter. `Item.cxx` is not part of this model.
- `ValueItem::reset` only calls `Item::reset`, which is not part of this model.
- `updateDiscreteValue` is an abstract hook, so it is not modelled.
- `operator[]` on the children map inserts a null child for a missing name. The model records the null in the active list but does not grow the children map.
- The acceptability checks of `ReferenceItem` are not modelled. An expression's validity is membership in the definition's set of valid expressions.
- `BridgedInfoBits` is modelled as the set of its bit positions. `BRIDGE_EVERYTHING` is taken as the eight low bits. `Bridge.h` is not part of this model.
- `Bridge::name`, `operatorNames`, `operatorManager` and `initializeOperatorManager` build or return the operator attribute manager, which is not modelled.
- `danglingEntities()` returns the map; the map is the `dangling` field.
- The random UUID drawn by the `Bridge` constructor is a constructor argument.
- Hints.SelectionHint: the ordinals of `SelectionAction` are assumed to follow its declaration order (six actions, then DEFAULT). `SelectionAction.h` is not part of this model.
- Hints.SetFirstRef: `ReferenceItem::setValue` is not part of this model. The project takes the first slot, and a slot is made for it when the item is empty.
- Hints.TaskCall: task ids stay text. The conversion of each string to a UUID is not modelled, and neither is the text form of a task id in `addActivateTaskHint`; the caller passes the text.
- Hints.TaskCall: which associated objects are projects is a parameter.
- Hints.IsHintOf: a listed hint that was removed from the resource reads as a null attribute and is skipped; the weak-pointer lookup of a listed object is not modelled further.
- Hints.HintWithTasks: requires the hint type's definition to have an association item, because the source calls `setValue` on `associations()` without a check. It also requires the result to be a live attribute, and a "hints" item once the source reaches it (the definition has a "tasks" item), because the source dereferences `findReference("hints")` unchecked.
- ValueItems.IsValidExpression: a null expression is never valid, and a non-null one is valid when the definition lists it. `ValueItemDefinition::isValidExpression` is not part of this model.
- Attributes.SetStrings: `StringItem::setValues` is not part of this model. It is assumed to fail, leaving the item alone, when there are more values than a bounded item allows, and otherwise to store them all.
- Hints.HintWithAssociations: requires the result to be a live attribute. It also requires a "hints" item once the source reaches it, because the source dereferences `findReference("hints")` unchecked.
- Hints.SelectionHint: requires the selection hint definition to have the action, value, bitwise and ephemeral items, because the source dereferences them unchecked.
- Hints.VisitSelectionHints: requires listed selection hints to have those items, for the same reason.
- Hints.VisitTaskHintsOfType: requires listed hints of the type to have an association item.
- ResourceObservers.Observers.Insert: `Observers.cxx` is not part of this model. The key is one past the greatest key in use, or 0 for an empty registry; only "not in use" comes from the header's contract.
- The initializer's effect is recorded as an `Initialized` call and is not modelled further.
- Null observers are not modelled, and the resource an observer receives is its identity.
- FileItems.FileItem.SetValueAt: `FileItem.cxx` is not part of this model. Setting stores the value and marks it set when the element is in range.
- FileItems.FileItem.ValueAsStringAt: the format string is not applied, because the formatting code is in `FileItem.cxx`, which is not part of this model.
- `appendValue`, `removeValue`, `setNumberOfValues`, `reset` and `setDefinition` of `FileItem` are defined out of line, and their behaviour is not shown.
