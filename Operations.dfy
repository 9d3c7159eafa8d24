/**
 * The operation execution protocol (smtk/operation/Operation.cxx): lazy
 * specification, parameters and result-definition lookup, result creation,
 * the summary message, the fixed sequence of operate(), and the cleanup the
 * destructor performs.
 *
 * Collaborators the protocol calls but whose code is not part of this model
 * (resource locks, observers, domain logic, parameter validation, log
 * serialization) are abstract: their answers arrive in a Hooks record, their
 * effects are recorded in a ghost trace of events.
 */
module Operations {
  import opened Common
  import opened Attributes

  /** The closed outcome taxonomy of an operation. */
  datatype Outcome = UnableToOperate | Canceled | Failed | Succeeded | Unknown

  /** The integer an outcome is stored as in a result's "outcome" item. */
  function OutcomeCode(o: Outcome): int
  {
    match o
    case UnableToOperate => 0
    case Canceled => 1
    case Failed => 2
    case Succeeded => 3
    case Unknown => -1
  }

  /** The outcome an integer stands for, if any. */
  function DecodeOutcome(code: int): (r: Option<Outcome>)
    ensures r.Some? ==> OutcomeCode(r.value) == code
    ensures forall o :: OutcomeCode(o) == code ==> r == Some(o)
  {
    if code == 0 then Some(UnableToOperate)
    else if code == 1 then Some(Canceled)
    else if code == 2 then Some(Failed)
    else if code == 3 then Some(Succeeded)
    else if code == -1 then Some(Unknown)
    else None
  }

  /** Distinct outcomes are stored as distinct integers. */
  lemma OutcomeCodeInjective(a: Outcome, b: Outcome)
    ensures OutcomeCode(a) == OutcomeCode(b) <==> a == b
  {
  }

  datatype Severity = Debug | Info | Warning | Error | Fatal

  datatype LogRecord = LogRecord(severity: Severity, message: string)

  /** The log sink; in the C++ code it is the process-wide Logger instance. */
  class Logger {
    var records: seq<LogRecord>

    constructor ()
      ensures records == []
    {
      records := [];
    }
  }

  function SeverityName(s: Severity): string
  {
    match s
    case Debug => "DEBUG"
    case Info => "INFO"
    case Warning => "WARNING"
    case Error => "ERROR"
    case Fatal => "FATAL"
  }

  /** A rendering of log records as one string (stands for the JSON dump). */
  function Serialize(records: seq<LogRecord>): string
  {
    if records == [] then ""
    else SeverityName(records[0].severity) + ": " + records[0].message + "\n" + Serialize(records[1..])
  }

  /** The text generateSummary logs for an outcome code; an unknown code adds nothing after the class name. */
  function SummaryMessage(classname: string, code: int): (r: string)
    ensures classname + ": " <= r
    ensures DecodeOutcome(code).None? ==> r == classname + ": "
    ensures DecodeOutcome(code) == Some(Succeeded) ==> r == classname + ": operation succeeded"
  {
    classname + ": " +
      match DecodeOutcome(code)
      case None => ""
      case Some(UnableToOperate) => "unable to operate"
      case Some(Canceled) => "operation canceled"
      case Some(Failed) => "operation failed"
      case Some(Succeeded) => "operation succeeded"
      case Some(Unknown) => "outcome unknown"
  }

  /** The level the summary is logged at: info for success, error for everything else. */
  function SummarySeverity(code: int): (s: Severity)
    ensures s == Info <==> code == OutcomeCode(Succeeded)
    ensures s != Info ==> s == Error
  {
    if code == OutcomeCode(Succeeded) then Info else Error
  }

  /** The debug level read from parameters: the enabled "debug level" item's value, else 0. */
  function DebugLevelOf(parameters: Attribute): (level: int)
    ensures "debug level" !in parameters.ints ==> level == 0
    ensures "debug level" in parameters.ints && !parameters.ints["debug level"].enabled ==> level == 0
    ensures "debug level" in parameters.ints && parameters.ints["debug level"].enabled ==>
      level == parameters.ints["debug level"].value
  {
    if "debug level" in parameters.ints && parameters.ints["debug level"].enabled
    then parameters.ints["debug level"].value else 0
  }

  /** Set a result's "outcome" item. */
  function StampOutcome(a: Attribute, code: int): (r: Attribute)
    requires "outcome" in a.ints
    ensures r.ints.Keys == a.ints.Keys && r.ints["outcome"].value == code
    ensures r.strings == a.strings && r.refs == a.refs && r.typeName == a.typeName
  {
    a.(ints := a.ints["outcome" := a.ints["outcome"].(value := code)])
  }

  /** Append one entry to a result's "log" item. */
  function AppendLogEntry(a: Attribute, entry: string): (r: Attribute)
    requires "log" in a.strings
    ensures r.ints == a.ints && r.strings.Keys == a.strings.Keys && r.refs == a.refs
    ensures r.strings["log"] == AppendString(a.strings["log"], entry).1
  {
    a.(strings := a.strings["log" := AppendString(a.strings["log"], entry).1])
  }

  /** A definition a result can be created from: it has the "outcome" and "log" items. */
  predicate IsResultDefinition(d: Definition)
  {
    "outcome" in d.ints && "log" in d.strings
  }

  datatype Permission = Read | Write

  /** What operate() does, in order, as far as the model can observe it. */
  datatype Event =
    | Lock(resource: Id, permission: Permission)
    | CheckAbleToOperate
    | WillOperate
    | OperateInternal
    | PostProcess
    | Summary(severity: Severity)
    | SerializeLog(first: nat, last: nat)
    | DidOperate
    | Unlock(resource: Id, permission: Permission)

  /**
   * The answers of the collaborators operate() consults: the resources and
   * permissions the parameters reference, whether the parameters are valid,
   * whether a WILL_OPERATE observer cancels, the outcome the domain logic sets
   * on its result, and the records logged by the WILL_OPERATE observers, the
   * domain logic, post-processing and the DID_OPERATE observers.
   */
  datatype Hooks = Hooks(
    resourcesAndPermissions: seq<(Id, Permission)>,
    parametersValid: bool,
    willOperateCancels: bool,
    internalOutcome: Outcome,
    willOperateLog: seq<LogRecord>,
    internalLog: seq<LogRecord>,
    postProcessLog: seq<LogRecord>,
    didOperateLog: seq<LogRecord>)

  /** Observers are called when there is a manager and the operation is able to operate. */
  predicate ObservesOperation(h: Hooks, hasManager: bool)
  {
    hasManager && h.parametersValid
  }

  /** The domain logic runs when the parameters are valid and no observer cancels. */
  predicate RunsDomainLogic(h: Hooks, hasManager: bool)
  {
    h.parametersValid && !(hasManager && h.willOperateCancels)
  }

  /** The outcome operate() reports. */
  function OperateOutcome(h: Hooks, hasManager: bool): (o: Outcome)
    ensures !h.parametersValid ==> o == UnableToOperate
    ensures h.parametersValid && hasManager && h.willOperateCancels ==> o == Canceled
    ensures RunsDomainLogic(h, hasManager) ==> o == h.internalOutcome
  {
    if !h.parametersValid then UnableToOperate
    else if hasManager && h.willOperateCancels then Canceled
    else h.internalOutcome
  }

  /** A successful run of the domain logic is post-processed. */
  predicate PostProcesses(h: Hooks, hasManager: bool)
  {
    RunsDomainLogic(h, hasManager) && h.internalOutcome == Succeeded
  }

  /**
   * The records the collaborators log before the summary, in order: the
   * WILL_OPERATE observers', the domain logic's and post-processing's, each
   * only when that collaborator is called.
   */
  function HookLog(h: Hooks, hasManager: bool): (log: seq<LogRecord>)
    ensures !h.parametersValid ==> log == []
    ensures |log| <= |h.willOperateLog| + |h.internalLog| + |h.postProcessLog|
    ensures ObservesOperation(h, hasManager) ==> h.willOperateLog <= log
    ensures PostProcesses(h, hasManager) ==>
              |h.postProcessLog| <= |log| && log[|log| - |h.postProcessLog|..] == h.postProcessLog
  {
    (if ObservesOperation(h, hasManager) then h.willOperateLog else [])
    + (if RunsDomainLogic(h, hasManager) then h.internalLog else [])
    + (if PostProcesses(h, hasManager) then h.postProcessLog else [])
  }

  /** How many records operate() serializes: the collaborators', then the summary. */
  function LoggedDuring(h: Hooks, hasManager: bool): (n: nat)
    ensures n >= 1
    ensures !h.parametersValid ==> n == 1
  {
    |HookLog(h, hasManager)| + 1
  }

  function LockEvents(rp: seq<(Id, Permission)>): (t: seq<Event>)
    ensures |t| == |rp|
    ensures forall i :: 0 <= i < |t| ==> t[i] == Lock(rp[i].0, rp[i].1)
  {
    seq(|rp|, i requires 0 <= i < |rp| => Lock(rp[i].0, rp[i].1))
  }

  function UnlockEvents(rp: seq<(Id, Permission)>): (t: seq<Event>)
    ensures |t| == |rp|
    ensures forall i :: 0 <= i < |t| ==> t[i] == Unlock(rp[i].0, rp[i].1)
  {
    seq(|rp|, i requires 0 <= i < |rp| => Unlock(rp[i].0, rp[i].1))
  }

  /** The events of checking, letting observers cancel, and running the domain logic. */
  function RunEvents(h: Hooks, hasManager: bool): seq<Event>
  {
    [CheckAbleToOperate]
    + (if ObservesOperation(h, hasManager) then [WillOperate] else [])
    + (if RunsDomainLogic(h, hasManager) then [OperateInternal] else [])
  }

  /** The events of checking, deciding, running and post-processing. */
  function DecideEvents(h: Hooks, hasManager: bool): seq<Event>
  {
    RunEvents(h, hasManager)
    + (if PostProcesses(h, hasManager) then [PostProcess] else [])
  }

  /** The events of summarizing, serializing the log and notifying DID_OPERATE observers. */
  function ConcludeEvents(h: Hooks, hasManager: bool, logStart: nat): seq<Event>
  {
    [Summary(SummarySeverity(OutcomeCode(OperateOutcome(h, hasManager))))]
    + [SerializeLog(logStart, logStart + LoggedDuring(h, hasManager))]
    + (if ObservesOperation(h, hasManager) then [DidOperate] else [])
  }

  /** The events between locking and unlocking. */
  function MiddleEvents(h: Hooks, hasManager: bool, logStart: nat): seq<Event>
  {
    DecideEvents(h, hasManager) + ConcludeEvents(h, hasManager, logStart)
  }

  /** Regrouping a trace; asserting this inline inside Operation.Operate is far costlier to verify. */
  lemma TraceComposes<T>(t: seq<T>, locks: seq<T>, middle: seq<T>, unlocks: seq<T>)
    ensures t + locks + middle + unlocks == t + (locks + middle + unlocks)
  {
  }

  /** The whole event sequence of one operate() call whose log starts at logStart. */
  function OperateTrace(h: Hooks, hasManager: bool, logStart: nat): seq<Event>
  {
    LockEvents(h.resourcesAndPermissions) + MiddleEvents(h, hasManager, logStart)
      + UnlockEvents(h.resourcesAndPermissions)
  }

  /** The (resource, permission) pairs a trace locks, counted with multiplicity. */
  function Locked(t: seq<Event>): multiset<(Id, Permission)>
  {
    if t == [] then multiset{}
    else (if t[0].Lock? then multiset{(t[0].resource, t[0].permission)} else multiset{}) + Locked(t[1..])
  }

  /** The (resource, permission) pairs a trace unlocks, counted with multiplicity. */
  function Unlocked(t: seq<Event>): multiset<(Id, Permission)>
  {
    if t == [] then multiset{}
    else (if t[0].Unlock? then multiset{(t[0].resource, t[0].permission)} else multiset{}) + Unlocked(t[1..])
  }

  lemma {:induction false} LockedAppend(a: seq<Event>, b: seq<Event>)
    ensures Locked(a + b) == Locked(a) + Locked(b)
    ensures Unlocked(a + b) == Unlocked(a) + Unlocked(b)
    decreases |a|
  {
    if a == [] {
      assert a + b == b;
    } else {
      assert (a + b)[0] == a[0];
      assert (a + b)[1..] == a[1..] + b;
      LockedAppend(a[1..], b);
    }
  }

  lemma {:induction false} LockEventsLockAll(rp: seq<(Id, Permission)>)
    ensures Locked(LockEvents(rp)) == multiset(rp) && Unlocked(LockEvents(rp)) == multiset{}
    ensures Unlocked(UnlockEvents(rp)) == multiset(rp) && Locked(UnlockEvents(rp)) == multiset{}
    decreases |rp|
  {
    if rp != [] {
      assert LockEvents(rp)[1..] == LockEvents(rp[1..]);
      assert UnlockEvents(rp)[1..] == UnlockEvents(rp[1..]);
      assert rp == [rp[0]] + rp[1..];
      LockEventsLockAll(rp[1..]);
    }
  }

  /** The middle of operate() neither locks nor unlocks. */
  lemma {:induction false} MiddleLocksNothing(h: Hooks, hasManager: bool, logStart: nat)
    ensures Locked(MiddleEvents(h, hasManager, logStart)) == multiset{}
    ensures Unlocked(MiddleEvents(h, hasManager, logStart)) == multiset{}
  {
    NoLockEventsLockNothing(MiddleEvents(h, hasManager, logStart));
  }

  lemma {:induction false} NoLockEventsLockNothing(t: seq<Event>)
    requires forall e :: e in t ==> !e.Lock? && !e.Unlock?
    ensures Locked(t) == multiset{} && Unlocked(t) == multiset{}
    decreases |t|
  {
    if t != [] {
      assert t[0] in t;
      assert forall e :: e in t[1..] ==> e in t;
      NoLockEventsLockNothing(t[1..]);
    }
  }

  /**
   * operate() unlocks exactly what it locks: every requested (resource,
   * permission) pair is locked once and unlocked once.
   */
  lemma OperateLocksBalance(h: Hooks, hasManager: bool, logStart: nat)
    ensures Locked(OperateTrace(h, hasManager, logStart)) == multiset(h.resourcesAndPermissions)
    ensures Unlocked(OperateTrace(h, hasManager, logStart)) == multiset(h.resourcesAndPermissions)
  {
    var rp := h.resourcesAndPermissions;
    var m := MiddleEvents(h, hasManager, logStart);
    LockedAppend(LockEvents(rp), m);
    LockedAppend(LockEvents(rp) + m, UnlockEvents(rp));
    LockEventsLockAll(rp);
    MiddleLocksNothing(h, hasManager, logStart);
  }

  /** An event that neither locks nor unlocks is in the trace exactly when it is among the middle events. */
  lemma OnlyMiddleEventsBetweenLocks(h: Hooks, hasManager: bool, logStart: nat, e: Event)
    requires !e.Lock? && !e.Unlock?
    ensures e in OperateTrace(h, hasManager, logStart) <==> e in MiddleEvents(h, hasManager, logStart)
  {
    var rp := h.resourcesAndPermissions;
    assert e !in LockEvents(rp);
    assert e !in UnlockEvents(rp);
  }

  /**
   * Observers are notified in pairs: WILL_OPERATE observers are called
   * exactly when DID_OPERATE observers are, which is when there is a manager
   * and the operation is able to operate, whether or not it is canceled.
   */
  lemma ObserversCalledInPairs(h: Hooks, hasManager: bool, logStart: nat)
    ensures WillOperate in OperateTrace(h, hasManager, logStart) <==> hasManager && h.parametersValid
    ensures DidOperate in OperateTrace(h, hasManager, logStart) <==> hasManager && h.parametersValid
  {
    OnlyMiddleEventsBetweenLocks(h, hasManager, logStart, WillOperate);
    OnlyMiddleEventsBetweenLocks(h, hasManager, logStart, DidOperate);
    assert WillOperate in MiddleEvents(h, hasManager, logStart) <==> WillOperate in RunEvents(h, hasManager);
    assert DidOperate in MiddleEvents(h, hasManager, logStart) <==> DidOperate in ConcludeEvents(h, hasManager, logStart);
  }

  /** An operation unable to operate notifies no observer and runs no domain logic. */
  lemma UnableToOperateDoesNothing(h: Hooks, hasManager: bool, logStart: nat)
    requires !h.parametersValid
    ensures OperateOutcome(h, hasManager) == UnableToOperate
    ensures var t := OperateTrace(h, hasManager, logStart);
      WillOperate !in t && OperateInternal !in t && PostProcess !in t && DidOperate !in t
  {
    var rp := h.resourcesAndPermissions;
    var middle := [CheckAbleToOperate, Summary(SummarySeverity(OutcomeCode(UnableToOperate))),
                   SerializeLog(logStart, logStart + 1)];
    assert MiddleEvents(h, hasManager, logStart) == middle;
    assert OperateTrace(h, hasManager, logStart) == LockEvents(rp) + middle + UnlockEvents(rp);
  }

  /**
   * The domain logic runs exactly when the operation is able and not
   * canceled, and its result is post-processed exactly when it succeeds.
   */
  lemma DomainLogicRunsUnlessStopped(h: Hooks, hasManager: bool, logStart: nat)
    ensures OperateInternal in OperateTrace(h, hasManager, logStart) <==> RunsDomainLogic(h, hasManager)
    ensures PostProcess in OperateTrace(h, hasManager, logStart) <==>
      (RunsDomainLogic(h, hasManager) && OperateOutcome(h, hasManager) == Succeeded)
  {
  }

  /**
   * Every call summarizes its outcome and serializes a nonempty run of log
   * records starting where the call began.
   */
  lemma AlwaysSummarizedAndSerialized(h: Hooks, hasManager: bool, logStart: nat)
    ensures Summary(SummarySeverity(OutcomeCode(OperateOutcome(h, hasManager)))) in OperateTrace(h, hasManager, logStart)
    ensures exists logEnd :: logEnd > logStart && SerializeLog(logStart, logEnd) in OperateTrace(h, hasManager, logStart)
  {
  }

  /**
   * extractResultDefinition: the definition a specification designates as the
   * result of the operation with this unique name, when it has one.
   */
  function ExtractResultDefinition(spec: AttributeResource, uniqueName: string): (r: Option<string>)
    ensures r.Some? ==> r.value in spec.definitions
    ensures r.None? <==> (uniqueName !in spec.resultDefinitionOf || spec.resultDefinitionOf[uniqueName] !in spec.definitions)
  {
    if uniqueName in spec.resultDefinitionOf && spec.resultDefinitionOf[uniqueName] in spec.definitions
    then Some(spec.resultDefinitionOf[uniqueName]) else None
  }

  const NoParametersText := "Could not identify parameters attribute definition for operation \""
  const NoResultDefinitionText := "Could not identify result attribute definition for operation \""

  /** The error logged when an operation's parameters cannot be found. */
  function MissingParameters(classname: string): (r: LogRecord)
    ensures r.severity == Error
  {
    LogRecord(Error, NoParametersText + classname + "\".")
  }

  /** The error logged when an operation's result definition cannot be found. */
  function MissingResultDefinition(classname: string): (r: LogRecord)
    ensures r.severity == Error
  {
    LogRecord(Error, NoResultDefinitionText + classname + "\".")
  }

  /** The ids a sequence holds. */
  function Elements(ids: seq<Id>): (r: set<Id>)
    ensures forall x :: x in r <==> x in ids
  {
    set x | x in ids
  }

  /** Registry data a manager holds for an operation type. */
  datatype Metadata = Metadata(uniqueName: string, specification: AttributeResource)

  /** The operation's manager, with the metadata it holds for this operation's type, if any. */
  datatype Manager = Manager(metadata: Option<Metadata>)

  class Operation {
    const classname: string
    const logger: Logger
    /** The specification createSpecification() builds when no manager is attached. */
    const createdSpecification: AttributeResource
    const manager: Option<Manager>
    var specification: AttributeResource?
    var parameters: Option<Id>
    var resultDefinition: Option<string>
    var results: seq<Id>
    var debugLevel: int
    ghost var trace: seq<Event>
    /** The resource locks held, as (resource, permission) pairs. */
    ghost var heldLocks: multiset<(Id, Permission)>

    /**
     * What holds from construction on: a manager only creates operations it
     * holds metadata for, and the result definition the specification
     * designates for this operation, when it has one, has an "outcome" and a
     * "log" item.
     */
    ghost predicate WellFormed()
    {
      && (manager.Some? ==> manager.value.metadata.Some?)
      && (var r := ExtractResultDefinition(SpecificationSource(), UniqueName());
          r.Some? ==> IsResultDefinition(SpecificationSource().definitions[r.value]))
    }

    /**
     * The operation is well formed, the cached specification is the one the
     * operation resolves to, a cached result definition is a result
     * definition of that specification, and the specification hands out only
     * identities no stored attribute has.
     */
    ghost predicate Valid()
      reads this`specification, this`resultDefinition, SpecificationSource()
    {
      && WellFormed()
      && FreshIds(SpecificationSource().store)
      && (specification != null ==> specification == SpecificationSource())
      && (resultDefinition.Some? ==>
            resultDefinition.value in SpecificationSource().definitions &&
            IsResultDefinition(SpecificationSource().definitions[resultDefinition.value]))
    }

    constructor (classname: string, logger: Logger, createdSpecification: AttributeResource,
                 manager: Option<Manager>)
      requires manager.Some? ==> manager.value.metadata.Some?
      requires var s := if manager.Some? then manager.value.metadata.value.specification else createdSpecification;
        var name := if manager.Some? then manager.value.metadata.value.uniqueName else classname;
        name in s.resultDefinitionOf && s.resultDefinitionOf[name] in s.definitions ==>
          IsResultDefinition(s.definitions[s.resultDefinitionOf[name]])
      requires FreshIds((if manager.Some? then manager.value.metadata.value.specification else createdSpecification).store)
      ensures Valid()
      ensures this.classname == classname && this.logger == logger
      ensures this.createdSpecification == createdSpecification && this.manager == manager
      ensures specification == null && parameters == None && resultDefinition == None
      ensures results == [] && debugLevel == 0
    {
      this.classname := classname;
      this.logger := logger;
      this.createdSpecification := createdSpecification;
      this.manager := manager;
      specification := null;
      parameters := None;
      resultDefinition := None;
      results := [];
      debugLevel := 0;
      trace := [];
      heldLocks := multiset{};
    }

    /** The manager-registered unique name, falling back to the class name. */
    function UniqueName(): (name: string)
      ensures manager.Some? && manager.value.metadata.Some? ==> name == manager.value.metadata.value.uniqueName
      ensures manager.None? ==> name == classname
    {
      if manager.Some? && manager.value.metadata.Some? then manager.value.metadata.value.uniqueName
      else classname
    }

    /** The specification the operation uses: its manager's, or the one it creates itself. */
    function SpecificationSource(): AttributeResource
    {
      if manager.Some? && manager.value.metadata.Some? then manager.value.metadata.value.specification
      else createdSpecification
    }

    /** The parameters attribute the operation has or would find. */
    function ParametersLookup(): Option<Id>
      reads this`parameters, SpecificationSource()
    {
      if parameters.Some? then parameters
      else if UniqueName() in SpecificationSource().parametersOf
      then Some(SpecificationSource().parametersOf[UniqueName()])
      else None
    }

    /** The result definition the operation has or would find among the specification's definitions. */
    function ResultDefinitionLookup(): Option<string>
      reads this`resultDefinition
    {
      if resultDefinition.Some? then resultDefinition
      else ExtractResultDefinition(SpecificationSource(), UniqueName())
    }

    /** The parameters attribute can be found and is stored in the specification. */
    ghost predicate ParametersAvailable()
      reads this`parameters, SpecificationSource()
    {
      var p := ParametersLookup();
      p.Some? && p.value in SpecificationSource().store.attributes
    }

    /** Lazily resolve and cache the specification. */
    method Specification() returns (spec: AttributeResource)
      requires Valid()
      modifies this`specification
      ensures Valid()
      ensures spec == SpecificationSource() && specification == spec
    {
      if specification == null {
        if manager.Some? {
          specification := manager.value.metadata.value.specification;
        } else {
          specification := createdSpecification;
        }
      }
      spec := specification;
    }

    /** Lazily find and cache the parameters; log an error when there are none. */
    method Parameters() returns (p: Option<Id>)
      requires Valid()
      modifies this`specification, this`parameters, logger
      ensures Valid()
      ensures specification == old(specification) || specification == SpecificationSource()
      ensures p == old(ParametersLookup()) && parameters == p
      ensures p.Some? ==> logger.records == old(logger.records)
      ensures p.None? ==> (logger.records == old(logger.records) +
        [MissingParameters(classname)])
    {
      if parameters.None? {
        var spec := Specification();
        var name := UniqueName();
        parameters := if name in spec.parametersOf then Some(spec.parametersOf[name]) else None;
      }
      if parameters.None? {
        logger.records := logger.records +
          [MissingParameters(classname)];
      }
      p := parameters;
    }

    /**
     * The default ableToOperate: the parameters are valid. isValid is the
     * answer of Attribute::isValid on the parameters, which this model does
     * not compute.
     */
    method AbleToOperate(isValid: bool) returns (able: bool)
      requires Valid() && ParametersAvailable()
      modifies this`specification, this`parameters, logger
      ensures Valid() && (specification == old(specification) || specification == SpecificationSource())
      ensures able == isValid
      ensures parameters == old(ParametersLookup()) && parameters.Some?
      ensures logger.records == old(logger.records)
    {
      var p := Parameters();
      able := isValid;
    }

    /**
     * Create a result with the given outcome: the result definition is looked
     * up once and cached; a found definition yields a new result that is
     * remembered in results; otherwise an error is logged and there is no result.
     */
    method CreateResult(outcome: Outcome) returns (result: Option<Id>)
      requires Valid()
      modifies this`specification, this`resultDefinition, this`results, logger, SpecificationSource()
      ensures Valid() && specification == SpecificationSource()
      ensures resultDefinition == old(ResultDefinitionLookup())
      ensures resultDefinition.Some? ==>
        var rd := resultDefinition.value;
        && result == Some(old(SpecificationSource().store.nextId))
        && result.value !in old(SpecificationSource().store.attributes)
        && specification.store == Store(
             old(SpecificationSource().store.attributes)[result.value :=
               StampOutcome(Instantiate(rd, specification.definitions[rd]), OutcomeCode(outcome))],
             old(SpecificationSource().store.nextId) + 1)
        && results == old(results) + [result.value]
        && logger.records == old(logger.records)
      ensures resultDefinition.None? ==>
        && result == None
        && specification.store == old(SpecificationSource().store)
        && results == old(results)
        && logger.records == old(logger.records) +
             [MissingResultDefinition(classname)]
    {
      var spec := Specification();
      if resultDefinition.None? {
        resultDefinition := ExtractResultDefinition(spec, UniqueName());
      }
      result := None;
      if resultDefinition.Some? {
        result := spec.CreateAttribute(resultDefinition.value);
        results := results + [result.value];
      } else {
        logger.records := logger.records +
          [MissingResultDefinition(classname)];
      }
      if result.Some? {
        var a := spec.store.attributes[result.value];
        spec.PutAttribute(result.value, StampOutcome(a, OutcomeCode(outcome)));
      }
    }
      /** Log the outcome of result: at info level on success, at error level otherwise. */
    method GenerateSummary(result: Id)
      requires specification != null && result in specification.store.attributes
      requires "outcome" in specification.store.attributes[result].ints
      modifies logger, this`trace
      ensures var code := specification.store.attributes[result].ints["outcome"].value;
        && logger.records == old(logger.records) + [LogRecord(SummarySeverity(code), SummaryMessage(classname, code))]
        && trace == old(trace) + [Summary(SummarySeverity(code))]
    {
      var code := specification.store.attributes[result].ints["outcome"].value;
      logger.records := logger.records + [LogRecord(SummarySeverity(code), SummaryMessage(classname, code))];
      trace := trace + [Summary(SummarySeverity(code))];
    }

    /** Lock every (resource, permission) pair, in order. */
    method LockResources(rp: seq<(Id, Permission)>)
      modifies this`heldLocks, this`trace
      ensures heldLocks == old(heldLocks) + multiset(rp)
      ensures trace == old(trace) + LockEvents(rp)
    {
      var i := 0;
      while i < |rp|
        invariant 0 <= i <= |rp|
        invariant heldLocks == old(heldLocks) + multiset(rp[..i])
        invariant trace == old(trace) + LockEvents(rp[..i])
      {
        assert rp[..i + 1] == rp[..i] + [rp[i]];
        heldLocks, trace := heldLocks + multiset{rp[i]}, trace + [Lock(rp[i].0, rp[i].1)];
        i := i + 1;
      }
      assert rp[..|rp|] == rp;
    }

    /**
     * Unlock every (resource, permission) pair, in the same forward order as
     * they were locked; the locks held besides them are base.
     */
    method UnlockResources(rp: seq<(Id, Permission)>, ghost base: multiset<(Id, Permission)>)
      requires heldLocks == base + multiset(rp)
      modifies this`heldLocks, this`trace
      ensures heldLocks == base
      ensures trace == old(trace) + UnlockEvents(rp)
    {
      var i := 0;
      while i < |rp|
        invariant 0 <= i <= |rp|
        invariant heldLocks == base + multiset(rp[i..])
        invariant trace == old(trace) + UnlockEvents(rp[..i])
      {
        assert rp[i..] == [rp[i]] + rp[i + 1..];
        assert rp[..i + 1] == rp[..i] + [rp[i]];
        heldLocks := heldLocks - multiset{rp[i]};
        trace := trace + [Unlock(rp[i].0, rp[i].1)];
        i := i + 1;
      }
      assert rp[..|rp|] == rp;
    }

    /**
     * The decision part of operate(): an invalid operation gets an
     * UNABLE_TO_OPERATE result and no observers; otherwise WILL_OPERATE
     * observers (when there is a manager) may cancel it; otherwise the debug
     * level is read, the domain logic runs and a success is post-processed.
     * observe says whether DID_OPERATE observers are to be called.
     */
    method Execute(h: Hooks) returns (result: Id, observe: bool)
      requires Valid() && ParametersAvailable() && ResultDefinitionLookup().Some?
      requires specification == SpecificationSource()
      modifies this`specification, this`parameters, this`resultDefinition, this`results, this`debugLevel, this`trace
      modifies logger, specification
      ensures Valid() && specification == old(specification)
      ensures parameters == old(ParametersLookup()) && resultDefinition == old(ResultDefinitionLookup())
      ensures observe == (manager.Some? && h.parametersValid)
      ensures trace == old(trace) + DecideEvents(h, manager.Some?)
      ensures var rd := resultDefinition.value;
        && result == old(specification.store.nextId)
        && result !in old(specification.store.attributes)
        && specification.store == Store(
             old(specification.store.attributes)[result :=
               StampOutcome(Instantiate(rd, specification.definitions[rd]),
                            OutcomeCode(OperateOutcome(h, manager.Some?)))],
             result + 1)
      ensures results == old(results) + [result]
      ensures logger.records == old(logger.records) + HookLog(h, manager.Some?)
      ensures debugLevel ==
        if RunsDomainLogic(h, manager.Some?)
        then DebugLevelOf(old(specification.store.attributes[ParametersLookup().value]))
        else old(debugLevel)
    {
      var ran;
      ran, observe := Decide(h);
      var r := CreateResult(OperateOutcome(h, manager.Some?));
      var outcome := specification.store.attributes[r.value].ints["outcome"].value;
      PostProcessResult(h, ran, outcome, old(trace), old(logger.records));
      result := r.value;
    }

    /**
     * Post-process the domain logic's result when it ran and reported
     * success; post-processing logs its records. base and baseLog are the
     * trace and the log as they were before the ability check.
     */
    method PostProcessResult(h: Hooks, ran: bool, outcome: int,
                             ghost base: seq<Event>, ghost baseLog: seq<LogRecord>)
      requires ran == RunsDomainLogic(h, manager.Some?)
      requires outcome == OutcomeCode(OperateOutcome(h, manager.Some?))
      requires trace == base + RunEvents(h, manager.Some?)
      requires logger.records == baseLog
        + (if ObservesOperation(h, manager.Some?) then h.willOperateLog else [])
        + (if ran then h.internalLog else [])
      modifies this`trace, logger
      ensures trace == base + DecideEvents(h, manager.Some?)
      ensures logger.records == baseLog + HookLog(h, manager.Some?)
    {
      OutcomeCodeInjective(OperateOutcome(h, manager.Some?), Succeeded);
      if ran && outcome == OutcomeCode(Succeeded) {
        trace := trace + [PostProcess];
        logger.records := logger.records + h.postProcessLog;
      }
    }

    /**
     * Check that the operation is able to operate, let WILL_OPERATE observers
     * (when there is a manager) cancel it, and otherwise read the debug level
     * and run the domain logic, which logs its records. ran says whether the
     * domain logic ran; observe whether DID_OPERATE observers are to be called.
     */
    method Decide(h: Hooks) returns (ran: bool, observe: bool)
      requires Valid() && ParametersAvailable()
      requires specification == SpecificationSource()
      modifies this`specification, this`parameters, this`debugLevel, this`trace, logger
      ensures Valid() && specification == old(specification) && parameters == old(ParametersLookup())
      ensures ran == RunsDomainLogic(h, manager.Some?)
      ensures observe == (manager.Some? && h.parametersValid)
      ensures trace == old(trace) + RunEvents(h, manager.Some?)
      ensures logger.records == old(logger.records)
        + (if observe then h.willOperateLog else []) + (if ran then h.internalLog else [])
      ensures debugLevel ==
        if ran then DebugLevelOf(old(specification.store.attributes[ParametersLookup().value]))
        else old(debugLevel)
    {
      observe := manager.Some?;
      trace := trace + [CheckAbleToOperate];
      var able := AbleToOperate(h.parametersValid);
      ran := false;
      if !able {
        observe := false;
      } else {
        var cancel := false;
        if manager.Some? {
          trace := trace + [WillOperate];
          logger.records := logger.records + h.willOperateLog;
          cancel := h.willOperateCancels;
        }
        if !cancel {
          ran := true;
          debugLevel := DebugLevelOf(specification.store.attributes[parameters.value]);
          trace := trace + [OperateInternal];
          logger.records := logger.records + h.internalLog;
        }
      }
    }

    /**
     * Run the operation: lock the referenced resources, decide and run,
     * log a summary, copy this call's log records into the result's "log"
     * item, notify DID_OPERATE observers, and unlock the resources in the
     * order they were locked.
     */
    method Operate(h: Hooks) returns (result: Id)
      requires Valid() && ParametersAvailable()
      requires ResultDefinitionLookup().Some?
      modifies this, logger, SpecificationSource()
      ensures Valid() && specification == SpecificationSource()
      ensures parameters == old(ParametersLookup()) && resultDefinition == old(ResultDefinitionLookup())
      ensures heldLocks == old(heldLocks)
      ensures trace == old(trace) + OperateTrace(h, manager.Some?, |old(logger.records)|)
      ensures result == old(SpecificationSource().store.nextId) && result !in old(SpecificationSource().store.attributes)
      ensures results == old(results) + [result]
      ensures var code := OutcomeCode(OperateOutcome(h, manager.Some?));
        logger.records == old(logger.records)
          + HookLog(h, manager.Some?)
          + [LogRecord(SummarySeverity(code), SummaryMessage(classname, code))]
          + (if ObservesOperation(h, manager.Some?) then h.didOperateLog else [])
      ensures var code := OutcomeCode(OperateOutcome(h, manager.Some?));
        var rd := resultDefinition.value;
        specification.store == Store(
          old(SpecificationSource().store.attributes)[result :=
            AppendLogEntry(StampOutcome(Instantiate(rd, specification.definitions[rd]), code),
                           Serialize(HookLog(h, manager.Some?)
                             + [LogRecord(SummarySeverity(code), SummaryMessage(classname, code))]))],
          result + 1)
      ensures debugLevel ==
        if RunsDomainLogic(h, manager.Some?)
        then DebugLevelOf(old(SpecificationSource().store.attributes[ParametersLookup().value]))
        else old(debugLevel)
    {
      var rp := h.resourcesAndPermissions;
      LockResources(rp);
      result := Run(h);
      UnlockResources(rp, old(heldLocks));
      TraceComposes(old(trace), LockEvents(rp), MiddleEvents(h, manager.Some?, |old(logger.records)|), UnlockEvents(rp));
    }

    /**
     * Everything operate() does between locking and unlocking the resources:
     * decide and run, log a summary, copy this call's log records into the
     * result's "log" item and notify DID_OPERATE observers.
     */
    method Run(h: Hooks) returns (result: Id)
      requires Valid() && ParametersAvailable()
      requires ResultDefinitionLookup().Some?
      modifies this`specification, this`parameters, this`resultDefinition, this`results, this`debugLevel, this`trace
      modifies logger, SpecificationSource()
      ensures Valid() && specification == SpecificationSource()
      ensures parameters == old(ParametersLookup()) && resultDefinition == old(ResultDefinitionLookup())
      ensures trace == old(trace) + MiddleEvents(h, manager.Some?, |old(logger.records)|)
      ensures result == old(SpecificationSource().store.nextId) && result !in old(SpecificationSource().store.attributes)
      ensures results == old(results) + [result]
      ensures var code := OutcomeCode(OperateOutcome(h, manager.Some?));
        logger.records == old(logger.records)
          + HookLog(h, manager.Some?)
          + [LogRecord(SummarySeverity(code), SummaryMessage(classname, code))]
          + (if ObservesOperation(h, manager.Some?) then h.didOperateLog else [])
      ensures var code := OutcomeCode(OperateOutcome(h, manager.Some?));
        var rd := resultDefinition.value;
        specification.store == Store(
          old(SpecificationSource().store.attributes)[result :=
            AppendLogEntry(StampOutcome(Instantiate(rd, specification.definitions[rd]), code),
                           Serialize(HookLog(h, manager.Some?)
                             + [LogRecord(SummarySeverity(code), SummaryMessage(classname, code))]))],
          result + 1)
      ensures debugLevel ==
        if RunsDomainLogic(h, manager.Some?)
        then DebugLevelOf(old(SpecificationSource().store.attributes[ParametersLookup().value]))
        else old(debugLevel)
    {
      var spec := Specification();
      var logStart := |logger.records|;
      var observePostOperation;
      ghost var attributes0: map<Id, Attribute> := specification.store.attributes;
      result, observePostOperation := Execute(h);
      ghost var rd := resultDefinition.value;
      ghost var stamped := StampOutcome(Instantiate(rd, specification.definitions[rd]),
                                        OutcomeCode(OperateOutcome(h, manager.Some?)));
      assert specification.store.attributes[result] == stamped;
      ghost var code := OutcomeCode(OperateOutcome(h, manager.Some?));
      ghost var summary := LogRecord(SummarySeverity(code), SummaryMessage(classname, code));
      assert logger.records[logStart..] == HookLog(h, manager.Some?);
      Conclude(h, result, logStart, observePostOperation, old(trace));
      PutOverrides(attributes0, result + 1, result, stamped,
                   AppendLogEntry(stamped, Serialize(HookLog(h, manager.Some?) + [summary])));
    }

    /**
     * The tail of operate(): log the summary, copy this call's log records
     * into the result and notify DID_OPERATE observers when observe holds.
     * The hooks h and the log position say what the call so far has done.
     */
    method Conclude(h: Hooks, result: Id, logStart: nat, observe: bool, ghost base: seq<Event>)
      requires specification != null && result in specification.store.attributes
      requires "log" in specification.store.attributes[result].strings
      requires var ints := specification.store.attributes[result].ints;
        "outcome" in ints && ints["outcome"].value == OutcomeCode(OperateOutcome(h, manager.Some?))
      requires logStart <= |logger.records| && logger.records[logStart..] == HookLog(h, manager.Some?)
      requires observe == ObservesOperation(h, manager.Some?)
      requires trace == base + DecideEvents(h, manager.Some?)
      modifies logger, specification, this`trace
      ensures specification == old(specification)
      ensures var code := OutcomeCode(OperateOutcome(h, manager.Some?));
        logger.records == old(logger.records) + [LogRecord(SummarySeverity(code), SummaryMessage(classname, code))]
          + (if observe then h.didOperateLog else [])
      ensures trace == base + MiddleEvents(h, manager.Some?, logStart)
      ensures var code := OutcomeCode(OperateOutcome(h, manager.Some?));
        specification.store == Put(old(specification.store), result,
          AppendLogEntry(old(specification.store.attributes[result]),
            Serialize(HookLog(h, manager.Some?) + [LogRecord(SummarySeverity(code), SummaryMessage(classname, code))])))
    {
      GenerateSummary(result);
      assert logger.records[logStart..] == old(logger.records)[logStart..] + [logger.records[|logger.records| - 1]];
      RecordLog(result, logStart);
      NotifyDidOperate(h, observe, logStart, base);
    }

    /**
     * Notify the DID_OPERATE observers when observe holds; they log their
     * records. base is the trace as it was before the ability check.
     */
    method NotifyDidOperate(h: Hooks, observe: bool, logStart: nat, ghost base: seq<Event>)
      requires observe == ObservesOperation(h, manager.Some?)
      requires trace == base + DecideEvents(h, manager.Some?)
        + [Summary(SummarySeverity(OutcomeCode(OperateOutcome(h, manager.Some?))))]
        + [SerializeLog(logStart, logStart + LoggedDuring(h, manager.Some?))]
      modifies this`trace, logger
      ensures trace == base + MiddleEvents(h, manager.Some?, logStart)
      ensures logger.records == old(logger.records) + (if observe then h.didOperateLog else [])
    {
      if observe {
        trace := trace + [DidOperate];
        logger.records := logger.records + h.didOperateLog;
      }
      assert trace == base + (DecideEvents(h, manager.Some?) + ConcludeEvents(h, manager.Some?, logStart));
    }

    /**
     * Copy the log records written since logStart, serialized, into the
     * result's "log" item, when there are any.
     */
    method RecordLog(result: Id, logStart: nat)
      requires specification != null && result in specification.store.attributes
      requires "log" in specification.store.attributes[result].strings
      modifies specification, this`trace
      ensures specification == old(specification)
      ensures var n := |logger.records|;
        && specification.store ==
             (if n > logStart
              then Put(old(specification.store), result,
                       AppendLogEntry(old(specification.store.attributes[result]), Serialize(logger.records[logStart..])))
              else old(specification.store))
        && trace == old(trace) + (if n > logStart then [SerializeLog(logStart, n)] else [])
    {
      var logEnd := |logger.records|;
      if logEnd > logStart {
        var a := specification.store.attributes[result];
        specification.PutAttribute(result, AppendLogEntry(a, Serialize(logger.records[logStart..])));
        trace := trace + [SerializeLog(logStart, logEnd)];
      }
    }

    /**
     * The destructor: when the specification was resolved, remove the cached
     * parameters (if any) and every result this operation created from it.
     */
    method Destroy()
      modifies specification
      ensures specification != null ==>
        && specification.store.nextId == old(specification.store.nextId)
        && specification.store.attributes ==
             old(specification.store.attributes)
               - (if parameters.Some? then {parameters.value} else {})
               - Elements(results)
    {
      if specification != null {
        if parameters.Some? {
          var _ := specification.RemoveAttribute(parameters.value);
        }
        ghost var afterParameters := specification.store.attributes;
        var i := 0;
        while i < |results|
          invariant 0 <= i <= |results|
          invariant specification.store.nextId == old(specification.store.nextId)
          invariant specification.store.attributes == afterParameters - Elements(results[..i])
        {
          var _ := specification.RemoveAttribute(results[i]);
          assert results[..i + 1] == results[..i] + [results[i]];
          i := i + 1;
        }
        assert results[..|results|] == results;
      }
    }
  }
}
