/**
 * Session transcription bookkeeping of a modeling-kernel bridge
 * (smtk/model/Bridge.cxx): the map of dangling entities to the information
 * bits already present, transcription with partial-success reporting, and the
 * operator lookups a bridge offers its subclasses.
 */
module Bridges {
  import opened Common

  /**
   * BridgedInfoBits: a bit vector of kinds of information about an entity,
   * held as the set of positions of its one bits; `&` is intersection.
   */
  type InfoBits = set<nat>

  /** BRIDGE_EVERYTHING, what the base bridge can transcribe: the eight low bits. */
  const BridgeEverything: InfoBits := set i: nat | i < 8

  /** An entity (a cursor's UUID) and a session id (a UUID). */
  type EntityId = nat
  type SessionId = nat

  /** `bits` include every bit of `required`. */
  predicate Covers(bits: InfoBits, required: InfoBits)
  {
    required <= bits
  }

  /**
   * What an operator constructor yields when called: an operator, remote or
   * not, or a null pointer.
   */
  datatype Constructor = Constructor(makesOperator: bool, remote: bool)

  /** One entry of a bridge's operator table: its XML description and its constructor, which may be empty. */
  datatype OperatorEntry = OperatorEntry(xml: string, ctor: Option<Constructor>)

  /** An operator op() hands out: bound to a bridge and a manager; a remote one also carries the name it was asked for. */
  datatype Operator = Operator(remote: bool, bridge: SessionId, manager: Option<Id>, remoteName: Option<string>)

  /** findOperatorXMLInternal: the XML registered under opName, or "" when there is no table or no entry. */
  function FindOperatorXMLInternal(opName: string, opList: Option<map<string, OperatorEntry>>): (xml: string)
    ensures opList.None? || opName !in opList.value ==> xml == ""
    ensures opList.Some? && opName in opList.value ==> xml == opList.value[opName].xml
  {
    if opList.None? then ""
    else if opName !in opList.value then ""
    else opList.value[opName].xml
  }

  /** findOperatorConstructorInternal: the constructor registered under opName, or an empty one. */
  function FindOperatorConstructorInternal(opName: string, opList: Option<map<string, OperatorEntry>>): (ctor: Option<Constructor>)
    ensures opList.None? || opName !in opList.value ==> ctor.None?
    ensures opList.Some? && opName in opList.value ==> ctor == opList.value[opName].ctor
  {
    if opList.None? then None
    else if opName !in opList.value then None
    else opList.value[opName].ctor
  }

  /** A name with non-empty XML or a constructor is one the table registers. */
  lemma LookupsFindOnlyRegistered(opName: string, opList: Option<map<string, OperatorEntry>>)
    ensures FindOperatorXMLInternal(opName, opList) != "" ==> opList.Some? && opName in opList.value
    ensures FindOperatorConstructorInternal(opName, opList).Some? ==> opList.Some? && opName in opList.value
  {
  }

  /** The result of one transcribe() call: its return value, the new dangling map, and whether transcribeInternal was asked. */
  datatype Transcribed = Transcribed(result: int, dangling: map<EntityId, InfoBits>, askedInternal: bool)

  /**
   * transcribe(), given the dangling map d, the supported bits, and what
   * transcribeInternal does when it is asked: the declareDanglingEntity calls
   * it makes, in order (`declared`), and the bits it reports (`actual`).
   */
  function Transcription(d: map<EntityId, InfoBits>, supported: InfoBits, entity: EntityId,
                         requested: InfoBits, onlyDangling: bool,
                         declared: seq<(EntityId, InfoBits)>, actual: InfoBits): (t: Transcribed)
    // A zero request fails and changes nothing.
    ensures requested == {} ==> t == Transcribed(0, d, false)
    // An entity not known to dangle is refused without asking the subclass.
    ensures requested != {} && onlyDangling && entity !in d ==> t == Transcribed(0, d, false)
    // Otherwise the subclass is asked, and the call succeeds exactly when the
    // answer covers the supported part of the request.
    ensures t.askedInternal <==> requested != {} && (entity in d || !onlyDangling)
    ensures t.result == 0 || t.result == 1
    ensures t.askedInternal ==> (t.result == 1 <==> Covers(actual, requested * supported))
    // When asked, the subclass's declarations add entities; other entries keep their bits.
    ensures t.askedInternal ==>
      forall e :: e != entity ==> (e in t.dangling <==> e in d || e in ShortDeclared(declared, supported))
    ensures forall e :: e in t.dangling && (!t.askedInternal || e !in ShortDeclared(declared, supported)) ==>
      e in d && t.dangling[e] == d[e]
    ensures t.askedInternal ==>
      forall e :: e in t.dangling && e in ShortDeclared(declared, supported) ==> !Covers(t.dangling[e], supported)
    // An entity that dangled before the call leaves the map exactly when the
    // answer covers everything supported, whatever the subclass declared.
    ensures entity in d ==> (entity !in t.dangling <==> requested != {} && Covers(actual, supported))
    // One that did not dangle before is dangling afterwards exactly when the subclass declared it so.
    ensures entity !in d && t.askedInternal ==> (entity in t.dangling <==> entity in ShortDeclared(declared, supported))
  {
    if requested == {} then Transcribed(0, d, false)
    else if onlyDangling && entity !in d then Transcribed(0, d, false)
    else
      var honorable := requested * supported;
      var result := if honorable * actual == honorable then 1 else 0;
      var declaredMap := DeclareAll(d, supported, declared);
      if actual * supported == supported && entity in d then Transcribed(result, declaredMap - {entity}, true)
      else Transcribed(result, declaredMap, true)
  }

  /** The entities that a sequence of declarations marks dangling: those declared with bits falling short. */
  function ShortDeclared(declared: seq<(EntityId, InfoBits)>, supported: InfoBits): set<EntityId>
  {
    if declared == [] then {}
    else
      var last := declared[|declared| - 1];
      ShortDeclared(declared[..|declared| - 1], supported) + (if Covers(last.1, supported) then {} else {last.0})
  }

  /** Successive declareDanglingEntity calls, in order. */
  function DeclareAll(d: map<EntityId, InfoBits>, supported: InfoBits,
                      declared: seq<(EntityId, InfoBits)>): (r: map<EntityId, InfoBits>)
    ensures r.Keys == d.Keys + ShortDeclared(declared, supported)
    ensures forall e :: e in d && e !in ShortDeclared(declared, supported) ==> r[e] == d[e]
    ensures forall e :: e in ShortDeclared(declared, supported) ==> !Covers(r[e], supported)
  {
    if declared == [] then d
    else
      var last := declared[|declared| - 1];
      DeclareDangling(DeclareAll(d, supported, declared[..|declared| - 1]), supported, last.0, last.1)
  }

  /**
   * declareDanglingEntity: record `present` for entity when it falls short of
   * the supported bits. The source compares the masked bits numerically
   * (`<`); MaskedBelowMeansShortfall shows that this is the proper-subset
   * test used here.
   */
  function DeclareDangling(d: map<EntityId, InfoBits>, supported: InfoBits, entity: EntityId,
                           present: InfoBits): (r: map<EntityId, InfoBits>)
    ensures r == if Covers(present, supported) then d else d[entity := present]
  {
    if present * supported < supported then d[entity := present] else d
  }

  /** 2 to the power i. */
  function Pow2(i: nat): (p: nat)
    ensures p >= 1
  {
    if i == 0 then 1 else 2 * Pow2(i - 1)
  }

  /** The number whose one bits are the positions in `bits` below n. */
  function BitsValue(bits: InfoBits, n: nat): nat
  {
    if n == 0 then 0 else BitsValue(bits, n - 1) + (if n - 1 in bits then Pow2(n - 1) else 0)
  }

  /** Fewer bits never make a larger number. */
  lemma {:induction false} BitsValueMonotone(sub: InfoBits, bits: InfoBits, n: nat)
    requires sub <= bits
    ensures BitsValue(sub, n) <= BitsValue(bits, n)
  {
    if n > 0 {
      BitsValueMonotone(sub, bits, n - 1);
    }
  }

  /** Missing one bit below n makes the number smaller. */
  lemma {:induction false} BitsValueStrict(sub: InfoBits, bits: InfoBits, n: nat, j: nat)
    requires sub <= bits && j in bits && j !in sub && j < n
    ensures BitsValue(sub, n) < BitsValue(bits, n)
  {
    if j == n - 1 {
      BitsValueMonotone(sub, bits, n - 1);
    } else {
      BitsValueStrict(sub, bits, n - 1, j);
    }
  }

  /**
   * For a mask whose bits all lie below n, the masked value is numerically
   * below the mask exactly when some bit of the mask is missing, so the
   * source's `<` is the shortfall test.
   */
  lemma MaskedBelowMeansShortfall(present: InfoBits, supported: InfoBits, n: nat)
    requires forall i :: i in supported ==> i < n
    ensures BitsValue(present * supported, n) < BitsValue(supported, n) <==> !Covers(present, supported)
  {
    var masked := present * supported;
    if !Covers(present, supported) {
      assert masked != supported;
      var j :| j in supported && j !in present;
      BitsValueStrict(masked, supported, n, j);
    } else {
      assert masked == supported;
    }
  }

  /** The default transcribeInternal transcribes nothing. */
  function DefaultTranscribeInternal(entity: EntityId, flags: InfoBits): InfoBits
  {
    {}
  }

  /**
   * Extra bits in the subclass's answer never turn a success into a failure
   * nor keep a fully transcribed entity dangling.
   */
  lemma ExtraBitsAreHarmless(d: map<EntityId, InfoBits>, supported: InfoBits, entity: EntityId,
                             requested: InfoBits, onlyDangling: bool, declared: seq<(EntityId, InfoBits)>,
                             actual: InfoBits, more: InfoBits)
    ensures var t := Transcription(d, supported, entity, requested, onlyDangling, declared, actual);
      var u := Transcription(d, supported, entity, requested, onlyDangling, declared, actual + more);
      && (t.result == 1 ==> u.result == 1)
      && (entity !in t.dangling ==> entity !in u.dangling)
  {
    var t := Transcription(d, supported, entity, requested, onlyDangling, declared, actual);
    if t.askedInternal && t.result == 1 {
      assert Covers(actual + more, requested * supported);
    }
    if t.askedInternal && entity in d && entity !in t.dangling {
      assert Covers(actual + more, supported);
    }
  }

  /**
   * The base bridge (everything supported, nothing transcribed) fails every
   * request that asks for a supported bit.
   */
  lemma BaseBridgeFails(d: map<EntityId, InfoBits>, entity: EntityId, requested: InfoBits, onlyDangling: bool)
    requires requested * BridgeEverything != {}
    ensures Transcription(d, BridgeEverything, entity, requested, onlyDangling, [],
                          DefaultTranscribeInternal(entity, requested)).result == 0
    ensures Transcription(d, BridgeEverything, entity, requested, onlyDangling, [],
                          DefaultTranscribeInternal(entity, requested)).dangling == d
  {
    assert !Covers({}, requested * BridgeEverything);
  }

  /**
   * A request for unsupported bits only succeeds whatever the subclass
   * answers, once the subclass is asked.
   */
  lemma UnsupportedRequestSucceeds(d: map<EntityId, InfoBits>, supported: InfoBits, entity: EntityId,
                                   requested: InfoBits, onlyDangling: bool,
                                   declared: seq<(EntityId, InfoBits)>, actual: InfoBits)
    requires requested != {} && requested * supported == {}
    requires entity in d || !onlyDangling
    ensures Transcription(d, supported, entity, requested, onlyDangling, declared, actual).result == 1
  {
    assert Covers(actual, requested * supported);
  }

  /**
   * Declaring an entity that falls short and then transcribing everything
   * supported for it succeeds and leaves it no longer dangling; a second
   * transcription restricted to dangling entities is then refused without
   * asking the subclass.
   */
  lemma DeclareThenTranscribe(d: map<EntityId, InfoBits>, supported: InfoBits, entity: EntityId,
                              present: InfoBits, declared: seq<(EntityId, InfoBits)>, actual: InfoBits,
                              requested: InfoBits)
    requires !Covers(present, supported) && Covers(actual, supported) && requested != {}
    ensures var d1 := DeclareDangling(d, supported, entity, present);
      var t := Transcription(d1, supported, entity, requested, true, declared, actual);
      && entity in d1 && d1[entity] == present
      && t.result == 1 && entity !in t.dangling
      && !Transcription(t.dangling, supported, entity, requested, true, declared, actual).askedInternal
  {
    var d1 := DeclareDangling(d, supported, entity, present);
    assert Covers(actual, requested * supported);
  }

  /**
   * An entity the bridge did not know to dangle, which the subclass transcribes
   * only partly and declares dangling during the call, is dangling afterwards
   * with the bits it declared: the erase only applies to an entity found before
   * the call.
   */
  lemma DeclaredDuringTranscriptionDangles(d: map<EntityId, InfoBits>, supported: InfoBits, entity: EntityId,
                                           requested: InfoBits, present: InfoBits, actual: InfoBits)
    requires entity !in d && requested != {} && !Covers(present, supported)
    ensures var t := Transcription(d, supported, entity, requested, false, [(entity, present)], actual);
      && t.askedInternal && entity in t.dangling && t.dangling[entity] == present
      && forall e :: e in d ==> e in t.dangling && t.dangling[e] == d[e]
  {
    assert [(entity, present)][..0] == [];
  }

  class Bridge {
    var sessionId: SessionId
    var dangling: map<EntityId, InfoBits>
    /** allSupportedInformation(): BridgeEverything for the base bridge, a subclass may narrow it. */
    const supported: InfoBits
    /** The operator table a subclass registers, or none. */
    const operators: Option<map<string, OperatorEntry>>
    /** The (entity, bits) pairs transcribeInternal has been asked for, in order. */
    ghost var internalCalls: seq<(EntityId, InfoBits)>

    /** sessionId stands for the random UUID the constructor draws. */
    constructor (sessionId: SessionId, supported: InfoBits, operators: Option<map<string, OperatorEntry>>)
      ensures this.sessionId == sessionId && this.supported == supported && this.operators == operators
      ensures dangling == map[] && internalCalls == []
    {
      this.sessionId := sessionId;
      this.supported := supported;
      this.operators := operators;
      dangling := map[];
      internalCalls := [];
    }

    function SessionId(): SessionId
      reads this
    {
      sessionId
    }

    /** Make this bridge a mirror of another session. */
    method SetSessionId(id: SessionId)
      modifies this`sessionId
      ensures SessionId() == id
    {
      sessionId := id;
    }

    function AllSupportedInformation(): InfoBits
    {
      supported
    }

    /**
     * transcribe(): declared and actual are what transcribeInternal does for
     * this entity and request when it is asked, the declarations it makes and
     * the bits it reports.
     */
    method Transcribe(entity: EntityId, requested: InfoBits, onlyDangling: bool,
                      declared: seq<(EntityId, InfoBits)>, actual: InfoBits)
      returns (r: int)
      modifies this`dangling, this`internalCalls
      ensures var t := Transcription(old(dangling), supported, entity, requested, onlyDangling, declared, actual);
        && r == t.result && dangling == t.dangling
        && internalCalls == old(internalCalls) + (if t.askedInternal then [(entity, requested)] else [])
    {
      r := 0;
      if requested != {} {
        var found := entity in dangling;
        if onlyDangling && !found {
          return;
        }
        internalCalls := internalCalls + [(entity, requested)];
        for i := 0 to |declared|
          invariant dangling == DeclareAll(old(dangling), supported, declared[..i])
          invariant internalCalls == old(internalCalls) + [(entity, requested)]
        {
          assert declared[..i + 1][..i] == declared[..i];
          DeclareDanglingEntity(declared[i].0, declared[i].1);
        }
        assert declared[..|declared|] == declared;
        var honorable := requested * AllSupportedInformation();
        r := if honorable * actual == honorable then 1 else 0;
        if actual * AllSupportedInformation() == AllSupportedInformation() && found {
          dangling := dangling - {entity};
        }
      }
    }

    /** declareDanglingEntity(): mark entity as partially transcribed with the bits present. */
    method DeclareDanglingEntity(entity: EntityId, present: InfoBits)
      modifies this`dangling
      ensures dangling == DeclareDangling(old(dangling), supported, entity, present)
    {
      if present * AllSupportedInformation() < AllSupportedInformation() {
        dangling := dangling[entity := present];
      }
    }

    /** The constructor this bridge's table registers under opName, if any. */
    function FindOperatorConstructor(opName: string): Option<Constructor>
    {
      FindOperatorConstructorInternal(opName, operators)
    }

    /**
     * op(): a new operator of the named kind, bound to this bridge and the
     * given manager; null for an empty name, an unknown name, or a
     * constructor that yields nothing.
     */
    function Op(opName: string, manager: Option<Id>): (r: Option<Operator>)
      reads this
      ensures opName == [] ==> r.None?
      ensures FindOperatorConstructor(opName).None? ==> r.None?
      ensures r.Some? <==>
        opName != [] && FindOperatorConstructor(opName).Some? && FindOperatorConstructor(opName).value.makesOperator
      ensures r.Some? ==>
        && r.value.bridge == sessionId && r.value.manager == manager
        && r.value.remote == FindOperatorConstructor(opName).value.remote
        && (r.value.remoteName == if r.value.remote then Some(opName) else None)
    {
      if opName == [] then None
      else
        var ctor := FindOperatorConstructor(opName);
        if ctor.None? then None
        else if !ctor.value.makesOperator then None
        else
          var oper := Operator(ctor.value.remote, sessionId, manager, None);
          if oper.remote then Some(oper.(remoteName := Some(opName))) else Some(oper)
    }
  }
}
