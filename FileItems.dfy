/**
 * A file item: file names held in a vector of values with a parallel vector
 * of flags saying which values have been set.
 *
 * The accessors written inline in the class are modelled as they are: the
 * count, the value and flag at an element, the element-0 forms that delegate
 * to the element forms, and unset. Setting a value at an element and
 * rendering a value as text are defined out of line; they are given the
 * behaviour stated with Assign and ValueText below.
 */
module FileItems {

  /**
   * Setting the value at an element: in range, the value is stored and marked
   * as set and nothing else changes; out of range, nothing changes.
   */
  function Assign(values: seq<string>, isSet: seq<bool>, element: int, val: string)
    : (r: (bool, seq<string>, seq<bool>))
    requires |values| == |isSet|
    ensures r.0 <==> 0 <= element < |values|
    ensures |r.1| == |values| && |r.2| == |isSet|
    ensures r.0 ==> r.1[element] == val && r.2[element]
    ensures forall i :: 0 <= i < |values| && i != element ==> r.1[i] == values[i] && r.2[i] == isSet[i]
    ensures !r.0 ==> r.1 == values && r.2 == isSet
  {
    if 0 <= element < |values| then (true, values[element := val], isSet[element := true])
    else (false, values, isSet)
  }

  /** Clearing the flag at an element: that flag becomes false and every other stays. */
  function Cleared(isSet: seq<bool>, element: nat): (r: seq<bool>)
    requires element < |isSet|
    ensures |r| == |isSet| && !r[element]
    ensures forall i :: 0 <= i < |isSet| && i != element ==> r[i] == isSet[i]
  {
    isSet[element := false]
  }

  /** The text of a value; the format string is not interpreted in this model. */
  function ValueText(value: string, format: string): string
  {
    value
  }

  /** Unsetting a value that was just set keeps the value and only drops its flag. */
  lemma UnsetAfterAssign(values: seq<string>, isSet: seq<bool>, element: nat, val: string)
    requires |values| == |isSet| && element < |values|
    ensures var (ok, vs, fs) := Assign(values, isSet, element, val);
            && ok && vs[element] == val
            && Cleared(fs, element) == isSet[element := false]
  {
    var (ok, vs, fs) := Assign(values, isSet, element, val);
    assert Cleared(fs, element) == isSet[element := false];
  }

  class FileItem {
    var values: seq<string>
    var isSetFlags: seq<bool>

    /** The two vectors stay the same length. */
    ghost predicate Valid()
      reads this
    {
      |values| == |isSetFlags|
    }

    constructor (values: seq<string>, isSetFlags: seq<bool>)
      requires |values| == |isSetFlags|
      ensures Valid() && this.values == values && this.isSetFlags == isSetFlags
    {
      this.values := values;
      this.isSetFlags := isSetFlags;
    }

    /** numberOfValues: the length of the value vector. */
    function NumberOfValues(): (n: nat)
      reads this`values
      ensures n == |values|
    {
      |values|
    }

    /** value(element), element 0 by default: the stored value, read unchecked. */
    function Value(element: int := 0): (v: string)
      reads this`values
      requires 0 <= element < |values|
      ensures v == values[element]
    {
      values[element]
    }

    /** isSet(element), element 0 by default: the stored flag, read unchecked. */
    function IsSet(element: nat := 0): (b: bool)
      reads this`isSetFlags
      requires element < |isSetFlags|
      ensures b == isSetFlags[element]
    {
      isSetFlags[element]
    }

    /** setValue(element, val). */
    method SetValueAt(element: int, val: string) returns (ok: bool)
      requires Valid()
      modifies this
      ensures Valid()
      ensures (ok, values, isSetFlags) == Assign(old(values), old(isSetFlags), element, val)
    {
      ok := 0 <= element < |values|;
      if ok {
        values := values[element := val];
        isSetFlags := isSetFlags[element := true];
      }
    }

    /** setValue(val): exactly setValue(0, val). */
    method SetValue(val: string) returns (ok: bool)
      requires Valid()
      modifies this
      ensures Valid()
      ensures (ok, values, isSetFlags) == Assign(old(values), old(isSetFlags), 0, val)
    {
      ok := SetValueAt(0, val);
    }

    /** unset(element), element 0 by default: clears that flag and nothing else; the value stays. */
    method Unset(element: nat := 0)
      requires element < |isSetFlags|
      modifies this`isSetFlags
      ensures isSetFlags == Cleared(old(isSetFlags), element)
      ensures !IsSet(element)
    {
      isSetFlags := isSetFlags[element := false];
    }

    /** valueAsString(element, format). */
    function ValueAsStringAt(element: int, format: string): (s: string)
      reads this`values
      requires 0 <= element < |values|
      ensures s == ValueText(values[element], format)
    {
      ValueText(values[element], format)
    }

    /** valueAsString(format): exactly valueAsString(0, format). */
    function ValueAsString(format: string := ""): (s: string)
      reads this`values
      requires 0 < |values|
      ensures s == ValueAsStringAt(0, format)
    {
      ValueAsStringAt(0, format)
    }
  }
}
