/** The bit-field codec of sensor_pack_2/bitfield.py: named bit ranges over a
    plain integer, a store that extracts and updates them, and an iterator over
    the field descriptors. Python's truthiness tests are modelled explicitly:
    an index 0, an empty name, a source 0 and an empty range all count as
    "not given". */
module BitField {
  import opened Wrappers
  import opened Bits

  /** range(lo, hi) used as a set of allowed values */
  datatype Span = Span(lo: int, hi: int)
  {
    /** An empty Python range is falsy. */
    predicate Truthy() { lo < hi }

    predicate Contains(v: int) { lo <= v < hi }
  }

  /** bit_field_info: a name, the bit positions range(start, stop) and the
      optional range of values that set_field_value accepts. */
  datatype FieldInfo = FieldInfo(name: string, start: nat, stop: nat, validValues: Option<Span>)
  {
    /** len(position) */
    function Width(): nat { if start < stop then stop - start else 0 }

    predicate Covers(i: nat) { start <= i < stop }

    /** `rng and validate` in set_field_value, `item.valid_values and validate` in get_field_value */
    predicate Checked() { validValues.Some? && validValues.value.Truthy() }
  }

  /** Two fields occupy no common bit. */
  predicate Disjoint(f: FieldInfo, g: FieldInfo)
  {
    f.stop <= g.start || g.stop <= f.start
  }

  /** No two fields of the layout share a bit. */
  predicate PairwiseDisjoint(fields: seq<FieldInfo>)
  {
    forall j, k :: 0 <= j < k < |fields| ==> Disjoint(fields[j], fields[k])
  }

  /** No two fields of the layout share a name. */
  predicate DistinctNames(fields: seq<FieldInfo>)
  {
    forall j, k :: 0 <= j < k < |fields| ==> fields[j].name != fields[k].name
  }

  /** Some field of the layout holds bit i. */
  predicate Covered(fields: seq<FieldInfo>, i: nat)
  {
    exists k :: 0 <= k < |fields| && fields[k].Covers(i)
  }

  /** A key of __getitem__: a tuple index or a field name. */
  datatype Key = Index(i: int) | Name(s: string)
  {
    /** `field if field else self.field_name` in _get_field */
    predicate Truthy()
    {
      match this
      case Index(i) => i != 0
      case Name(s) => s != ""
    }
  }

  /** What get_field_value returns: a bool for a one-bit field, an int otherwise. */
  datatype FieldValue = Flag(b: bool) | Num(n: nat)

  /** Python's bool-to-int conversion, used where the driver passes a bool as a field value. */
  function BoolToInt(b: bool): nat { if b then 1 else 0 }

  // ---------------------------------------------------------------------
  // _bitmask

  /** _bitmask(range(start, stop)): the sum of 2 ** x for x in the range */
  function Bitmask(start: nat, stop: nat): (m: nat)
    ensures m == 0 <==> stop <= start
    ensures m < Pow2(stop)
    decreases stop
  {
    if stop <= start then 0 else Bitmask(start, stop - 1) + Pow2(stop - 1)
  }

  function Mask(f: FieldInfo): nat
  {
    Bitmask(f.start, f.stop)
  }

  lemma {:induction false} BitmaskIsDifference(start: nat, stop: nat)
    ensures Bitmask(start, stop) == if start <= stop then Pow2(stop) - Pow2(start) else 0
    decreases stop
  {
    if start < stop {
      BitmaskIsDifference(start, stop - 1);
    }
  }

  /** The mask has exactly the bits of the range set. */
  lemma BitOfBitmask(start: nat, stop: nat, i: nat)
    ensures Bit(Bitmask(start, stop), i) == (start <= i < stop)
  {
    BitmaskIsDifference(start, stop);
    if stop <= start {
      BitOfZero(i);
    } else {
      var ones := Pow2(stop - start) - 1;
      Pow2Add(stop - start, start);
      ShlIsMul(ones, start);
      assert Shl(ones, start) == Bitmask(start, stop);
      BitOfShl(ones, start, i);
      if start <= i {
        BitOfLowOnes(stop - start, i - start);
      }
    }
  }

  // ---------------------------------------------------------------------
  // The bit arithmetic of set_field_value and get_field_value

  /** `(src & ~bitmask) | ((value << start) & bitmask)` */
  function Insert(src: nat, f: FieldInfo, value: nat): nat
  {
    Or(AndNot(src, Mask(f)), And(Shl(value, f.start), Mask(f)))
  }

  /** `(source & bitmask) >> start` */
  function FieldBits(src: nat, f: FieldInfo): nat
  {
    Shr(And(src, Mask(f)), f.start)
  }

  /** get_field_value's result for a field: bool when one bit wide */
  function Extract(src: nat, f: FieldInfo): FieldValue
  {
    if f.Width() == 1 then Flag(FieldBits(src, f) != 0) else Num(FieldBits(src, f))
  }

  /** Inside the field the result carries the value's low bits, outside it the source's bits. */
  lemma BitOfInsert(src: nat, f: FieldInfo, value: nat, i: nat)
    ensures Bit(Insert(src, f, value), i) == if f.Covers(i) then Bit(value, i - f.start) else Bit(src, i)
  {
    BitOfOr(AndNot(src, Mask(f)), And(Shl(value, f.start), Mask(f)), i);
    BitOfAndNot(src, Mask(f), i);
    BitOfAnd(Shl(value, f.start), Mask(f), i);
    BitOfShl(value, f.start, i);
    BitOfBitmask(f.start, f.stop, i);
  }

  lemma BitOfFieldBits(src: nat, f: FieldInfo, i: nat)
    ensures Bit(FieldBits(src, f), i) == (i < f.Width() && Bit(src, i + f.start))
  {
    BitOfShr(And(src, Mask(f)), f.start, i);
    BitOfAnd(src, Mask(f), i + f.start);
    BitOfBitmask(f.start, f.stop, i + f.start);
  }

  /** set_field_value changes no bit outside the field's mask:
      result & ~mask == src & ~mask. */
  lemma InsertKeepsOtherBits(src: nat, f: FieldInfo, value: nat)
    ensures AndNot(Insert(src, f, value), Mask(f)) == AndNot(src, Mask(f))
  {
    forall i: nat
      ensures Bit(AndNot(Insert(src, f, value), Mask(f)), i) == Bit(AndNot(src, Mask(f)), i)
    {
      BitOfAndNot(Insert(src, f, value), Mask(f), i);
      BitOfAndNot(src, Mask(f), i);
      BitOfInsert(src, f, value, i);
      BitOfBitmask(f.start, f.stop, i);
    }
    BitsDetermine(AndNot(Insert(src, f, value), Mask(f)), AndNot(src, Mask(f)));
  }

  /** The field's bits, read as a number, are the source shifted and reduced
      modulo 2 ** width. */
  lemma FieldBitsIsDivMod(src: nat, f: FieldInfo)
    ensures FieldBits(src, f) == (src / Pow2(f.start)) % Pow2(f.Width())
  {
    var y := Shr(src, f.start);
    var d := y % Pow2(f.Width());
    forall i: nat
      ensures Bit(FieldBits(src, f), i) == Bit(d, i)
    {
      BitOfFieldBits(src, f, i);
      BitOfModPow2(y, f.Width(), i);
      BitOfShr(src, f.start, i);
    }
    BitsDetermine(FieldBits(src, f), d);
    ShrIsDiv(src, f.start);
  }

  /** Reading a field back after writing it gives the value reduced modulo
      2 ** width. */
  lemma InsertThenFieldBits(src: nat, f: FieldInfo, value: nat)
    ensures FieldBits(Insert(src, f, value), f) == value % Pow2(f.Width())
  {
    var m := value % Pow2(f.Width());
    forall i: nat
      ensures Bit(FieldBits(Insert(src, f, value), f), i) == Bit(m, i)
    {
      BitOfFieldBits(Insert(src, f, value), f, i);
      BitOfInsert(src, f, value, i + f.start);
      BitOfModPow2(value, f.Width(), i);
    }
    BitsDetermine(FieldBits(Insert(src, f, value), f), m);
  }

  /** In the source's own terms: reading a field back after writing it gives
      value & (mask >> start). */
  lemma InsertThenFieldBitsMasked(src: nat, f: FieldInfo, value: nat)
    ensures FieldBits(Insert(src, f, value), f) == And(value, Shr(Mask(f), f.start))
  {
    InsertThenFieldBits(src, f, value);
    var m := value % Pow2(f.Width());
    forall i: nat
      ensures Bit(m, i) == Bit(And(value, Shr(Mask(f), f.start)), i)
    {
      BitOfModPow2(value, f.Width(), i);
      BitOfAnd(value, Shr(Mask(f), f.start), i);
      BitOfShr(Mask(f), f.start, i);
      BitOfBitmask(f.start, f.stop, i + f.start);
    }
    BitsDetermine(m, And(value, Shr(Mask(f), f.start)));
  }

  /** Reading back a value that fits the field's width gives exactly that value;
      a one-bit field gives back `value != 0`. */
  lemma InsertThenExtract(src: nat, f: FieldInfo, value: nat)
    requires value < Pow2(f.Width())
    ensures Extract(Insert(src, f, value), f) == if f.Width() == 1 then Flag(value != 0) else Num(value)
  {
    InsertThenFieldBits(src, f, value);
    DivModUnique(value, Pow2(f.Width()), 0, value);
  }

  /** Writing one field leaves every disjoint field as it was. */
  lemma InsertKeepsDisjointField(src: nat, f: FieldInfo, value: nat, g: FieldInfo)
    requires Disjoint(f, g)
    ensures FieldBits(Insert(src, f, value), g) == FieldBits(src, g)
  {
    forall i: nat
      ensures Bit(FieldBits(Insert(src, f, value), g), i) == Bit(FieldBits(src, g), i)
    {
      BitOfFieldBits(Insert(src, f, value), g, i);
      BitOfFieldBits(src, g, i);
      BitOfInsert(src, f, value, i + g.start);
    }
    BitsDetermine(FieldBits(Insert(src, f, value), g), FieldBits(src, g));
  }

  /** A register of n bits stays within n bits when a field inside it is written. */
  lemma InsertStaysInWidth(src: nat, f: FieldInfo, value: nat, n: nat)
    requires src < Pow2(n) && f.stop <= n
    ensures Insert(src, f, value) < Pow2(n)
  {
    forall i: nat | n <= i
      ensures !Bit(Insert(src, f, value), i)
    {
      BitOfInsert(src, f, value, i);
      BitAboveWidth(src, n, i);
    }
    BelowPow2(Insert(src, f, value), n);
  }

  /** get_field_value yields a bool exactly for a one-bit field, and otherwise
      a number below 2 ** width. */
  lemma ExtractShape(src: nat, f: FieldInfo)
    ensures Extract(src, f).Flag? <==> f.Width() == 1
    ensures Extract(src, f).Num? ==> Extract(src, f).n < Pow2(f.Width())
  {
    FieldBitsIsDivMod(src, f);
  }

  // ---------------------------------------------------------------------
  // Lookup (_by_name, __getitem__, _get_field, _get_source)

  /** The first descriptor with the given name, as _by_name's loop finds it. */
  function FirstNamed(fields: seq<FieldInfo>, name: string): (r: Option<FieldInfo>)
    ensures r.None? <==> forall k :: 0 <= k < |fields| ==> fields[k].name != name
    ensures r.Some? ==> exists k :: 0 <= k < |fields| && fields[k] == r.value && r.value.name == name
                                    && forall j :: 0 <= j < k ==> fields[j].name != name
  {
    if fields == [] then None
    else if fields[0].name == name then Some(fields[0])
    else
      var r := FirstNamed(fields[1..], name);
      assert r.Some? ==> exists k :: 0 <= k < |fields[1..]| && fields[1..][k] == r.value && r.value.name == name
                                     && forall j :: 0 <= j < k ==> fields[1..][j].name != name;
      assert forall k :: 0 < k < |fields| ==> fields[k] == fields[1..][k - 1];
      r
  }

  lemma FirstNamedSkips(fields: seq<FieldInfo>, name: string)
    requires fields != [] && fields[0].name != name
    ensures FirstNamed(fields, name) == FirstNamed(fields[1..], name)
  {
  }

  /** __getitem__: an int indexes the tuple (negative indices count from
      the end, others raise IndexError), a str goes through _by_name. */
  function Lookup(fields: seq<FieldInfo>, key: Key): Result<Option<FieldInfo>>
  {
    match key
    case Index(i) =>
      if -|fields| <= i < |fields| then Ok(Some(fields[if i < 0 then i + |fields| else i]))
      else Err(IndexOutOfRange)
    case Name(s) => Ok(FirstNamed(fields, s))
  }

  /** _get_field: a falsy or missing key falls back to the active field name. */
  function Resolve(fields: seq<FieldInfo>, active: string, field: Option<Key>): Result<Option<FieldInfo>>
  {
    Lookup(fields, if field.Some? && field.value.Truthy() then field.value else Name(active))
  }

  /** _get_source: a falsy or missing source falls back to the stored value. */
  function SourceOf(stored: nat, source: Option<nat>): (s: nat)
    ensures source.Some? && source.value != 0 ==> s == source.value
    ensures source.None? || source.value == 0 ==> s == stored
  {
    if source.Some? && source.value != 0 then source.value else stored
  }

  /** The outcome of set_field_value: an exception, or the new integer. */
  function SetOutcome(fields: seq<FieldInfo>, active: string, stored: nat,
                      value: nat, source: Option<nat>, field: Option<Key>, validate: bool): Result<nat>
  {
    match Resolve(fields, active, field)
    case Err(e) => Err(e)
    case Ok(None) => Err(FieldIsNone)
    case Ok(Some(f)) =>
      if f.Checked() && validate && !f.validValues.value.Contains(value) then Err(OutOfRange("value", value))
      else Ok(Insert(SourceOf(stored, source), f, value))
  }

  /** The outcome of get_field_value on the active field and the stored value. */
  function GetOutcome(fields: seq<FieldInfo>, active: string, stored: nat, validate: bool): Result<FieldValue>
  {
    match FirstNamed(fields, active)
    case None => Err(UnknownFieldName(active))
    case Some(f) => if f.Checked() && validate then Err(ValidateUnsupported) else Ok(Extract(stored, f))
  }

  /** One call of __next__: the descriptor at idx and the next idx, or the
      end of the iteration with idx reset to 0. */
  function IterStep(fields: seq<FieldInfo>, idx: nat): (Option<FieldInfo>, nat)
  {
    if idx < |fields| then (Some(fields[idx]), idx + 1) else (None, 0)
  }

  /** n successive calls of __next__: what they yield and the final idx. */
  function Pulls(fields: seq<FieldInfo>, idx: nat, n: nat): (seq<Option<FieldInfo>>, nat)
    decreases n
  {
    if n == 0 then ([], idx)
    else
      var (y, next) := IterStep(fields, idx);
      var (ys, last) := Pulls(fields, next, n - 1);
      ([y] + ys, last)
  }

  // ---------------------------------------------------------------------
  // Lemmas about lookup and iteration

  /** An unknown name is not an error for __getitem__ (it yields None), but
      get_field_value raises and set_field_value fails on the None. */
  lemma UnknownName(fields: seq<FieldInfo>, name: string, stored: nat, value: nat, source: Option<nat>, validate: bool)
    requires forall k :: 0 <= k < |fields| ==> fields[k].name != name
    ensures Lookup(fields, Name(name)) == Ok(None)
    ensures GetOutcome(fields, name, stored, validate) == Err(UnknownFieldName(name))
    ensures SetOutcome(fields, name, stored, value, source, None, validate) == Err(FieldIsNone)
  {
  }

  /** Index 0 and the empty name are falsy: they select the active field, not fields[0];
      a source of 0 is falsy too and selects the stored value. */
  lemma FalsyArgumentsFallBack(fields: seq<FieldInfo>, active: string, stored: nat)
    ensures Resolve(fields, active, Some(Index(0))) == Lookup(fields, Name(active))
    ensures Resolve(fields, active, Some(Name(""))) == Lookup(fields, Name(active))
    ensures SourceOf(stored, Some(0)) == stored
  {
  }

  /** A failed range check yields OutOfRange whatever the source is. */
  lemma ValidationRejects(fields: seq<FieldInfo>, active: string, stored: nat,
                          value: nat, source: Option<nat>, field: Option<Key>)
    requires Resolve(fields, active, field).Ok? && Resolve(fields, active, field).value.Some?
    requires var f := Resolve(fields, active, field).value.value;
             f.Checked() && !f.validValues.value.Contains(value)
    ensures SetOutcome(fields, active, stored, value, source, field, true) == Err(OutOfRange("value", value))
  {
  }

  lemma {:induction false} PullsFrom(fields: seq<FieldInfo>, idx: nat, n: nat)
    requires idx + n <= |fields|
    ensures Pulls(fields, idx, n).1 == idx + n
    ensures |Pulls(fields, idx, n).0| == n
    ensures forall k :: 0 <= k < n ==> Pulls(fields, idx, n).0[k] == Some(fields[idx + k])
    decreases n
  {
    if n > 0 {
      PullsFrom(fields, idx + 1, n - 1);
      var ys := Pulls(fields, idx + 1, n - 1).0;
      assert Pulls(fields, idx, n).0 == [Some(fields[idx])] + ys;
    }
  }

  /** A full iteration from the start yields every descriptor in tuple order,
      then stops and resets idx to 0, so the next iteration starts over. */
  lemma {:induction false} FullIteration(fields: seq<FieldInfo>)
    ensures Pulls(fields, 0, |fields| + 1).1 == 0
    ensures |Pulls(fields, 0, |fields| + 1).0| == |fields| + 1
    ensures forall k :: 0 <= k < |fields| ==> Pulls(fields, 0, |fields| + 1).0[k] == Some(fields[k])
    ensures Pulls(fields, 0, |fields| + 1).0[|fields|] == None
  {
    PullsSplit(fields, 0, |fields|);
    PullsFrom(fields, 0, |fields|);
  }

  lemma {:induction false} PullsSplit(fields: seq<FieldInfo>, idx: nat, n: nat)
    requires idx + n == |fields|
    ensures Pulls(fields, idx, n + 1).0 == Pulls(fields, idx, n).0 + [None]
    ensures Pulls(fields, idx, n + 1).1 == 0
    decreases n
  {
    if n > 0 {
      PullsSplit(fields, idx + 1, n - 1);
    }
  }

  // ---------------------------------------------------------------------
  // The stateful store

  /** BitFields: the descriptor tuple, the iterator index, the active field
      name and the working integer. */
  class BitFields {
    const fieldsInfo: seq<FieldInfo>
    var idx: nat
    var activeFieldName: string
    var sourceVal: nat

    ghost predicate Valid()
      reads this`idx
    {
      |fieldsInfo| > 0 && idx <= |fieldsInfo|
    }

    constructor (fields: seq<FieldInfo>)
      requires |fields| > 0
      ensures Valid()
      ensures fieldsInfo == fields && idx == 0 && activeFieldName == fields[0].name && sourceVal == 0
    {
      fieldsInfo := fields;
      idx := 0;
      activeFieldName := fields[0].name;
      sourceVal := 0;
    }

    /** The `source` property setter. */
    method SetSource(value: nat)
      modifies this`sourceVal
      ensures sourceVal == value && unchanged(this`idx, this`activeFieldName)
    {
      sourceVal := value;
    }

    /** The `field_name` property setter. */
    method SetFieldName(name: string)
      modifies this`activeFieldName
      ensures activeFieldName == name && unchanged(this`idx, this`sourceVal)
    {
      activeFieldName := name;
    }

    /** _by_name: scans the descriptors and returns the first with the name, or None. */
    method ByName(name: string) returns (r: Option<FieldInfo>)
      ensures r == FirstNamed(fieldsInfo, name)
    {
      var k := 0;
      while k < |fieldsInfo|
        invariant 0 <= k <= |fieldsInfo|
        invariant FirstNamed(fieldsInfo[k..], name) == FirstNamed(fieldsInfo, name)
      {
        if fieldsInfo[k].name == name {
          return Some(fieldsInfo[k]);
        }
        assert fieldsInfo[k..][1..] == fieldsInfo[k + 1..];
        k := k + 1;
      }
      return None;
    }

    /** __getitem__ */
    method GetItem(key: Key) returns (r: Result<Option<FieldInfo>>)
      ensures r == Lookup(fieldsInfo, key)
      ensures key.Index? ==> (r.Ok? <==> -|fieldsInfo| <= key.i < |fieldsInfo|)
      ensures key.Name? ==> r.Ok? && (r.value.None? <==> forall k :: 0 <= k < |fieldsInfo| ==> fieldsInfo[k].name != key.s)
    {
      match key
      case Index(i) =>
        if -|fieldsInfo| <= i < |fieldsInfo| {
          r := Ok(Some(fieldsInfo[if i < 0 then i + |fieldsInfo| else i]));
        } else {
          r := Err(IndexOutOfRange);
        }
      case Name(s) =>
        var item := ByName(s);
        r := Ok(item);
    }

    /** _get_field */
    method GetField(field: Option<Key>) returns (r: Result<Option<FieldInfo>>)
      ensures r == Resolve(fieldsInfo, activeFieldName, field)
    {
      if field.Some? && field.value.Truthy() {
        r := GetItem(field.value);
      } else {
        r := GetItem(Name(activeFieldName));
      }
    }

    /** set_field_value: writes value into the selected field of the selected
        source; the stored value changes only when no source was passed. */
    method SetFieldValue(value: nat, source: Option<nat>, field: Option<Key>, validate: bool)
      returns (r: Result<nat>)
      modifies this`sourceVal
      ensures r == SetOutcome(fieldsInfo, activeFieldName, old(sourceVal), value, source, field, validate)
      ensures sourceVal == if source.None? && r.Ok? then r.value else old(sourceVal)
    {
      var item := GetField(field);
      if item.Err? {
        return Err(item.error);
      }
      if item.value.None? {
        return Err(FieldIsNone);
      }
      var f := item.value.value;
      if f.Checked() && validate && !f.validValues.value.Contains(value) {
        return Err(OutOfRange("value", value));
      }
      var src := AndNot(SourceOf(sourceVal, source), Mask(f));
      src := Or(src, And(Shl(value, f.start), Mask(f)));
      if source.None? {
        sourceVal := src;
      }
      r := Ok(src);
    }

    /** get_field_value: the active field of the stored value. */
    method GetFieldValue(validate: bool) returns (r: Result<FieldValue>)
      ensures r == GetOutcome(fieldsInfo, activeFieldName, sourceVal, validate)
    {
      var fName := activeFieldName;
      var item := GetField(Some(Name(fName)));
      if item.Err? || item.value.None? {
        return Err(UnknownFieldName(fName));
      }
      var f := item.value.value;
      var val := Shr(And(sourceVal, Mask(f)), f.start);
      if f.Checked() && validate {
        return Err(ValidateUnsupported);
      }
      if f.Width() == 1 {
        return Ok(Flag(val != 0));
      }
      return Ok(Num(val));
    }

    /** __next__ */
    method Next() returns (r: Option<FieldInfo>)
      requires Valid()
      modifies this`idx
      ensures Valid()
      ensures (r, idx) == IterStep(fieldsInfo, old(idx))
    {
      idx := idx + 1;
      if idx - 1 < |fieldsInfo| {
        return Some(fieldsInfo[idx - 1]);
      }
      idx := 0;
      return None;
    }
  }
}
