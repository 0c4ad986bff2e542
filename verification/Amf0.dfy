// AMF0 values (AMF0 specification, sections 2.2 to 2.10): the client's encoders and its lenient reader.
module Amf0 {
  import opened Bytes

  /** What is sent: fields keep their order. A number is its eight IEEE 754 octets. The client itself sends numbers, texts,
      nulls and objects; a server may send booleans, undefined values and associative arrays too. */
  datatype Tree = Number(bits: bytes) | Text(s: bytes) | Null | Object(fields: Fields)
                | Flag(octet: byte) | Undefined | Array(count: bytes, fields: Fields)
  datatype Fields = NoFields | Field(key: bytes, value: Tree, rest: Fields)

  /** What is read: an object is a map. */
  datatype Value = VNumber(bits: bytes) | VBool(on: bool) | VText(s: bytes) | VNull | VObject(fields: map<bytes, Value>)

  // ----- encoding -----

  function Encode(t: Tree): (r: bytes)
    ensures |r| > 0
  {
    match t
    case Number(bits) => [0] + bits
    case Text(s) => [2] + Be16(|s|) + s
    case Null => [5]
    case Object(fields) => [3] + (EncodeFields(fields) + [0, 0, 9])
    case Flag(octet) => [1, octet]
    case Undefined => [6]
    case Array(count, fields) => ([8] + count) + (EncodeFields(fields) + [0, 0, 9])
  }

  function EncodeFields(fs: Fields): bytes
  {
    match fs
    case NoFields => []
    case Field(key, value, rest) => (Be16(|key|) + key) + (Encode(value) + EncodeFields(rest))
  }

  function EncodeAll(ts: seq<Tree>): bytes
  {
    if ts == [] then [] else Encode(ts[0]) + EncodeAll(ts[1..])
  }

  // ----- decoding -----

  function U16(d: bytes, i: nat): (n: nat)
    requires i + 2 <= |d|
    ensures n < 0x1_0000
  {
    d[i] as int * 256 + d[i + 1] as int
  }

  /** The octets in a range, as far as there are any. */
  function Slice(d: bytes, from: nat, to: nat): bytes
  {
    var lo := if from > |d| then |d| else from;
    var hi := if to > |d| then |d| else to;
    if hi < lo then [] else d[lo..hi]
  }

  function Left(d: bytes, i: nat): nat
  {
    if i < |d| then |d| - i else 0
  }

  /** A value and the index after it, which may lie past the end of the data. */
  function ReadValue(d: bytes, i: nat): (r: Option<(Value, nat)>)
    ensures r.Some? ==> r.value.1 > i
    decreases Left(d, i), 1
  {
    if i >= |d| then None
    else
      var t := d[i];
      if t == 0 then if i + 9 > |d| then None else Some((VNumber(d[i + 1..i + 9]), i + 9))
      else if t == 1 then if i + 1 >= |d| then None else Some((VBool(d[i + 1] != 0), i + 2))
      else if t == 2 then
        if i + 3 > |d| then None
        else Some((VText(Slice(d, i + 3, i + 3 + U16(d, i + 1))), i + 3 + U16(d, i + 1)))
      else if t == 3 then ReadFields(d, i + 1, map[])
      else if t == 8 then ReadFields(d, i + 5, map[])
      else if t == 5 || t == 6 then Some((VNull, i + 1))
      else None
  }

  /** Fields up to an empty key, whose marker is skipped unread. */
  function ReadFields(d: bytes, i: nat, fields: map<bytes, Value>): (r: Option<(Value, nat)>)
    ensures r.Some? ==> r.value.1 > i
    decreases Left(d, i), 0
  {
    if i + 2 > |d| then None
    else
      var n := U16(d, i);
      if n == 0 then Some((VObject(fields), i + 3))
      else
        match ReadValue(d, i + 2 + n)
        case None => None
        case Some((v, next)) => ReadFields(d, next, fields[Slice(d, i + 2, i + 2 + n) := v])
  }

  /** Values one after another until the data ends or makes no sense. */
  function ReadAll(d: bytes, i: nat): seq<Value>
    decreases Left(d, i)
  {
    if i >= |d| then []
    else
      match ReadValue(d, i)
      case None => []
      case Some((v, next)) => [v] + ReadAll(d, next)
  }

  // ----- the reader -----

  method AmfReadValue(d: bytes, start: nat) returns (r: Option<(Value, nat)>)
    ensures r == ReadValue(d, start)
    decreases Left(d, start)
  {
    var i := start;
    if i >= |d| {
      return None;
    }
    var t := d[i];
    i := i + 1;
    if t == 0 {
      return if i + 8 > |d| then None else Some((VNumber(d[i..i + 8]), i + 8));
    } else if t == 1 {
      return if i >= |d| then None else Some((VBool(d[i] != 0), i + 1));
    } else if t == 2 {
      if i + 2 > |d| {
        return None;
      }
      var n := U16(d, i);
      i := i + 2;
      return Some((VText(Slice(d, i, i + n)), i + n));
    } else if t == 3 || t == 8 {
      if t == 8 {
        i := i + 4;
      }
      r := AmfReadFields(d, i, start);
    } else {
      return if t == 5 || t == 6 then Some((VNull, i)) else None;
    }
  }

  method AmfReadFields(d: bytes, begin: nat, start: nat) returns (r: Option<(Value, nat)>)
    requires start < |d| && start < begin
    ensures r == ReadFields(d, begin, map[])
    decreases Left(d, start), 0
  {
    var obj: map<bytes, Value> := map[];
    var i := begin;
    while true
      invariant i >= begin
      invariant ReadFields(d, i, obj) == ReadFields(d, begin, map[])
      decreases Left(d, i)
    {
      if i + 2 > |d| {
        return None;
      }
      var n := U16(d, i);
      i := i + 2;
      if n == 0 {
        return Some((VObject(obj), i + 1));
      }
      var key := Slice(d, i, i + n);
      i := i + n;
      var v := AmfReadValue(d, i);
      if v.None? {
        return None;
      }
      obj := obj[key := v.value.0];
      i := v.value.1;
    }
  }

  method AmfReadAll(d: bytes) returns (values: seq<Value>)
    ensures values == ReadAll(d, 0)
  {
    values := [];
    var i: nat := 0;
    while i < |d|
      invariant values + ReadAll(d, i) == ReadAll(d, 0)
      decreases Left(d, i)
    {
      var v := AmfReadValue(d, i);
      if v.None? {
        assert values + [] == values;
        return;
      }
      assert values + ([v.value.0] + ReadAll(d, v.value.1)) == (values + [v.value.0]) + ReadAll(d, v.value.1);
      values := values + [v.value.0];
      i := v.value.1;
    }
    assert values + [] == values;
  }

  // ----- round trip -----

  function ValueOf(t: Tree): Value
  {
    match t
    case Number(bits) => VNumber(bits)
    case Text(s) => VText(s)
    case Null => VNull
    case Object(fields) => VObject(Insert(map[], fields))
    case Flag(octet) => VBool(octet != 0)
    case Undefined => VNull
    case Array(_, fields) => VObject(Insert(map[], fields))
  }

  /** A later field replaces an earlier one of the same key. */
  function Insert(m: map<bytes, Value>, fs: Fields): map<bytes, Value>
    decreases fs
  {
    match fs
    case NoFields => m
    case Field(key, value, rest) => Insert(m[key := ValueOf(value)], rest)
  }

  predicate Encodable(t: Tree)
  {
    match t
    case Number(bits) => |bits| == 8
    case Text(s) => |s| < 0x1_0000
    case Null => true
    case Object(fields) => FieldsEncodable(fields)
    case Flag(_) => true
    case Undefined => true
    case Array(count, fields) => |count| == 4 && FieldsEncodable(fields)
  }

  predicate FieldsEncodable(fs: Fields)
  {
    match fs
    case NoFields => true
    case Field(key, value, rest) => 0 < |key| < 0x1_0000 && Encodable(value) && FieldsEncodable(rest)
  }

  /** The octets are found at an index. */
  predicate At(d: bytes, i: nat, x: bytes)
  {
    i + |x| <= |d| && d[i..i + |x|] == x
  }

  lemma AtSplits(d: bytes, i: nat, x: bytes, y: bytes)
    requires At(d, i, x + y)
    ensures At(d, i, x) && At(d, i + |x|, y)
  {
    var all := d[i..i + |x + y|];
    assert d[i..i + |x|] == all[..|x|] && d[i + |x|..i + |x| + |y|] == all[|x|..];
  }

  lemma AtOctet(d: bytes, i: nat, x: bytes, k: nat)
    requires At(d, i, x) && k < |x|
    ensures d[i + k] == x[k]
  {
    assert d[i..i + |x|][k] == d[i + k];
  }

  lemma LengthAt(d: bytes, i: nat, n: nat)
    requires At(d, i, Be16(n)) && n < 0x1_0000
    ensures U16(d, i) == n
  {
    AtOctet(d, i, Be16(n), 0);
    AtOctet(d, i, Be16(n), 1);
  }

  lemma TextReads(d: bytes, i: nat, s: bytes)
    requires At(d, i, Encode(Text(s))) && |s| < 0x1_0000
    ensures ReadValue(d, i) == Some((VText(s), i + |Encode(Text(s))|))
  {
    AtSplits(d, i, [2] + Be16(|s|), s);
    AtSplits(d, i, [2], Be16(|s|));
    AtOctet(d, i, [2], 0);
    LengthAt(d, i + 1, |s|);
  }

  lemma NumberReads(d: bytes, i: nat, bits: bytes)
    requires At(d, i, Encode(Number(bits))) && |bits| == 8
    ensures ReadValue(d, i) == Some((VNumber(bits), i + 9))
  {
    AtSplits(d, i, [0], bits);
    AtOctet(d, i, [0], 0);
  }

  lemma NullReads(d: bytes, i: nat)
    ensures At(d, i, [5]) ==> ReadValue(d, i) == Some((VNull, i + 1))
    ensures At(d, i, [6]) ==> ReadValue(d, i) == Some((VNull, i + 1))
  {
    if At(d, i, [5]) {
      AtOctet(d, i, [5], 0);
    }
    if At(d, i, [6]) {
      AtOctet(d, i, [6], 0);
    }
  }

  lemma FlagReads(d: bytes, i: nat, octet: byte)
    requires At(d, i, [1, octet])
    ensures ReadValue(d, i) == Some((VBool(octet != 0), i + 2))
  {
    AtOctet(d, i, [1, octet], 0);
    AtOctet(d, i, [1, octet], 1);
  }

  lemma ObjectReads(d: bytes, i: nat, body: bytes)
    requires At(d, i, [3] + body)
    ensures At(d, i + 1, body) && ReadValue(d, i) == ReadFields(d, i + 1, map[])
  {
    AtSplits(d, i, [3], body);
    AtOctet(d, i, [3], 0);
  }

  lemma ArrayReads(d: bytes, i: nat, count: bytes, body: bytes)
    requires At(d, i, ([8] + count) + body) && |count| == 4
    ensures At(d, i + 5, body) && ReadValue(d, i) == ReadFields(d, i + 5, map[])
  {
    AtSplits(d, i, [8] + count, body);
    AtOctet(d, i, [8] + count, 0);
  }

  lemma {:induction false} ReadsBack(d: bytes, i: nat, t: Tree)
    requires Encodable(t) && At(d, i, Encode(t))
    ensures ReadValue(d, i) == Some((ValueOf(t), i + |Encode(t)|))
    decreases t
  {
    hide ReadValue, ReadFields, At, Be16;
    match t
    case Number(bits) => NumberReads(d, i, bits);
    case Text(s) => TextReads(d, i, s);
    case Null => NullReads(d, i);
    case Object(fields) =>
      ObjectReads(d, i, EncodeFields(fields) + [0, 0, 9]);
      FieldsReadBack(d, i + 1, fields, map[]);
    case Flag(octet) => FlagReads(d, i, octet);
    case Undefined => NullReads(d, i);
    case Array(count, fields) =>
      ArrayReads(d, i, count, EncodeFields(fields) + [0, 0, 9]);
      FieldsReadBack(d, i + 5, fields, map[]);
  }

  lemma EndReads(d: bytes, i: nat, m: map<bytes, Value>)
    requires At(d, i, [0, 0, 9])
    ensures ReadFields(d, i, m) == Some((VObject(m), i + 3))
  {
    AtOctet(d, i, [0, 0, 9], 0);
    AtOctet(d, i, [0, 0, 9], 1);
  }

  /** A field's key and value are read, and then the rest. */
  lemma FieldReads(d: bytes, i: nat, key: bytes, v: Value, next: nat, m: map<bytes, Value>)
    requires At(d, i, Be16(|key|) + key) && 0 < |key| < 0x1_0000
    requires ReadValue(d, i + 2 + |key|) == Some((v, next))
    ensures ReadFields(d, i, m) == ReadFields(d, next, m[key := v])
  {
    AtSplits(d, i, Be16(|key|), key);
    LengthAt(d, i, |key|);
  }

  lemma {:induction false} FieldsReadBack(d: bytes, i: nat, fs: Fields, m: map<bytes, Value>)
    requires FieldsEncodable(fs) && At(d, i, EncodeFields(fs) + [0, 0, 9])
    ensures ReadFields(d, i, m) == Some((VObject(Insert(m, fs)), i + |EncodeFields(fs)| + 3))
    decreases fs
  {
    hide ReadFields, ReadValue, At, Be16;
    match fs
    case NoFields =>
      assert [] + [0, 0, 9] == [0, 0, 9];
      EndReads(d, i, m);
    case Field(key, value, rest) =>
      var head, mid, tail := Be16(|key|) + key, Encode(value), EncodeFields(rest) + [0, 0, 9];
      assert EncodeFields(fs) + [0, 0, 9] == head + (mid + tail);
      AtSplits(d, i, head, mid + tail);
      AtSplits(d, i + |head|, mid, tail);
      ReadsBack(d, i + |head|, value);
      var next := i + |head| + |mid|;
      FieldReads(d, i, key, ValueOf(value), next, m);
      FieldsReadBack(d, next, rest, m[key := ValueOf(value)]);
  }

  function ValuesOf(ts: seq<Tree>): seq<Value>
  {
    seq(|ts|, i requires 0 <= i < |ts| => ValueOf(ts[i]))
  }

  lemma {:induction false} AllReadFrom(d: bytes, i: nat, ts: seq<Tree>)
    requires (forall t :: t in ts ==> Encodable(t)) && i + |EncodeAll(ts)| == |d| && At(d, i, EncodeAll(ts))
    ensures ReadAll(d, i) == ValuesOf(ts)
    decreases |ts|
  {
    hide ReadValue, Encode, ValueOf, Encodable;
    if ts != [] {
      AtSplits(d, i, Encode(ts[0]), EncodeAll(ts[1..]));
      assert ts[0] in ts;
      ReadsBack(d, i, ts[0]);
      AllReadFrom(d, i + |Encode(ts[0])|, ts[1..]);
      assert ValuesOf(ts) == [ValueOf(ts[0])] + ValuesOf(ts[1..]);
    }
  }

  /** Reading returns exactly the values encoded. */
  lemma AmfRoundTrips(ts: seq<Tree>)
    requires forall t :: t in ts ==> Encodable(t)
    ensures ReadAll(EncodeAll(ts), 0) == ValuesOf(ts)
  {
    var d := EncodeAll(ts);
    assert d[0..0 + |d|] == d;
    AllReadFrom(d, 0, ts);
  }

  // ----- objects -----

  ghost predicate HasField(fs: Fields, key: bytes, value: Tree)
  {
    fs.Field? && ((fs.key == key && fs.value == value) || HasField(fs.rest, key, value))
  }

  ghost predicate Distinct(fs: Fields)
  {
    fs.Field? ==> (forall v :: !HasField(fs.rest, fs.key, v)) && Distinct(fs.rest)
  }

  lemma {:induction false} InsertKeeps(m: map<bytes, Value>, fs: Fields, key: bytes)
    requires forall v :: !HasField(fs, key, v)
    ensures key in Insert(m, fs) <==> key in m
    ensures key in m ==> Insert(m, fs)[key] == m[key]
    decreases fs
  {
    match fs
    case NoFields =>
    case Field(k, value, rest) =>
      assert k == key ==> HasField(fs, key, value);
      forall v ensures !HasField(rest, key, v) {
        assert HasField(rest, key, v) ==> HasField(fs, key, v);
      }
      InsertKeeps(m[k := ValueOf(value)], rest, key);
  }

  /** With distinct keys an object decodes to a map that has each field, and nothing else. */
  lemma {:induction false} DistinctFieldsKept(m: map<bytes, Value>, fs: Fields, key: bytes, value: Tree)
    requires Distinct(fs) && HasField(fs, key, value)
    ensures key in Insert(m, fs) && Insert(m, fs)[key] == ValueOf(value)
    decreases fs
  {
    if fs.key == key && fs.value == value {
      InsertKeeps(m[key := ValueOf(value)], fs.rest, key);
    } else {
      DistinctFieldsKept(m[fs.key := ValueOf(fs.value)], fs.rest, key, value);
    }
  }

  lemma {:induction false} OnlyFields(m: map<bytes, Value>, fs: Fields, key: bytes)
    requires key in Insert(m, fs) && key !in m
    ensures exists value :: HasField(fs, key, value)
    decreases fs
  {
    match fs
    case NoFields =>
    case Field(k, value, rest) =>
      if k == key {
        assert HasField(fs, key, value);
      } else {
        OnlyFields(m[k := ValueOf(value)], rest, key);
        var v :| HasField(rest, key, v);
        assert HasField(fs, key, v);
      }
  }

  /** A string is read back exactly when its length fits the two octets it is given. */
  lemma TextRoundTripsIff(s: bytes)
    ensures ReadAll(Encode(Text(s)), 0) == [VText(s)] <==> |s| < 0x1_0000
  {
    var d := Encode(Text(s));
    if |s| < 0x1_0000 {
      AmfRoundTrips([Text(s)]);
      assert EncodeAll([Text(s)]) == d;
    } else {
      var n := U16(d, 1);
      assert |Slice(d, 3, 3 + n)| <= n;
      assert ReadValue(d, 0) == Some((VText(Slice(d, 3, 3 + n)), 3 + n));
      assert ReadAll(d, 0)[0] == VText(Slice(d, 3, 3 + n));
    }
  }

  // ----- empty keys -----

  /** No field at any depth has an empty key. */
  predicate Named(t: Tree)
  {
    match t
    case Object(fields) => FieldsNamed(fields)
    case Array(_, fields) => FieldsNamed(fields)
    case _ => true
  }

  predicate FieldsNamed(fs: Fields)
  {
    match fs
    case NoFields => true
    case Field(key, value, rest) => key != [] && Named(value) && FieldsNamed(rest)
  }

  /** What a tree's own layout can hold: eight octets a number, texts and keys whose length fits two octets. */
  predicate Short(t: Tree)
  {
    match t
    case Number(bits) => |bits| == 8
    case Text(s) => |s| < 0x1_0000
    case Null => true
    case Object(fields) => FieldsShort(fields)
    case Array(count, fields) => |count| == 4 && FieldsShort(fields)
    case _ => true
  }

  predicate FieldsShort(fs: Fields)
  {
    match fs
    case NoFields => true
    case Field(key, value, rest) => |key| < 0x1_0000 && Short(value) && FieldsShort(rest)
  }

  /** At every depth the keys of an object are distinct. */
  ghost predicate AllDistinct(t: Tree)
  {
    match t
    case Object(fields) => FieldsAllDistinct(fields)
    case Array(_, fields) => FieldsAllDistinct(fields)
    case _ => true
  }

  ghost predicate FieldsAllDistinct(fs: Fields)
  {
    match fs
    case NoFields => true
    case Field(key, value, rest) => (forall v :: !HasField(rest, key, v)) && AllDistinct(value) && FieldsAllDistinct(rest)
  }

  lemma {:induction false} EncodableIff(t: Tree)
    ensures Encodable(t) <==> Short(t) && Named(t)
    decreases t
  {
    match t
    case Object(fields) => FieldsEncodableIff(fields);
    case Array(_, fields) => FieldsEncodableIff(fields);
    case _ =>
  }

  lemma {:induction false} FieldsEncodableIff(fs: Fields)
    ensures FieldsEncodable(fs) <==> FieldsShort(fs) && FieldsNamed(fs)
    decreases fs
  {
    match fs
    case NoFields =>
    case Field(key, value, rest) =>
      EncodableIff(value);
      FieldsEncodableIff(rest);
  }

  /** A value without an empty key at any depth. */
  ghost predicate ValueNamed(v: Value)
    decreases v
  {
    v.VObject? ==> [] !in v.fields && forall k :: k in v.fields ==> ValueNamed(v.fields[k])
  }

  ghost predicate MapNamed(m: map<bytes, Value>)
  {
    [] !in m && forall k :: k in m ==> ValueNamed(m[k])
  }

  /** The reader never returns an empty key, whatever the data. */
  lemma {:induction false} ReadIsNamed(d: bytes, i: nat)
    requires ReadValue(d, i).Some?
    ensures ValueNamed(ReadValue(d, i).value.0)
    decreases Left(d, i), 1
  {
    if d[i] == 3 {
      FieldsReadAreNamed(d, i + 1, map[]);
    } else if d[i] == 8 {
      FieldsReadAreNamed(d, i + 5, map[]);
    }
  }

  lemma {:induction false} FieldsReadAreNamed(d: bytes, i: nat, m: map<bytes, Value>)
    requires MapNamed(m) && ReadFields(d, i, m).Some?
    ensures ValueNamed(ReadFields(d, i, m).value.0)
    decreases Left(d, i), 0
  {
    var n := U16(d, i);
    if n > 0 {
      var (v, next) := ReadValue(d, i + 2 + n).value;
      ReadIsNamed(d, i + 2 + n);
      assert i + 2 + n < |d|;
      assert |Slice(d, i + 2, i + 2 + n)| == n;
      FieldsReadAreNamed(d, next, m[Slice(d, i + 2, i + 2 + n) := v]);
    }
  }

  /** With distinct keys, an empty key anywhere stays in the value. */
  lemma {:induction false} EmptyKeyStays(t: Tree)
    requires AllDistinct(t) && !Named(t)
    ensures !ValueNamed(ValueOf(t))
    decreases t
  {
    FieldsEmptyKeyStays(map[], t.fields);
  }

  lemma {:induction false} FieldsEmptyKeyStays(m: map<bytes, Value>, fs: Fields)
    requires FieldsAllDistinct(fs) && !FieldsNamed(fs)
    ensures !MapNamed(Insert(m, fs))
    decreases fs
  {
    var Field(key, value, rest) := fs;
    if key == [] || !Named(value) {
      InsertKeeps(m[key := ValueOf(value)], rest, key);
      assert Insert(m, fs)[key] == ValueOf(value);
      if key != [] {
        EmptyKeyStays(value);
      }
    } else {
      FieldsEmptyKeyStays(m[key := ValueOf(value)], rest);
    }
  }

  /** Every tree whose objects have distinct keys, as far as lengths fit: it is read back, and just its own octets
      used, if and only if no field at any depth has an empty key. */
  lemma ReadBackIff(t: Tree)
    requires Short(t) && AllDistinct(t)
    ensures ReadValue(Encode(t), 0) == Some((ValueOf(t), |Encode(t)|)) <==> Named(t)
  {
    EncodableIff(t);
    if Named(t) {
      var d := Encode(t);
      assert d[0..0 + |d|] == d;
      ReadsBack(d, 0, t);
    } else if ReadValue(Encode(t), 0).Some? {
      ReadIsNamed(Encode(t), 0);
      EmptyKeyStays(t);
    }
  }

  /** A field with an empty key ends its object wherever it stands: the fields before it are all that is read, and
      reading goes on behind the first octet of the empty key's own value. */
  lemma {:induction false} EmptyKeyEndsObject(d: bytes, i: nat, before: Fields, value: Tree, m: map<bytes, Value>)
    requires FieldsEncodable(before) && At(d, i, EncodeFields(before) + ([0, 0] + Encode(value)))
    ensures ReadFields(d, i, m) == Some((VObject(Insert(m, before)), i + |EncodeFields(before)| + 3))
    decreases before
  {
    hide ReadFields, ReadValue, At, Be16, Encode, Encodable, ValueOf;
    match before
    case NoFields =>
      assert [] + ([0, 0] + Encode(value)) == [0, 0] + Encode(value);
      AtSplits(d, i, [0, 0], Encode(value));
      EmptyKeyReads(d, i, m);
    case Field(key, v, rest) =>
      var head, mid, tail := Be16(|key|) + key, Encode(v), EncodeFields(rest) + ([0, 0] + Encode(value));
      Regroup(head, mid, EncodeFields(rest), [0, 0] + Encode(value));
      AtSplits(d, i, head, mid + tail);
      AtSplits(d, i + |head|, mid, tail);
      KeyLength(key);
      ReadsBack(d, i + |head|, v);
      var next := i + |head| + |mid|;
      FieldReads(d, i, key, ValueOf(v), next, m);
      EmptyKeyEndsObject(d, next, rest, value, m[key := ValueOf(v)]);
  }

  lemma Regroup(a: bytes, b: bytes, c: bytes, e: bytes)
    ensures (a + (b + c)) + e == a + (b + (c + e))
  {
  }

  lemma KeyLength(key: bytes)
    ensures |Be16(|key|) + key| == 2 + |key|
  {
  }

  lemma EmptyKeyReads(d: bytes, i: nat, m: map<bytes, Value>)
    requires At(d, i, [0, 0])
    ensures ReadFields(d, i, m) == Some((VObject(m), i + 3))
  {
    AtOctet(d, i, [0, 0], 0);
    AtOctet(d, i, [0, 0], 1);
  }

  lemma EndOfFields(d: bytes, i: nat, m: map<bytes, Value>)
    requires i + 2 <= |d| && d[i] == 0 && d[i + 1] == 0
    ensures ReadFields(d, i, m) == Some((VObject(m), i + 3))
  {
  }

  lemma OneOctetKeyReads(d: bytes, i: nat, v: Value, next: nat, m: map<bytes, Value>)
    requires i + 3 <= |d| && d[i] == 0 && d[i + 1] == 1 && ReadValue(d, i + 3) == Some((v, next))
    ensures ReadFields(d, i, m) == ReadFields(d, next, m[[d[i + 2]] := v])
  {
    assert Slice(d, i + 2, i + 3) == [d[i + 2]];
  }

  lemma TextAt(d: bytes, i: nat)
    requires i + 3 <= |d| && d[i] == 2
    ensures ReadValue(d, i) == Some((VText(Slice(d, i + 3, i + 3 + U16(d, i + 1))), i + 3 + U16(d, i + 1)))
  {
  }

  lemma FieldOctets(key: bytes, value: Tree, rest: Fields)
    requires |key| < 256
    ensures EncodeFields(Field(key, value, rest)) == ([0, |key|] + key) + (Encode(value) + EncodeFields(rest))
  {
  }

  const KEY_A: bytes := [0x61]
  const AMID: bytes := [0, 1, 0x61, 2, 0, 5, 0, 0]
  const UNNAMED := Object(Field([], Number(AMID), NoFields))
  const TWICE := Object(Field(KEY_A, UNNAMED, Field(KEY_A, Null, NoFields)))
  const TWICE_OCTETS: bytes := [3, 0, 1, 0x61, 3, 0, 0, 0, 0, 1, 0x61, 2, 0, 5, 0, 0, 0, 0, 9, 0, 1, 0x61, 5, 0, 0, 9]

  /** Only with a key given twice can an object be read back in spite of an empty key: the first field's value ends
      early, what is left of it reads as a field too, and the second field replaces both. */
  lemma OverwrittenEmptyKeyIsReadBack()
    ensures Short(TWICE) && !Named(TWICE)
    ensures ReadValue(Encode(TWICE), 0) == Some((ValueOf(TWICE), |Encode(TWICE)|))
  {
    TwiceEncoded();
    TwiceRead(TWICE_OCTETS);
    assert ValueOf(TWICE) == VObject(map[KEY_A := VNull]) by { TwiceMeans(); }
  }

  lemma TwiceMeans()
    ensures ValueOf(TWICE) == VObject(map[KEY_A := VNull])
  {
    var m := map[KEY_A := ValueOf(UNNAMED)];
    assert m[KEY_A := VNull] == map[KEY_A := VNull];
  }

  lemma TwiceRead(d: bytes)
    requires d == TWICE_OCTETS
    ensures ReadValue(d, 0) == Some((VObject(map[KEY_A := VNull]), 26))
  {
    hide ReadFields, ReadValue, Slice, U16;
    EndOfFields(d, 5, map[]);
    ObjectAt(d, 4);
    OneOctetKeyReads(d, 1, VObject(map[]), 8, map[]);
    LeftoverReads(d, map[][KEY_A := VObject(map[])]);
    ObjectAt(d, 0);
    assert map[][KEY_A := VObject(map[])][KEY_A := VNull] == map[KEY_A := VNull];
  }

  /** What is left of the number swallows the end of its object, as a text under the same key. */
  lemma LeftoverReads(d: bytes, a: map<bytes, Value>)
    requires d == TWICE_OCTETS
    ensures ReadFields(d, 8, a) == Some((VObject(a[KEY_A := VNull]), 26))
  {
    hide ReadFields, ReadValue, Slice;
    var text := VText(Slice(d, 14, 19));
    TextAt(d, 11);
    OneOctetKeyReads(d, 8, text, 19, a);
    NullAt(d, 22);
    OneOctetKeyReads(d, 19, VNull, 23, a[KEY_A := text]);
    EndOfFields(d, 23, a[KEY_A := VNull]);
    assert a[KEY_A := text][KEY_A := VNull] == a[KEY_A := VNull];
  }

  lemma ObjectAt(d: bytes, i: nat)
    requires i < |d| && d[i] == 3
    ensures ReadValue(d, i) == ReadFields(d, i + 1, map[])
  {
  }

  lemma NullAt(d: bytes, i: nat)
    requires i < |d| && d[i] == 5
    ensures ReadValue(d, i) == Some((VNull, i + 1))
  {
  }

  lemma TwiceEncoded()
    ensures Encode(TWICE) == TWICE_OCTETS
  {
    FieldOctets([], Number(AMID), NoFields);
    FieldOctets(KEY_A, UNNAMED, Field(KEY_A, Null, NoFields));
    FieldOctets(KEY_A, Null, NoFields);
    assert EncodeFields(NoFields) == [];
    hide EncodeFields;
    assert Encode(UNNAMED) == [3, 0, 0, 0, 0, 1, 0x61, 2, 0, 5, 0, 0, 0, 0, 9];
  }
}
