/**
 * i2s: filling a Go value of a known type from an untyped JSON value tree, the way the
 * reflection-based decoder does it. Struct fields are looked up by their exact Go name;
 * strings, numbers and booleans set string, int and bool fields; a nested map fills a
 * nested struct; a list appends freshly decoded structs to a slice field.
 */
module I2s {
  import opened Wrappers
  import opened Json

  /** The Go types the decoder can meet; OtherT stands for every other kind. */
  datatype Type =
    | IntT
    | StringT
    | BoolT
    | StructT(fields: seq<FieldType>)
    | SliceT(elem: Type)
    | OtherT

  datatype FieldType = FieldType(name: string, typ: Type)

  /** Go values of those types; a struct holds its field values in declaration order. */
  datatype GoValue =
    | IntV(i: int)
    | StringV(s: string)
    | BoolV(b: bool)
    | StructV(vals: seq<GoValue>)
    | SliceV(items: seq<GoValue>)
    | OtherV

  predicate HasType(v: GoValue, t: Type)
    decreases t
  {
    match t
    case IntT => v.IntV?
    case StringT => v.StringV?
    case BoolT => v.BoolV?
    case StructT(fs) =>
      v.StructV? && |v.vals| == |fs| && forall i :: 0 <= i < |fs| ==> HasType(v.vals[i], fs[i].typ)
    case SliceT(e) => v.SliceV? && forall j :: 0 <= j < |v.items| ==> HasType(v.items[j], e)
    case OtherT => v.OtherV?
  }

  /** The zero value reflect.New gives a freshly allocated element. */
  function Zero(t: Type): (z: GoValue)
    ensures HasType(z, t)
    decreases t
  {
    match t
    case IntT => IntV(0)
    case StringT => StringV("")
    case BoolT => BoolV(false)
    case StructT(fs) => StructV(seq(|fs|, i requires 0 <= i < |fs| => Zero(fs[i].typ)))
    case SliceT(_) => SliceV([])
    case OtherT => OtherV
  }

  /**
   * The data the decoder handles without panicking when it fills a struct of type `st`:
   * anything that is not a map (no field is set), or a map whose entry for each field
   * suits that field's type.
   */
  predicate FitsStruct(st: Type, data: Value)
    requires st.StructT?
    decreases st, 0
  {
    data.Object? ==>
      forall i :: 0 <= i < |st.fields| ==> FitsField(st.fields[i].typ, Lookup(data.members, st.fields[i].name))
  }

  /**
   * A value the decoder can store in a field of type `t`; nil is skipped, and so is an
   * empty list, whose element loop never runs whatever the field's type.
   */
  predicate FitsField(t: Type, v: Value)
    decreases t, 1
  {
    match v
    case Null => true
    case Str(_) => t == StringT
    case Number(_) => t == IntT
    case Bool(_) => t == BoolT
    case Object(_) => t.StructT? && FitsStruct(t, v)
    case List(items) =>
      |items| == 0 || (t.SliceT? && t.elem.StructT? && forall j :: 0 <= j < |items| ==> FitsStruct(t.elem, items[j]))
  }

  /** fillStructFromMap as a function: the struct `sv` of type `st` after filling it from `data`. */
  function FillStruct(st: Type, sv: GoValue, data: Value): (r: GoValue)
    requires st.StructT? && HasType(sv, st) && FitsStruct(st, data)
    ensures HasType(r, st)
    ensures !data.Object? ==> r == sv
    ensures data.Object? ==> forall i :: 0 <= i < |st.fields| && Lookup(data.members, st.fields[i].name).Null? ==>
              r.vals[i] == sv.vals[i]
    decreases st, 0
  {
    if !data.Object? then sv
    else
      StructV(seq(|st.fields|, i requires 0 <= i < |st.fields| =>
        FillField(st.fields[i].typ, sv.vals[i], Lookup(data.members, st.fields[i].name))))
  }

  /** One field of type `t` holding `cur`, after the decoder has seen the value `v` for it. */
  function FillField(t: Type, cur: GoValue, v: Value): (r: GoValue)
    requires HasType(cur, t) && FitsField(t, v)
    ensures HasType(r, t)
    ensures v.Str? ==> r == StringV(v.s)
    ensures v.Number? ==> r == IntV(v.n)
    ensures v.Bool? ==> r == BoolV(v.b)
    ensures v.List? && |v.items| == 0 ==> r == cur
    ensures v.List? && |v.items| > 0 ==> |r.items| == |cur.items| + |v.items| && r.items[..|cur.items|] == cur.items
    decreases t, 1
  {
    match v
    case Null => cur
    case Str(s) => StringV(s)
    case Number(n) => IntV(n)
    case Bool(b) => BoolV(b)
    case Object(_) => FillStruct(t, cur, v)
    case List(items) =>
      if |items| == 0 then cur
      else
        var decoded := DecodeList(t.elem, items);
        assert (cur.items + decoded)[..|cur.items|] == cur.items;
        SliceV(cur.items + decoded)
  }

  /** Each element decoded into a freshly allocated struct of type `et`, in list order. */
  function DecodeList(et: Type, items: seq<Value>): (r: seq<GoValue>)
    requires |items| == 0 || (et.StructT? && forall j :: 0 <= j < |items| ==> FitsStruct(et, items[j]))
    ensures |r| == |items|
    ensures forall j :: 0 <= j < |r| ==> HasType(r[j], et)
    decreases et, 1
  {
    seq(|items|, j requires 0 <= j < |items| => FillStruct(et, Zero(et), items[j]))
  }

  // ----- the decoder as written: loops over fields and list elements -----

  /** fillStructFromMap: set each field whose name the map holds, in field order. */
  method FillStructFromMap(st: Type, sv: GoValue, data: Value) returns (res: GoValue)
    requires st.StructT? && HasType(sv, st) && FitsStruct(st, data)
    ensures res == FillStruct(st, sv, data)
    decreases st, 0
  {
    var n := |st.fields|;
    var vals := sv.vals;
    for i := 0 to n
      invariant |vals| == n
      invariant forall j :: 0 <= j < i ==>
                  vals[j] == (if data.Object? then FillField(st.fields[j].typ, sv.vals[j], Lookup(data.members, st.fields[j].name))
                              else sv.vals[j])
      invariant forall j :: i <= j < n ==> vals[j] == sv.vals[j]
    {
      var fName := st.fields[i].name;
      if data.Object? {
        var ft := st.fields[i].typ;
        var v := Lookup(data.members, fName);
        assert FitsField(ft, v);
        match v {
          case Null =>
          case Str(s) =>
            vals := vals[i := StringV(s)];
          case Number(k) =>
            vals := vals[i := IntV(k)];
          case Bool(b) =>
            vals := vals[i := BoolV(b)];
          case Object(_) =>
            var nested := FillStructFromMap(ft, vals[i], v);
            vals := vals[i := nested];
          case List(items) =>
            // the element loop runs zero times on an empty list, whatever the field's type
            if |items| > 0 {
              var acc := vals[i].items;
              var decoded := FillStructs(ft.elem, items);
              acc := acc + decoded;
              vals := vals[i := SliceV(acc)];
            }
        }
      }
    }
    res := StructV(vals);
    assert !data.Object? ==> vals == sv.vals;
  }

  /** The loop over a list's elements: each decoded into a fresh struct and collected in order. */
  method FillStructs(et: Type, items: seq<Value>) returns (res: seq<GoValue>)
    requires |items| == 0 || (et.StructT? && forall j :: 0 <= j < |items| ==> FitsStruct(et, items[j]))
    ensures res == DecodeList(et, items)
    decreases et, 1
  {
    res := [];
    for ix := 0 to |items|
      invariant res == DecodeList(et, items[..ix])
    {
      var tmp := FillStructFromMap(et, Zero(et), items[ix]);
      res := res + [tmp];
      assert items[..ix + 1][..ix] == items[..ix];
    }
    assert items[..|items|] == items;
  }

  /** fillStructFromSlice: decode each element of the list and append it to the slice `sv`. */
  method FillStructFromSlice(st: Type, sv: GoValue, data: Value) returns (res: GoValue)
    requires st.SliceT? && HasType(sv, st)
    requires data.List? && (|data.items| == 0 || (st.elem.StructT? && forall j :: 0 <= j < |data.items| ==> FitsStruct(st.elem, data.items[j])))
    ensures res == SliceV(sv.items + DecodeList(st.elem, data.items))
  {
    var decoded := FillStructs(st.elem, data.items);
    res := SliceV(sv.items + decoded);
  }

  const NotStruct := "out must be struct"

  /**
   * i2s: `out` points to a value of type `t` holding `cur`. Anything but a struct or a
   * slice is refused and left alone; otherwise the value is filled and there is no error.
   */
  method Decode(data: Value, t: Type, cur: GoValue) returns (err: Option<string>, res: GoValue)
    requires HasType(cur, t)
    requires t.StructT? ==> FitsStruct(t, data)
    requires t.SliceT? ==> data.List? && (|data.items| == 0 || (t.elem.StructT? && forall j :: 0 <= j < |data.items| ==> FitsStruct(t.elem, data.items[j])))
    ensures err.Some? <==> !(t.StructT? || t.SliceT?)
    ensures err.Some? ==> err.value == NotStruct && res == cur
    ensures t.StructT? ==> res == FillStruct(t, cur, data)
    ensures t.SliceT? ==> res == SliceV(cur.items + DecodeList(t.elem, data.items))
  {
    if !t.StructT? && !t.SliceT? {
      return Some(NotStruct), cur;
    }
    res := cur;
    if t.StructT? {
      res := FillStructFromMap(t, cur, data);
    }
    if t.SliceT? {
      res := FillStructFromSlice(t, cur, data);
    }
    err := None;
  }

  // ----- round trip through the JSON encoder -----

  predicate DistinctNames(fs: seq<FieldType>)
  {
    forall i, j :: 0 <= i < j < |fs| ==> fs[i].name != fs[j].name
  }

  /** The types the decoder fully supports: no other kinds, slices of structs, distinct field names. */
  predicate Supported(t: Type)
    decreases t
  {
    match t
    case IntT => true
    case StringT => true
    case BoolT => true
    case StructT(fs) => DistinctNames(fs) && forall i :: 0 <= i < |fs| ==> Supported(fs[i].typ)
    case SliceT(e) => e.StructT? && Supported(e)
    case OtherT => false
  }

  /** What json.Marshal followed by json.Unmarshal into interface{} gives for a typed value. */
  function Encode(t: Type, v: GoValue): (r: Value)
    requires HasType(v, t) && Supported(t)
    decreases t, 1, 0
  {
    match t
    case IntT => Number(v.i)
    case StringT => Str(v.s)
    case BoolT => Bool(v.b)
    case StructT(fs) => Object(EncodeMembers(t, v, |fs|))
    case SliceT(e) => List(seq(|v.items|, j requires 0 <= j < |v.items| => Encode(e, v.items[j])))
  }

  /** The JSON object members for the first `n` fields of a struct: each field's encoding under its name. */
  function EncodeMembers(t: Type, v: GoValue, n: nat): (m: map<string, Value>)
    requires t.StructT? && HasType(v, t) && Supported(t) && n <= |t.fields|
    ensures forall i :: 0 <= i < n ==> t.fields[i].name in m && m[t.fields[i].name] == Encode(t.fields[i].typ, v.vals[i])
    decreases t, 0, n
  {
    if n == 0 then map[]
    else
      var m := EncodeMembers(t, v, n - 1);
      m[t.fields[n - 1].name := Encode(t.fields[n - 1].typ, v.vals[n - 1])]
  }

  /**
   * Decoding what the encoder produced, into a zero value, gives the value back; in
   * particular the encoded data never makes the decoder panic.
   */
  lemma {:induction false} RoundTrip(t: Type, v: GoValue)
    requires HasType(v, t) && Supported(t)
    ensures FitsField(t, Encode(t, v))
    ensures FillField(t, Zero(t), Encode(t, v)) == v
    decreases t
  {
    match t
    case IntT =>
    case StringT =>
    case BoolT =>
    case StructT(fs) =>
      var data := Encode(t, v);
      forall i | 0 <= i < |fs|
        ensures FitsField(fs[i].typ, Lookup(data.members, fs[i].name))
        ensures FillField(fs[i].typ, Zero(t).vals[i], Lookup(data.members, fs[i].name)) == v.vals[i]
      {
        RoundTrip(fs[i].typ, v.vals[i]);
      }
      assert FitsStruct(t, data);
      assert FillStruct(t, Zero(t), data).vals == v.vals;
    case SliceT(e) =>
      var data := Encode(t, v);
      forall j | 0 <= j < |v.items|
        ensures FitsStruct(e, data.items[j])
        ensures FillStruct(e, Zero(e), data.items[j]) == v.items[j]
      {
        RoundTrip(e, v.items[j]);
      }
      assert DecodeList(e, data.items) == v.items;
      assert Zero(t).items + v.items == v.items;
  }

  /** A struct decoded from the encoding of a value of its type into a zero value is that value. */
  lemma DecodeEncoded(t: Type, v: GoValue)
    requires t.StructT? && HasType(v, t) && Supported(t)
    ensures FitsStruct(t, Encode(t, v))
    ensures FillStruct(t, Zero(t), Encode(t, v)) == v
  {
    RoundTrip(t, v);
  }
}
