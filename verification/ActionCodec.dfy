/**
 The ActionData codec of src/chattice/actions.py: typed fields to a flat map of strings and
 back, and the exact condition under which the way back is the identity.
 */
module ActionCodec {
  import opened Options

  /** Types a field may be declared with; an enum is the list of its members' printed values. */
  datatype FieldType = StrT | IntT | BoolT | EnumT(members: seq<string>) | OtherT

  datatype UnionArg = NoneArg | TypeArg(t: FieldType)

  datatype Annotation = Plain(t: FieldType) | Union(args: seq<UnionArg>)

  datatype Value =
    | StrV(s: string)
    | IntV(i: int)
    | BoolV(b: bool)
    | EnumV(members: seq<string>, index: nat)
    | NoneV
    | OtherV

  /** default: None for a required field. */
  datatype Field = Field(name: string, annotation: Annotation, default: Option<Value>)

  type Instance = map<string, Value>

  type Parameters = map<string, string>

  datatype DecodeError = Missing(name: string) | Malformed(name: string)

  datatype EncodeError = NotEncodable

  // ------------------------------------------------------------------ decimal integers

  function Digit(d: nat): char
    requires d < 10
  {
    "0123456789"[d]
  }

  predicate IsDigit(c: char) {
    '0' <= c <= '9'
  }

  function Digits(n: nat): (s: string)
    ensures |s| > 0 && forall i | 0 <= i < |s| :: IsDigit(s[i])
  {
    if n < 10 then [Digit(n)] else Digits(n / 10) + [Digit(n % 10)]
  }

  /** str(int) */
  function Print(i: int): string {
    if i < 0 then "-" + Digits(-i) else Digits(i)
  }

  predicate IsSpace(c: char) {
    c == ' ' || '\t' <= c <= '\r' || '\U{1c}' <= c <= '\U{1f}'
  }

  function StripLeft(s: string): string {
    if s != [] && IsSpace(s[0]) then StripLeft(s[1..]) else s
  }

  function StripRight(s: string): string {
    if s != [] && IsSpace(s[|s| - 1]) then StripRight(s[..|s| - 1]) else s
  }

  /** Digits with single underscores between them. */
  function ParseDigits(s: string): Option<nat> {
    if s == [] || !IsDigit(s[|s| - 1]) then None
    else
      var d := s[|s| - 1] as int - '0' as int;
      if |s| == 1 then Some(d)
      else
        var rest := if s[|s| - 2] == '_' then s[..|s| - 2] else s[..|s| - 1];
        match ParseDigits(rest)
        case Some(n) => Some(10 * n + d)
        case None => None
  }

  /** int(str): surrounding whitespace, a sign, digits. */
  function ParseInt(raw: string): Option<int> {
    var s := StripRight(StripLeft(raw));
    if s == [] then None
    else if s[0] == '-' then
      match ParseDigits(s[1..]) case Some(n) => Some(-(n as int)) case None => None
    else
      match ParseDigits(if s[0] == '+' then s[1..] else s) case Some(n) => Some(n as int) case None => None
  }

  lemma {:induction false} DigitsRoundTrip(n: nat)
    ensures ParseDigits(Digits(n)) == Some(n)
  {
    if n >= 10 {
      DigitsRoundTrip(n / 10);
      var s := Digits(n);
      assert s[..|s| - 1] == Digits(n / 10);
      assert IsDigit(s[|s| - 2]);
    }
  }

  /** int(str(i)) == i for every integer. */
  lemma IntegersRoundTrip(i: int)
    ensures ParseInt(Print(i)) == Some(i)
  {
    var s := Print(i);
    assert !IsSpace(s[0]) && !IsSpace(s[|s| - 1]);
    DigitsRoundTrip(if i < 0 then -i else i);
    if i < 0 {
      assert s[1..] == Digits(-i);
    } else {
      assert IsDigit(s[0]);
    }
  }

  // ------------------------------------------------------------------ which strings are integers

  /** Digits, with single underscores between them. */
  predicate IsDigits(s: string) {
    && s != [] && IsDigit(s[0]) && IsDigit(s[|s| - 1])
    && (forall i | 0 <= i < |s| :: IsDigit(s[i]) || s[i] == '_')
    && (forall i | 0 < i < |s| :: s[i - 1] == '_' ==> s[i] != '_')
  }

  /** The number they write; underscores count for nothing. */
  function Number(s: string): nat
    requires forall i | 0 <= i < |s| :: IsDigit(s[i]) || s[i] == '_'
  {
    if s == [] then 0
    else if s[|s| - 1] == '_' then Number(s[..|s| - 1])
    else assert IsDigit(s[|s| - 1]); 10 * Number(s[..|s| - 1]) + (s[|s| - 1] as int - '0' as int)
  }

  lemma {:induction false} ParsesDigits(s: string)
    ensures ParseDigits(s).Some? <==> IsDigits(s)
    ensures IsDigits(s) ==> ParseDigits(s) == Some(Number(s))
  {
    if |s| > 1 && IsDigit(s[|s| - 1]) {
      var most := s[..|s| - 1];
      var rest := if s[|s| - 2] == '_' then s[..|s| - 2] else most;
      ParsesDigits(rest);
      if s[|s| - 2] == '_' && IsDigits(s) {
        assert most[..|most| - 1] == rest;
        assert s[|s| - 3] != '_';
        assert Number(most) == Number(rest);
      }
      if IsDigits(rest) {
        assert forall i | 0 <= i < |rest| :: s[i] == rest[i];
      }
    } else if |s| == 1 && IsDigit(s[0]) {
      assert s[..0] == [];
    }
  }

  predicate AllSpace(s: string) {
    forall i | 0 <= i < |s| :: IsSpace(s[i])
  }

  /** raw is s between whitespace. */
  predicate Between(raw: string, left: string, s: string, right: string) {
    AllSpace(left) && AllSpace(right) && raw == left + s + right
  }

  predicate Stripped(s: string) {
    s != [] ==> !IsSpace(s[0]) && !IsSpace(s[|s| - 1])
  }

  lemma {:induction false} StripsLeft(raw: string) returns (left: string)
    ensures AllSpace(left) && raw == left + StripLeft(raw)
    ensures StripLeft(raw) != [] ==> !IsSpace(StripLeft(raw)[0])
  {
    left := [];
    if raw != [] && IsSpace(raw[0]) {
      var more := StripsLeft(raw[1..]);
      left := [raw[0]] + more;
    }
  }

  lemma {:induction false} StripsRight(raw: string) returns (right: string)
    ensures AllSpace(right) && raw == StripRight(raw) + right
    ensures StripRight(raw) != [] ==> !IsSpace(StripRight(raw)[|StripRight(raw)| - 1])
  {
    right := [];
    if raw != [] && IsSpace(raw[|raw| - 1]) {
      var more := StripsRight(raw[..|raw| - 1]);
      right := more + [raw[|raw| - 1]];
    }
  }

  lemma Strips(raw: string) returns (left: string, right: string)
    ensures var s := StripRight(StripLeft(raw)); Between(raw, left, s, right) && Stripped(s)
  {
    left := StripsLeft(raw);
    right := StripsRight(StripLeft(raw));
    var s := StripRight(StripLeft(raw));
    if s != [] { assert s[0] == StripLeft(raw)[0]; }
  }

  /** There is one way only to take the whitespace off. */
  lemma StripsOnce(raw: string, l1: string, s1: string, r1: string, l2: string, s2: string, r2: string)
    requires Between(raw, l1, s1, r1) && Between(raw, l2, s2, r2) && Stripped(s1) && Stripped(s2)
    requires s2 != []
    ensures s1 == s2
  {
    assert raw[|l2|] == s2[0] && raw[|l2| + |s2| - 1] == s2[|s2| - 1];
    assert s1 != [] ==> raw[|l1|] == s1[0] && raw[|l1| + |s1| - 1] == s1[|s1| - 1];
    assert |l1| == |l2| && |s1| == |s2|;
    assert s1 == raw[|l1|..|l1| + |s1|] && s2 == raw[|l2|..|l2| + |s2|];
  }

  /** A sign, or none, and digits. */
  predicate WritesInt(s: string, i: int) {
    || (s != [] && s[0] == '-' && IsDigits(s[1..]) && i == -(Number(s[1..]) as int))
    || (s != [] && s[0] == '+' && IsDigits(s[1..]) && i == Number(s[1..]))
    || (IsDigits(s) && i == Number(s))
  }

  /** The strings int() accepts as i: a literal between any whitespace. */
  ghost predicate IsInteger(raw: string, i: int) {
    exists left, s, right :: Between(raw, left, s, right) && WritesInt(s, i)
  }

  /** int(str) reads exactly the integer literals: optional whitespace around an optional sign and
      digits that single underscores may group. */
  lemma ParsesIntegersExactly(raw: string, i: int)
    ensures ParseInt(raw) == Some(i) <==> IsInteger(raw, i)
  {
    var l, r := Strips(raw);
    var s := StripRight(StripLeft(raw));
    ParsesDigits(s);
    if s != [] { ParsesDigits(s[1..]); }
    assert ParseInt(raw) == Some(i) <==> WritesInt(s, i);
    forall left, other, right | Between(raw, left, other, right) && WritesInt(other, i) ensures other == s {
      StripsOnce(raw, l, s, r, left, other, right);
    }
  }

  /** The whitespace of ASCII, which int() drops at both ends. */
  const WHITESPACE := "\t\n\U{b}\U{c}\r\U{1c}\U{1d}\U{1e}\U{1f} "

  lemma WhitespaceIsDropped(i: int, left: char, right: char)
    ensures left in WHITESPACE && right in WHITESPACE ==> ParseInt([left] + Print(i) + [right]) == Some(i)
    ensures IsSpace(left) <==> left in WHITESPACE
  {
    if left in WHITESPACE && right in WHITESPACE {
      var s := Print(i);
      PrintsItself(i);
      assert Between([left] + s + [right], [left], s, [right]) && WritesInt(s, i);
      ParsesIntegersExactly([left] + s + [right], i);
    }
  }

  lemma PrintsItself(i: int)
    ensures WritesInt(Print(i), i)
  {
    var digits := Digits(if i < 0 then -i else i);
    DigitsRoundTrip(if i < 0 then -i else i);
    ParsesDigits(digits);
    if i < 0 { assert Print(i)[1..] == digits; }
  }

  // ------------------------------------------------------------------ one value

  function EncodeValue(v: Value): Result<string, EncodeError> {
    match v
    case BoolV(b) => Ok(if b then "true" else "false")
    case StrV(s) => Ok(s)
    case IntV(i) => Ok(Print(i))
    case EnumV(members, i) => if i < |members| then Ok(members[i]) else Err(NotEncodable)
    case _ => Err(NotEncodable)
  }

  /** The first member that prints as raw. */
  function FindMember(members: seq<string>, raw: string, from: nat): Option<nat>
    requires from <= |members|
    decreases |members| - from
  {
    if from == |members| then None
    else if members[from] == raw then Some(from)
    else FindMember(members, raw, from + 1)
  }

  function DecodeValue(name: string, raw: string, target: FieldType): Result<Value, DecodeError> {
    match target
    case StrT => Ok(StrV(raw))
    case IntT => (match ParseInt(raw) case Some(i) => Ok(IntV(i)) case None => Err(Malformed(name)))
    case BoolT =>
      if raw == "true" then Ok(BoolV(true)) else if raw == "false" then Ok(BoolV(false)) else Err(Malformed(name))
    case EnumT(members) =>
      (match FindMember(members, raw, 0) case Some(i) => Ok(EnumV(members, i)) case None => Err(Malformed(name)))
    case OtherT => Err(Malformed(name))
  }

  /** X | None is X, in either order; any other union stays what it is, which is undecodable. */
  function Unwrap(a: Annotation): FieldType {
    match a
    case Plain(t) => t
    case Union(args) =>
      if |args| == 2 && NoneArg in args then
        var x := if args[1] == NoneArg then args[0] else args[1];
        if x.TypeArg? then x.t else OtherT
      else OtherT
  }

  /** The value is of the field's type, or None. */
  predicate HasType(v: Value, t: FieldType) {
    match v
    case StrV(_) => t == StrT
    case IntV(_) => t == IntT
    case BoolV(_) => t == BoolT
    case EnumV(members, i) => t == EnumT(members) && i < |members|
    case NoneV => true
    case OtherV => false
  }

  /** No earlier member of the enum prints the same. */
  predicate FirstOfItsName(v: Value) {
    v.EnumV? && v.index < |v.members| ==> forall j | 0 <= j < v.index :: v.members[j] != v.members[v.index]
  }

  lemma FindsFirst(members: seq<string>, i: nat, from: nat)
    requires from <= i < |members|
    ensures
      var r := FindMember(members, members[i], from);
      r.Some? && from <= r.value <= i && members[r.value] == members[i]
      && (forall j | from <= j < r.value :: members[j] != members[i])
    decreases i - from
  {
    if members[from] != members[i] { FindsFirst(members, i, from + 1); }
  }

  /** A value other than None comes back as itself, an enum member as the first of its name. */
  lemma ValueRoundTrip(name: string, v: Value, t: FieldType)
    requires HasType(v, t) && v != NoneV
    ensures EncodeValue(v).Ok? && DecodeValue(name, EncodeValue(v).value, t).Ok?
    ensures DecodeValue(name, EncodeValue(v).value, t) == Ok(v) <==> FirstOfItsName(v)
  {
    match v {
      case IntV(i) => IntegersRoundTrip(i);
      case EnumV(members, i) => FindsFirst(members, i, 0);
      case _ =>
    }
  }

  /** The string stands for the value in a field of this type. */
  ghost predicate Denotes(raw: string, t: FieldType, v: Value) {
    match t
    case StrT => v == StrV(raw)
    case IntT => v.IntV? && IsInteger(raw, v.i)
    case BoolT => (v == BoolV(true) && raw == "true") || (v == BoolV(false) && raw == "false")
    case EnumT(members) =>
      v.EnumV? && v.members == members && v.index < |members| && members[v.index] == raw && FirstOfItsName(v)
    case OtherT => false
  }

  lemma {:induction false} FindsMembers(members: seq<string>, raw: string, from: nat)
    requires from <= |members|
    ensures
      match FindMember(members, raw, from)
      case Some(i) => from <= i < |members| && members[i] == raw && forall j | from <= j < i :: members[j] != raw
      case None => forall j | from <= j < |members| :: members[j] != raw
    decreases |members| - from
  {
    if from < |members| && members[from] != raw { FindsMembers(members, raw, from + 1); }
  }

  /** A string decodes to a value exactly if it stands for it: true and false only, integer literals
      only, the first member that prints so; and everything else is malformed. */
  lemma ValuesDecodeExactly(name: string, raw: string, t: FieldType, v: Value)
    ensures DecodeValue(name, raw, t) == Ok(v) <==> Denotes(raw, t, v)
    ensures DecodeValue(name, raw, t).Err? ==> DecodeValue(name, raw, t) == Err(Malformed(name))
  {
    match t {
      case IntT => if v.IntV? { ParsesIntegersExactly(raw, v.i); }
      case EnumT(members) => FindsMembers(members, raw, 0);
      case _ =>
    }
  }

  // ------------------------------------------------------------------ the whole model

  predicate DistinctNames(fields: seq<Field>) {
    forall i, j | 0 <= i < j < |fields| :: fields[i].name != fields[j].name
  }

  function Names(fields: seq<Field>): set<string> {
    set i | 0 <= i < |fields| :: fields[i].name
  }

  predicate IsInstance(fields: seq<Field>, x: Instance) {
    x.Keys == Names(fields)
  }

  predicate WellTyped(fields: seq<Field>, x: Instance) {
    && DistinctNames(fields) && IsInstance(fields, x)
    && forall i | 0 <= i < |fields| :: HasType(x[fields[i].name], Unwrap(fields[i].annotation))
  }

  /** What to_parameters has produced after the given fields. */
  function Encoded(fields: seq<Field>, x: Instance): Result<Parameters, EncodeError> {
    if fields == [] then Ok(map[]) else
      var f := fields[|fields| - 1];
      match Encoded(fields[..|fields| - 1], x)
      case Err(e) => Err(e)
      case Ok(p) =>
        if f.name !in x then Err(NotEncodable)
        else if x[f.name] == NoneV then Ok(p)
        else match EncodeValue(x[f.name])
             case Err(e) => Err(e)
             case Ok(s) => Ok(p[f.name := s])
  }

  function DecodeField(f: Field, p: Parameters): Result<Value, DecodeError> {
    if f.name in p then DecodeValue(f.name, p[f.name], Unwrap(f.annotation))
    else match f.default case Some(v) => Ok(v) case None => Err(Missing(f.name))
  }

  /** What from_parameters has produced after the given fields, defaults filled in. */
  function Decoded(fields: seq<Field>, p: Parameters): Result<Instance, DecodeError> {
    if fields == [] then Ok(map[]) else
      var f := fields[|fields| - 1];
      match Decoded(fields[..|fields| - 1], p)
      case Err(e) => Err(e)
      case Ok(x) => match DecodeField(f, p)
                    case Err(e) => Err(e)
                    case Ok(v) => Ok(x[f.name := v])
  }

  method ToParameters(fields: seq<Field>, x: Instance) returns (r: Result<Parameters, EncodeError>)
    requires IsInstance(fields, x)
    ensures r == Encoded(fields, x)
  {
    var parameters: Parameters := map[];
    for i := 0 to |fields|
      invariant Encoded(fields[..i], x) == Ok(parameters)
    {
      assert fields[..i + 1][..i] == fields[..i];
      var value := x[fields[i].name];
      if value != NoneV {
        var encoded := EncodeValue(value);
        if encoded.Err? {
          FailureStays(fields, x, i + 1);
          return Err(encoded.error);
        }
        parameters := parameters[fields[i].name := encoded.value];
      }
    }
    assert fields[..|fields|] == fields;
    return Ok(parameters);
  }

  lemma {:induction false} FailureStays(fields: seq<Field>, x: Instance, n: nat)
    requires n <= |fields| && Encoded(fields[..n], x).Err?
    ensures Encoded(fields, x) == Encoded(fields[..n], x)
    decreases |fields| - n
  {
    if n < |fields| {
      assert fields[..n + 1][..n] == fields[..n];
      FailureStays(fields, x, n + 1);
    } else {
      assert fields[..n] == fields;
    }
  }

  /** values: the decoded arguments; the dataclass constructor then fills in the defaults. */
  method FromParameters(fields: seq<Field>, p: Parameters) returns (r: Result<Instance, DecodeError>)
    requires DistinctNames(fields)
    ensures r == Decoded(fields, p)
  {
    var values: Instance := map[];
    for i := 0 to |fields|
      invariant Decoded(fields[..i], p).Ok?
      invariant forall j | 0 <= j < i && fields[j].name !in p :: fields[j].default.Some?
      invariant Decoded(fields[..i], p).value == WithDefaults(fields[..i], values)
      invariant forall name | name in values :: exists j | 0 <= j < i :: fields[j].name == name && name in p
    {
      assert fields[..i + 1][..i] == fields[..i];
      var f := fields[i];
      if f.name !in p {
        if f.default == None {
          DecodeFailureStays(fields, p, i + 1);
          return Err(Missing(f.name));
        }
      } else {
        var v := DecodeValue(f.name, p[f.name], Unwrap(f.annotation));
        if v.Err? {
          DecodeFailureStays(fields, p, i + 1);
          return Err(v.error);
        }
        DefaultsIgnore(fields[..i], values, f.name, v.value);
        values := values[f.name := v.value];
      }
    }
    assert fields[..|fields|] == fields;
    return Ok(WithDefaults(fields, values));
  }

  /** The dataclass constructor. */
  function WithDefaults(fields: seq<Field>, values: Instance): Instance {
    if fields == [] then map[] else
      var f := fields[|fields| - 1];
      var x := WithDefaults(fields[..|fields| - 1], values);
      if f.name in values then x[f.name := values[f.name]]
      else if f.default.Some? then x[f.name := f.default.value]
      else x
  }

  lemma {:induction false} DefaultsIgnore(fields: seq<Field>, values: Instance, name: string, v: Value)
    requires forall i | 0 <= i < |fields| :: fields[i].name != name
    ensures WithDefaults(fields, values[name := v]) == WithDefaults(fields, values)
  {
    if fields != [] {
      DefaultsIgnore(fields[..|fields| - 1], values, name, v);
    }
  }

  lemma {:induction false} DecodeFailureStays(fields: seq<Field>, p: Parameters, n: nat)
    requires n <= |fields| && Decoded(fields[..n], p).Err?
    ensures Decoded(fields, p) == Decoded(fields[..n], p)
    decreases |fields| - n
  {
    if n < |fields| {
      assert fields[..n + 1][..n] == fields[..n];
      DecodeFailureStays(fields, p, n + 1);
    } else {
      assert fields[..n] == fields;
    }
  }

  /** An optional field decodes like one of its plain type, whichever way round it is written; with
      any other union a parameter of the field's name is malformed. */
  lemma OptionalFieldsDecodeAsTheirType(
    name: string, annotation: Annotation, t: FieldType, default: Option<Value>, p: Parameters)
    requires annotation.Union?
    ensures annotation.args == [TypeArg(t), NoneArg] || annotation.args == [NoneArg, TypeArg(t)] ==>
      DecodeField(Field(name, annotation, default), p) == DecodeField(Field(name, Plain(t), default), p)
    ensures
      && name in p
      && (forall u :: annotation.args != [TypeArg(u), NoneArg] && annotation.args != [NoneArg, TypeArg(u)])
      ==> DecodeField(Field(name, annotation, default), p) == Err(Malformed(name))
  {
    var args := annotation.args;
    if |args| == 2 && NoneArg in args {
      assert args == [args[0], args[1]];
      var x := if args[1] == NoneArg then args[0] else args[1];
      if x.TypeArg? { assert args == [TypeArg(x.t), NoneArg] || args == [NoneArg, TypeArg(x.t)]; }
    }
  }

  /** A failing decode reports the first field that does not decode. */
  lemma {:induction false} FirstFailureIsReported(fields: seq<Field>, p: Parameters) returns (k: nat)
    requires Decoded(fields, p).Err?
    ensures k < |fields| && DecodeField(fields[k], p) == Err(Decoded(fields, p).error)
    ensures forall i | 0 <= i < k :: DecodeField(fields[i], p).Ok?
  {
    var before := fields[..|fields| - 1];
    if Decoded(before, p).Err? {
      k := FirstFailureIsReported(before, p);
    } else {
      k := |before|;
      OkMeansOk(before, p);
    }
  }

  lemma {:induction false} OkMeansOk(fields: seq<Field>, p: Parameters)
    requires Decoded(fields, p).Ok?
    ensures forall i | 0 <= i < |fields| :: DecodeField(fields[i], p).Ok?
  {
    if fields != [] { OkMeansOk(fields[..|fields| - 1], p); }
  }

  /** A parameter decodes as its field's type says; without one, the default stands in, and a field
      without a default is missing. */
  lemma FieldsDecodeExactly(f: Field, p: Parameters, t: FieldType, v: Value)
    requires f.annotation == Plain(t)
    ensures DecodeField(f, p) == Ok(v) <==> if f.name in p then Denotes(p[f.name], t, v) else f.default == Some(v)
    ensures DecodeField(f, p).Err? ==>
      DecodeField(f, p) == Err(if f.name in p then Malformed(f.name) else Missing(f.name))
  {
    if f.name in p { ValuesDecodeExactly(f.name, p[f.name], t, v); }
  }

  // ------------------------------------------------------------------ round trips

  /** The parameters are exactly the fields that are not None, each encoded. */
  predicate EncodesTo(fields: seq<Field>, x: Instance, p: Parameters)
    requires forall i | 0 <= i < |fields| :: fields[i].name in x
  {
    && (forall name | name in p :: exists i | 0 <= i < |fields| :: fields[i].name == name && x[name] != NoneV)
    && (forall i | 0 <= i < |fields| && x[fields[i].name] != NoneV ::
          fields[i].name in p && Ok(p[fields[i].name]) == EncodeValue(x[fields[i].name]))
  }

  lemma EncodesOneMore(fields: seq<Field>, x: Instance, f: Field, p: Parameters, q: Parameters)
    requires f.name in x && forall i | 0 <= i < |fields| :: fields[i].name in x && fields[i].name != f.name
    requires EncodesTo(fields, x, p)
    requires x[f.name] == NoneV ==> q == p
    requires x[f.name] != NoneV ==> EncodeValue(x[f.name]).Ok? && q == p[f.name := EncodeValue(x[f.name]).value]
    ensures EncodesTo(fields + [f], x, q)
  {
    var longer := fields + [f];
    forall name | name in q ensures exists i | 0 <= i < |longer| :: longer[i].name == name && x[name] != NoneV {
      if name in p {
        var i :| 0 <= i < |fields| && fields[i].name == name && x[name] != NoneV;
        assert longer[i].name == name;
      } else {
        assert longer[|fields|].name == name;
      }
    }
  }

  /** A well-typed instance encodes, to exactly its fields that are not None. */
  lemma {:induction false} EncodesItsFields(fields: seq<Field>, x: Instance)
    requires DistinctNames(fields)
    requires forall i | 0 <= i < |fields| ::
      fields[i].name in x && HasType(x[fields[i].name], Unwrap(fields[i].annotation))
    ensures Encoded(fields, x).Ok? && EncodesTo(fields, x, Encoded(fields, x).value)
  {
    if fields != [] {
      var before, f := fields[..|fields| - 1], fields[|fields| - 1];
      EncodesItsFields(before, x);
      if x[f.name] != NoneV { ValueRoundTrip(f.name, x[f.name], Unwrap(f.annotation)); }
      EncodesOneMore(before, x, f, Encoded(before, x).value, Encoded(fields, x).value);
      assert fields == before + [f];
    }
  }

  /** The value has a printed form, or is left out. */
  predicate Encodable(v: Value) {
    v == NoneV || (v != OtherV && (v.EnumV? ==> v.index < |v.members|))
  }

  /** Encoding fails exactly on a value of an unsupported type, whatever its field's type. */
  lemma {:induction false} EncodingFailsExactly(fields: seq<Field>, x: Instance)
    requires forall i | 0 <= i < |fields| :: fields[i].name in x
    ensures Encoded(fields, x).Ok? <==> forall i | 0 <= i < |fields| :: Encodable(x[fields[i].name])
  {
    if fields != [] {
      EncodingFailsExactly(fields[..|fields| - 1], x);
    }
  }

  lemma NamesSplit(fields: seq<Field>)
    requires fields != [] && DistinctNames(fields)
    ensures
      var before, f := fields[..|fields| - 1], fields[|fields| - 1];
      DistinctNames(before) && f.name !in Names(before) && Names(fields) == Names(before) + {f.name}
  {
    var before := fields[..|fields| - 1];
    forall name | name in Names(fields) ensures name in Names(before) + {fields[|fields| - 1].name} {
      var i :| 0 <= i < |fields| && fields[i].name == name;
      if i < |before| { assert before[i].name == name; }
    }
  }

  /** A successful decode has exactly the model's fields, each with its own value. */
  lemma {:induction false} DecodesToFields(fields: seq<Field>, p: Parameters)
    requires DistinctNames(fields) && Decoded(fields, p).Ok?
    ensures IsInstance(fields, Decoded(fields, p).value)
    ensures forall i | 0 <= i < |fields| :: DecodeField(fields[i], p) == Ok(Decoded(fields, p).value[fields[i].name])
  {
    if fields != [] {
      NamesSplit(fields);
      DecodesToFields(fields[..|fields| - 1], p);
    }
  }

  lemma {:induction false} FieldsDecode(fields: seq<Field>, p: Parameters)
    requires forall i | 0 <= i < |fields| :: DecodeField(fields[i], p).Ok?
    ensures Decoded(fields, p).Ok?
  {
    if fields != [] { FieldsDecode(fields[..|fields| - 1], p); }
  }

  /** Decoding succeeds exactly when every field decodes, and then gives each field its value. */
  lemma DecodesFieldwise(fields: seq<Field>, p: Parameters, x: Instance)
    requires DistinctNames(fields)
    ensures Decoded(fields, p) == Ok(x) <==>
      IsInstance(fields, x) && forall i | 0 <= i < |fields| :: DecodeField(fields[i], p) == Ok(x[fields[i].name])
  {
    if Decoded(fields, p).Ok? {
      DecodesToFields(fields, p);
    }
    if IsInstance(fields, x) && forall i | 0 <= i < |fields| :: DecodeField(fields[i], p) == Ok(x[fields[i].name]) {
      FieldsDecode(fields, p);
      var y := Decoded(fields, p).value;
      forall name | name in x ensures y[name] == x[name] {
        var i :| 0 <= i < |fields| && fields[i].name == name;
        assert DecodeField(fields[i], p) == Ok(y[fields[i].name]);
      }
      assert y == x;
    }
  }

  /** The field survives the trip: a None has None as its default to come back from, an enum
      member is the first of its printed name. */
  predicate Survives(f: Field, v: Value) {
    (v == NoneV ==> f.default == Some(NoneV)) && FirstOfItsName(v)
  }

  /** from_parameters(to_parameters(x)) == x holds exactly when every field survives. */
  lemma RoundTripExactly(fields: seq<Field>, x: Instance)
    requires WellTyped(fields, x)
    ensures Encoded(fields, x).Ok?
    ensures Decoded(fields, Encoded(fields, x).value) == Ok(x) <==>
      forall i | 0 <= i < |fields| :: Survives(fields[i], x[fields[i].name])
  {
    EncodesItsFields(fields, x);
    var p := Encoded(fields, x).value;
    DecodesFieldwise(fields, p, x);
    forall i | 0 <= i < |fields|
      ensures DecodeField(fields[i], p) == Ok(x[fields[i].name]) <==> Survives(fields[i], x[fields[i].name])
    {
      var f := fields[i];
      if x[f.name] != NoneV {
        ValueRoundTrip(f.name, x[f.name], Unwrap(f.annotation));
      } else {
        assert f.name !in p;
      }
    }
  }

  /** One-field models that do not survive: a None comes back as another default of its field,
      and an enum member as the earlier one that prints the same. */
  lemma TripsThatChangeTheValue(f: Field, name: string, printed: string)
    requires f.default.Some? && f.default.value != NoneV
    ensures
      var x := map[f.name := NoneV];
      && WellTyped([f], x) && Encoded([f], x) == Ok(map[])
      && Decoded([f], map[]) == Ok(map[f.name := f.default.value])
    ensures
      var members := [printed, printed];
      var g, x := Field(name, Plain(EnumT(members)), None), map[name := EnumV(members, 1)];
      && WellTyped([g], x) && Encoded([g], x).Ok?
      && Decoded([g], Encoded([g], x).value) == Ok(map[name := EnumV(members, 0)])
  {
    var x := map[f.name := NoneV];
    assert [f][..0] == [];
    EncodesItsFields([f], x);
    var members := [printed, printed];
    var g, y := Field(name, Plain(EnumT(members)), None), map[name := EnumV(members, 1)];
    assert [g][..0] == [];
    EncodesItsFields([g], y);
    FindsFirst(members, 1, 0);
  }

  /** Parameters nobody declared never change the decode. */
  lemma {:induction false} UnknownParametersAreIgnored(fields: seq<Field>, p: Parameters, extra: Parameters)
    requires forall i | 0 <= i < |fields| :: fields[i].name !in extra
    ensures Decoded(fields, p + extra) == Decoded(fields, p)
  {
    if fields != [] {
      UnknownParametersAreIgnored(fields[..|fields| - 1], p, extra);
    }
  }
}
