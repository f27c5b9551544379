/** The JavaScript values and the built-in conversions the off-chain scripts rely on:
    ToBoolean (truthiness), String(), parseInt, Number(), isNaN, typeof, property
    reads and object spreads, and the few string methods the scripts call. */
module Js {
  import opened Wrappers

  /** A JavaScript value as the scripts see it. Numbers are integers or NaN;
      an object is its own properties in insertion order. */
  datatype Json =
    | Undefined
    | Null
    | Bool(b: bool)
    | Num(n: int)
    | NaN
    | Str(s: string)
    | Arr(items: seq<Json>)
    | Obj(fields: seq<(string, Json)>)

  /** ToBoolean: undefined, null, false, 0, NaN and "" are falsy. */
  predicate Truthy(v: Json) {
    match v
    case Undefined => false
    case Null => false
    case NaN => false
    case Bool(b) => b
    case Num(n) => n != 0
    case Str(s) => s != ""
    case Arr(_) => true
    case Obj(_) => true
  }

  /** `a || b` */
  function Or(a: Json, b: Json): Json {
    if Truthy(a) then a else b
  }

  /** `a === b`. NaN equals nothing; two objects or arrays are taken to be
      distinct references, as values read from different places are. */
  predicate StrictEquals(a: Json, b: Json) {
    a == b && !a.NaN? && !a.Arr? && !a.Obj?
  }

  predicate Nullish(v: Json) {
    v.Undefined? || v.Null?
  }

  /** What the `typeof` operator can answer here ("undefined", "object",
      "boolean", "number", "string"; functions and symbols are not values
      of this model). */
  datatype Type = UndefinedType | ObjectType | BooleanType | NumberType | StringType

  /** The `typeof` operator: null and arrays are objects, NaN is a number. */
  function TypeOf(v: Json): Type {
    match v
    case Undefined => UndefinedType
    case Null => ObjectType
    case Bool(_) => BooleanType
    case Num(_) => NumberType
    case NaN => NumberType
    case Str(_) => StringType
    case Arr(_) => ObjectType
    case Obj(_) => ObjectType
  }

  // ---------------------------------------------------------------- objects

  predicate HasKey(fields: seq<(string, Json)>, key: string) {
    exists i :: 0 <= i < |fields| && fields[i].0 == key
  }

  /** The value of the first property named `key`, or undefined. */
  function Lookup(fields: seq<(string, Json)>, key: string): (v: Json)
    ensures !HasKey(fields, key) ==> v == Undefined
  {
    if |fields| == 0 then Undefined
    else if fields[0].0 == key then fields[0].1
    else Lookup(fields[1..], key)
  }

  /** The first property named `key` decides the lookup. */
  lemma {:induction false} LookupAt(fields: seq<(string, Json)>, key: string, i: nat)
    requires i < |fields| && fields[i].0 == key
    requires forall j | 0 <= j < i :: fields[j].0 != key
    ensures Lookup(fields, key) == fields[i].1
  {
    if i > 0 {
      LookupAt(fields[1..], key, i - 1);
    }
  }

  /** `v.key` on a value that is not null or undefined (those throw; see Prop). */
  function Get(v: Json, key: string): Json {
    if v.Obj? then Lookup(v.fields, key) else Undefined
  }

  /** `key in v` */
  predicate Has(v: Json, key: string) {
    v.Obj? && HasKey(v.fields, key)
  }

  /** The TypeError message for reading `key` of undefined or null. */
  function ReadError(v: Json, key: string): string {
    "Cannot read properties of " + (if v.Null? then "null" else "undefined") + " (reading '" + key + "')"
  }

  /** `v[key]`: reading a property of undefined or null throws. */
  function Member(v: Json, key: string): (r: Result<Json, string>)
    ensures r.Ok? <==> !Nullish(v)
    ensures r.Ok? ==> r.value == Get(v, key)
  {
    if Nullish(v) then Err(ReadError(v, key)) else Ok(Get(v, key))
  }

  /** The `in` operator: own keys of an object, the indices and `length` of
      an array; any other right operand throws a TypeError. */
  function In(key: string, v: Json): (r: Result<bool, string>)
    ensures r.Ok? <==> v.Obj? || v.Arr?
    ensures v.Obj? ==> r == Ok(HasKey(v.fields, key))
  {
    if v.Obj? then Ok(HasKey(v.fields, key))
    else if v.Arr? then Ok(key == "length" || IsIndexOf(key, |v.items|))
    else Err("Cannot use 'in' operator to search for '" + key + "' in " + Show(v))
  }

  /** `key` is the numeral of an index below `n`. */
  predicate IsIndexOf(key: string, n: nat) {
    exists i | 0 <= i < n :: key == NatToString(i)
  }

  /** `items[key]` on an array: an index in range, as a number or as its
      numeral, reads that element; `"length"` reads the length; any other key
      reads nothing (array methods are not values of this model). */
  function ElementAt(items: seq<Json>, key: Json): (r: Json)
    ensures key.Num? ==> r == if 0 <= key.n < |items| then items[key.n] else Undefined
  {
    match key
    case Num(n) => if 0 <= n < |items| then items[n] else Undefined
    case Str(s) => if s == "length" then Num(|items|) else ElementNamed(items, s, 0)
    case _ => Undefined
  }

  /** The element whose index, from `i` on, is written `s`. */
  function ElementNamed(items: seq<Json>, s: string, i: nat): Json
    decreases |items| - i
  {
    if i >= |items| then Undefined
    else if NatToString(i) == s then items[i]
    else ElementNamed(items, s, i + 1)
  }

  /** Property assignment: replaces the value of an existing property in place,
      otherwise adds the property at the end. */
  function Put(fields: seq<(string, Json)>, key: string, val: Json): (r: seq<(string, Json)>)
    ensures Lookup(r, key) == val
    ensures forall k :: k != key ==> Lookup(r, k) == Lookup(fields, k)
    ensures forall k :: HasKey(r, k) <==> HasKey(fields, k) || k == key
  {
    if |fields| == 0 then [(key, val)]
    else if fields[0].0 == key then
      var r := [(key, val)] + fields[1..];
      assert forall k :: HasKey(r, k) <==> HasKey(fields, k) by {
        forall k | HasKey(r, k) ensures HasKey(fields, k) {
          var i :| 0 <= i < |r| && r[i].0 == k;
          assert fields[i].0 == k;
        }
        forall k | HasKey(fields, k) ensures HasKey(r, k) {
          var i :| 0 <= i < |fields| && fields[i].0 == k;
          assert r[i].0 == k;
        }
      }
      r
    else
      var rest := Put(fields[1..], key, val);
      assert forall k :: HasKey(fields, k) <==> fields[0].0 == k || HasKey(fields[1..], k) by {
        forall k | HasKey(fields, k) && fields[0].0 != k ensures HasKey(fields[1..], k) {
          var i :| 0 <= i < |fields| && fields[i].0 == k;
          assert fields[1..][i - 1].0 == k;
        }
      }
      assert forall k :: HasKey([fields[0]] + rest, k) <==> fields[0].0 == k || HasKey(rest, k) by {
        assert ([fields[0]] + rest)[0].0 == fields[0].0;
        forall k | HasKey([fields[0]] + rest, k) && fields[0].0 != k ensures HasKey(rest, k) {
          var i :| 0 <= i < |[fields[0]] + rest| && ([fields[0]] + rest)[i].0 == k;
          assert rest[i - 1].0 == k;
        }
        forall k | HasKey(rest, k) ensures HasKey([fields[0]] + rest, k) {
          var i :| 0 <= i < |rest| && rest[i].0 == k;
          assert ([fields[0]] + rest)[i + 1].0 == k;
        }
      }
      [fields[0]] + rest
  }

  /** `{...base, ...extra}`: the properties of `extra` assigned over `base`, in order. */
  function Assign(base: seq<(string, Json)>, extra: seq<(string, Json)>): (r: seq<(string, Json)>)
    ensures forall k :: !HasKey(extra, k) ==> Lookup(r, k) == Lookup(base, k)
    ensures forall k :: HasKey(r, k) <==> HasKey(base, k) || HasKey(extra, k)
    decreases |extra|
  {
    if |extra| == 0 then base
    else
      var r := Assign(Put(base, extra[0].0, extra[0].1), extra[1..]);
      assert forall k :: HasKey(extra, k) <==> extra[0].0 == k || HasKey(extra[1..], k) by {
        forall k | HasKey(extra, k) && extra[0].0 != k ensures HasKey(extra[1..], k) {
          var i :| 0 <= i < |extra| && extra[i].0 == k;
          assert extra[1..][i - 1].0 == k;
        }
        forall k | HasKey(extra[1..], k) ensures HasKey(extra, k) {
          var i :| 0 <= i < |extra[1..]| && extra[1..][i].0 == k;
          assert extra[i + 1].0 == k;
        }
      }
      r
  }

  /** The own enumerable properties `{...v}` copies: an object's properties, the
      indices of an array or a string; other primitives have none. */
  function SpreadFields(v: Json): (r: seq<(string, Json)>)
    ensures v.Obj? ==> r == v.fields
    ensures !(v.Obj? || v.Arr? || v.Str?) ==> r == []
  {
    match v
    case Obj(fields) => fields
    case Arr(items) => seq(|items|, i requires 0 <= i < |items| => (NatToString(i), items[i]))
    case Str(s) => seq(|s|, i requires 0 <= i < |s| => (NatToString(i), Str([s[i]])))
    case _ => []
  }

  /** The elements `[...v]` copies: an array's items, a string's characters;
      any other value is not iterable and throws a TypeError. */
  function SpreadItems(v: Json): (r: Result<seq<Json>, string>)
    ensures v.Arr? ==> r == Ok(v.items)
    ensures r.Ok? <==> v.Arr? || v.Str?
  {
    match v
    case Arr(items) => Ok(items)
    case Str(s) => Ok(seq(|s|, i requires 0 <= i < |s| => Str([s[i]])))
    case _ => Err(Show(v) + " is not iterable")
  }

  /** Every property name occurs once, as in any JavaScript object. */
  predicate UniqueKeys(fields: seq<(string, Json)>) {
    forall i, j :: 0 <= i < j < |fields| ==> fields[i].0 != fields[j].0
  }

  /** A property assignment leaves the other properties as they were. */
  lemma PutOther(fields: seq<(string, Json)>, key: string, after: seq<(string, Json)>, k: string)
    requires after == Put(fields, key, Lookup(after, key)) && k != key
    ensures Lookup(after, k) == Lookup(fields, k)
  {
  }

  /** With distinct names in `extra`, every property of `extra` wins over `base`. */
  lemma {:induction false} AssignOverrides(base: seq<(string, Json)>, extra: seq<(string, Json)>, k: string)
    requires UniqueKeys(extra)
    requires HasKey(extra, k)
    ensures Lookup(Assign(base, extra), k) == Lookup(extra, k)
    decreases |extra|
  {
    if extra[0].0 == k {
      forall i | 0 <= i < |extra[1..]| ensures extra[1..][i].0 != k {
        assert extra[1..][i] == extra[i + 1];
      }
    } else {
      var i :| 0 <= i < |extra| && extra[i].0 == k;
      assert extra[1..][i - 1].0 == k;
      AssignOverrides(Put(base, extra[0].0, extra[0].1), extra[1..], k);
    }
  }

  // ---------------------------------------------------------------- strings

  predicate IsWhite(c: char) {
    c == ' ' || c == '\t' || c == '\n' || c == '\r' || c == '\U{0B}' || c == '\U{0C}'
    || c == '\U{A0}' || c == '\U{FEFF}'
  }

  function TrimStart(s: string): (r: string)
    ensures |r| <= |s| && r == s[|s| - |r|..]
    ensures |r| > 0 ==> !IsWhite(r[0])
    ensures |s| > 0 && !IsWhite(s[0]) ==> r == s
  {
    if |s| > 0 && IsWhite(s[0]) then TrimStart(s[1..]) else s
  }

  function TrimEnd(s: string): (r: string)
    ensures |r| <= |s| && r == s[..|r|]
    ensures |r| > 0 ==> !IsWhite(r[|r| - 1])
  {
    if |s| > 0 && IsWhite(s[|s| - 1]) then TrimEnd(s[..|s| - 1]) else s
  }

  /** `s.trim()` */
  function Trim(s: string): string {
    TrimEnd(TrimStart(s))
  }

  /** `a.join(sep)` */
  function Join(parts: seq<string>, sep: string): string {
    if |parts| == 0 then ""
    else if |parts| == 1 then parts[0]
    else parts[0] + sep + Join(parts[1..], sep)
  }

  /** `s.split(sep)` for a one-character separator. */
  function Split(s: string, sep: char): (parts: seq<string>)
    ensures |parts| > 0
    ensures forall i :: 0 <= i < |parts| ==> sep !in parts[i]
  {
    if |s| == 0 then [""]
    else
      var rest := Split(s[1..], sep);
      if s[0] == sep then [""] + rest
      else [[s[0]] + rest[0]] + rest[1..]
  }

  /** Splitting and joining again with the same separator restores the string. */
  lemma {:induction false} JoinSplit(s: string, sep: char)
    ensures Join(Split(s, sep), [sep]) == s
  {
    if |s| > 0 {
      JoinSplit(s[1..], sep);
      var rest := Split(s[1..], sep);
      if s[0] == sep {
        assert Split(s, sep) == [""] + rest;
        assert ([""] + rest)[1..] == rest;
      } else {
        var parts := [[s[0]] + rest[0]] + rest[1..];
        assert Split(s, sep) == parts;
        if |rest| == 1 {
          assert Join(parts, [sep]) == [s[0]] + rest[0];
        } else {
          assert parts[1..] == rest[1..];
          assert Join(rest, [sep]) == rest[0] + [sep] + Join(rest[1..], [sep]);
        }
      }
    }
  }

  /** A string without the character does not contain it. */
  lemma NotContained(s: string, c: char)
    requires c !in s
    ensures !Contains(s, [c])
  {
    forall i | 0 <= i <= |s|
      ensures !OccursAt(s, [c], i)
    {
      if i + 1 <= |s| {
        assert s[i..i + 1][0] == s[i];
      }
    }
  }

  /** A string without the separator is one piece. */
  lemma {:induction false} SplitNone(s: string, sep: char)
    requires sep !in s
    ensures Split(s, sep) == [s]
  {
    if |s| > 0 {
      SplitNone(s[1..], sep);
      assert [s[0]] + s[1..] == s;
    }
  }

  /** Splitting at the first separator. */
  lemma {:induction false} SplitFirst(a: string, b: string, sep: char)
    requires sep !in a
    ensures Split(a + [sep] + b, sep) == [a] + Split(b, sep)
  {
    var s := a + [sep] + b;
    if |a| > 0 {
      SplitFirst(a[1..], b, sep);
      assert s[1..] == a[1..] + [sep] + b;
      assert [a[0]] + a[1..] == a;
    } else {
      assert s[1..] == b;
    }
  }

  /** Two pieces joined by the separator split back into the two. */
  lemma SplitAround(a: string, b: string, sep: char)
    requires sep !in a && sep !in b
    ensures Split(a + [sep] + b, sep) == [a, b]
  {
    SplitFirst(a, b, sep);
    SplitNone(b, sep);
  }

  /** Pieces without the separator split back out of their join. */
  lemma {:induction false} SplitJoin(parts: seq<string>, sep: char)
    requires |parts| > 0 && forall i :: 0 <= i < |parts| ==> sep !in parts[i]
    ensures Split(Join(parts, [sep]), sep) == parts
  {
    if |parts| == 1 {
      SplitNone(parts[0], sep);
    } else {
      SplitJoin(parts[1..], sep);
      SplitFirst(parts[0], Join(parts[1..], [sep]), sep);
      assert [parts[0]] + parts[1..] == parts;
    }
  }

  /** A join holds a character only if a part or the separator does. */
  lemma {:induction false} JoinAvoids(parts: seq<string>, sep: string, c: char)
    requires c !in sep && forall i :: 0 <= i < |parts| ==> c !in parts[i]
    ensures c !in Join(parts, sep)
  {
    if |parts| > 1 {
      JoinAvoids(parts[1..], sep, c);
    }
  }

  /** `s.includes(sub)` */
  predicate Contains(s: string, sub: string) {
    exists i | 0 <= i <= |s| :: OccursAt(s, sub, i)
  }

  predicate OccursAt(s: string, sub: string, i: int) {
    0 <= i && i + |sub| <= |s| && s[i..i + |sub|] == sub
  }

  /** `s.toUpperCase()` on the ASCII letters. */
  function ToUpper(s: string): (r: string)
    ensures |r| == |s|
  {
    seq(|s|, i requires 0 <= i < |s| => if 'a' <= s[i] <= 'z' then (s[i] as int - 32) as char else s[i])
  }

  /** `s.toLowerCase()` on the ASCII letters. */
  function ToLower(s: string): (r: string)
    ensures |r| == |s|
  {
    seq(|s|, i requires 0 <= i < |s| => if 'A' <= s[i] <= 'Z' then (s[i] as int + 32) as char else s[i])
  }

  // ---------------------------------------------------------------- numbers

  /** The value of a digit character in radix 36 (36 for a non-digit). */
  function DigitValue(c: char): nat {
    if '0' <= c <= '9' then c as int - '0' as int
    else if 'a' <= c <= 'z' then c as int - 'a' as int + 10
    else if 'A' <= c <= 'Z' then c as int - 'A' as int + 10
    else 36
  }

  predicate AllDigits(s: string, radix: nat) {
    forall i :: 0 <= i < |s| ==> DigitValue(s[i]) < radix
  }

  /** The length of the longest prefix of `s` made of digits of `radix`. */
  function DigitPrefixLength(s: string, radix: nat): (k: nat)
    ensures k <= |s| && AllDigits(s[..k], radix)
    ensures k < |s| ==> DigitValue(s[k]) >= radix
  {
    if |s| == 0 || DigitValue(s[0]) >= radix then 0
    else
      var k := 1 + DigitPrefixLength(s[1..], radix);
      assert forall i :: 1 <= i < k ==> s[..k][i] == s[1..][..k - 1][i - 1];
      k
  }

  /** The number a string of digits denotes, most significant first. */
  function DigitsValue(ds: string, radix: nat): nat
    requires AllDigits(ds, radix)
  {
    if |ds| == 0 then 0
    else DigitsValue(ds[..|ds| - 1], radix) * radix + DigitValue(ds[|ds| - 1])
  }

  function DigitChar(d: nat): char
    requires d < 10
  {
    "0123456789"[d]
  }

  /** The decimal numeral of a natural number: digits only, no leading zero. */
  function NatToString(n: nat): (s: string)
    ensures |s| > 0 && AllDigits(s, 10)
    ensures s[0] == '0' ==> s == "0"
  {
    if n < 10 then [DigitChar(n)]
    else NatToString(n / 10) + [DigitChar(n % 10)]
  }

  /** A numeral of a whole number holds neither a dash nor a comma. */
  lemma NoSignInNumeral(n: nat)
    ensures '-' !in NatToString(n) && ',' !in NatToString(n)
  {
    var s := NatToString(n);
    forall i | 0 <= i < |s|
      ensures s[i] != '-' && s[i] != ','
    {
      assert DigitValue(s[i]) < 10;
    }
  }

  /** `String(i)` for an integer. */
  function IntToString(i: int): string {
    if i < 0 then "-" + NatToString(-i) else NatToString(i)
  }

  lemma {:induction false} NatToStringValue(n: nat)
    ensures DigitsValue(NatToString(n), 10) == n
  {
    if n >= 10 {
      NatToStringValue(n / 10);
      var s := NatToString(n);
      assert s[..|s| - 1] == NatToString(n / 10);
    }
  }

  lemma {:induction false} DigitPrefixOfDigits(s: string, radix: nat)
    requires AllDigits(s, radix)
    ensures DigitPrefixLength(s, radix) == |s|
  {
    if |s| > 0 {
      DigitPrefixOfDigits(s[1..], radix);
    }
  }

  /** A numeral with a leading minus sign when `neg` holds. */
  function SignedNumeral(neg: bool, d: string): string {
    (if neg then "-" else "") + d
  }

  function Signed(neg: bool, m: nat): int {
    if neg then -(m as int) else m
  }

  /** `parseInt(s)`: skips leading white space, reads an optional sign, a `0x`
      prefix for radix 16, then the longest run of digits; NaN when there is none. */
  function ParseIntStr(s: string): (r: Json)
    ensures r.Num? || r.NaN?
  {
    ParseSigned(TrimStart(s))
  }

  function ParseSigned(t: string): (r: Json)
    ensures r.Num? || r.NaN?
  {
    if |t| > 0 && t[0] == '-' then Negate(ParseRadix(t[1..]))
    else if |t| > 0 && t[0] == '+' then ParseRadix(t[1..])
    else ParseRadix(t)
  }

  function Negate(v: Json): Json {
    if v.Num? then Num(-v.n) else v
  }

  function ParseRadix(u: string): (r: Json)
    ensures r.Num? || r.NaN?
  {
    if |u| >= 2 && u[0] == '0' && (u[1] == 'x' || u[1] == 'X') then ParseDigits(u[2..], 16)
    else ParseDigits(u, 10)
  }

  /** The value of the longest run of digits at the start of `body`. */
  function ParseDigits(body: string, radix: nat): (r: Json)
    ensures r.Num? || r.NaN?
  {
    var k := DigitPrefixLength(body, radix);
    if k == 0 then NaN else Num(DigitsValue(body[..k], radix))
  }

  /** parseInt of an optional minus sign followed by a canonical decimal numeral. */
  lemma {:induction false} ParseIntSignedDigits(d: string, neg: bool)
    requires |d| > 0 && AllDigits(d, 10) && (d[0] == '0' ==> |d| == 1)
    ensures ParseIntStr(SignedNumeral(neg, d))
            == Num(Signed(neg, DigitsValue(d, 10)))
  {
    TrimStartSignedDigits(d, neg);
    ParseSignedDigits(d, neg);
  }

  lemma {:induction false} TrimStartSignedDigits(d: string, neg: bool)
    requires |d| > 0 && AllDigits(d, 10)
    ensures TrimStart(SignedNumeral(neg, d)) == SignedNumeral(neg, d)
  {
    var s := SignedNumeral(neg, d);
    assert !IsWhite(d[0]) by { assert DigitValue(d[0]) < 10; }
    assert !IsWhite(s[0]);
  }

  lemma {:induction false} ParseSignedDigits(d: string, neg: bool)
    requires |d| > 0 && AllDigits(d, 10) && (d[0] == '0' ==> |d| == 1)
    ensures ParseSigned(SignedNumeral(neg, d)) == Num(Signed(neg, DigitsValue(d, 10)))
  {
    var s := SignedNumeral(neg, d);
    ParseDigitsOfDigits(d, 10);
    assert ParseRadix(d) == ParseDigits(d, 10);
    if neg {
      assert s[0] == '-' && s[1..] == d;
    } else {
      assert s == d;
      assert d[0] != '-' && d[0] != '+' by { assert DigitValue(d[0]) < 10; }
    }
  }

  lemma {:induction false} ParseDigitsOfDigits(d: string, radix: nat)
    requires |d| > 0 && AllDigits(d, radix)
    ensures ParseDigits(d, radix) == Num(DigitsValue(d, radix))
  {
    DigitPrefixOfDigits(d, radix);
    assert d[..|d|] == d;
  }

  /** parseInt reads back every integer that String() writes. */
  lemma {:induction false} ParseIntOfIntToString(i: int)
    ensures ParseIntStr(IntToString(i)) == Num(i)
  {
    var m: nat := if i < 0 then -i else i;
    var d := NatToString(m);
    assert d[0] == '0' ==> |d| == 1;
    assert IntToString(i) == SignedNumeral(i < 0, d);
    assert Signed(i < 0, DigitsValue(d, 10)) == i by { NatToStringValue(m); }
    ParseIntSignedDigits(d, i < 0);
  }

  /** parseInt reads back the numeral of every whole number. */
  lemma ParseIntOfNatToString(n: nat)
    ensures ParseIntStr(NatToString(n)) == Num(n)
  {
    ParseIntOfIntToString(n);
    assert IntToString(n) == NatToString(n);
  }

  /** Distinct integers have distinct numerals. */
  lemma IntToStringInjective(a: int, b: int)
    ensures IntToString(a) == IntToString(b) ==> a == b
  {
    ParseIntOfIntToString(a);
    ParseIntOfIntToString(b);
  }

  /** `Number(s)` for a string: blank is 0; an optional sign and decimal digits,
      or `0x` and hexadecimal digits, give an integer; anything else is NaN. */
  function StringToNumber(s: string): (r: Json)
    ensures r.Num? || r.NaN?
  {
    NumberOfTrimmed(Trim(s))
  }

  function NumberOfTrimmed(t: string): (r: Json)
    ensures r.Num? || r.NaN?
  {
    if |t| == 0 then Num(0)
    else if IsHexLiteral(t) then Num(DigitsValue(t[2..], 16))
    else if t[0] == '-' then Negate(DecimalNumber(t[1..]))
    else if t[0] == '+' then DecimalNumber(t[1..])
    else DecimalNumber(t)
  }

  predicate IsHexLiteral(t: string) {
    |t| > 2 && t[0] == '0' && (t[1] == 'x' || t[1] == 'X') && AllDigits(t[2..], 16)
  }

  function DecimalNumber(u: string): (r: Json)
    ensures r.Num? || r.NaN?
  {
    if |u| > 0 && AllDigits(u, 10) then Num(DigitsValue(u, 10)) else NaN
  }

  /** `String(v)`, as used by template literals and `toString()`. */
  function Show(v: Json): string
    decreases v
  {
    match v
    case Undefined => "undefined"
    case Null => "null"
    case Bool(b) => if b then "true" else "false"
    case Num(n) => IntToString(n)
    case NaN => "NaN"
    case Str(s) => s
    case Arr(items) =>
      Join(seq(|items|, i requires 0 <= i < |items| => if Nullish(items[i]) then "" else Show(items[i])), ",")
    case Obj(_) => "[object Object]"
  }

  /** A whole number is shown as its decimal numeral. */
  lemma ShowNat(n: nat)
    ensures Show(Num(n)) == NatToString(n)
  {
  }

  /** `v?.toString()` */
  function OptToString(v: Json): (r: Json)
    ensures Nullish(v) <==> r == Undefined
    ensures !Nullish(v) ==> r == Str(Show(v))
  {
    if Nullish(v) then Undefined else Str(Show(v))
  }

  /** `Number(v)` */
  function ToNumber(v: Json): (r: Json)
    ensures r.Num? || r.NaN?
  {
    match v
    case Undefined => NaN
    case Null => Num(0)
    case Bool(b) => Num(if b then 1 else 0)
    case Num(_) => v
    case NaN => NaN
    case Str(s) => StringToNumber(s)
    case Arr(_) => StringToNumber(Show(v))
    case Obj(_) => NaN
  }

  /** `a - b` on two numbers: NaN when either is NaN. */
  function Minus(a: Json, b: Json): (r: Json)
    requires (a.Num? || a.NaN?) && (b.Num? || b.NaN?)
    ensures r.Num? <==> a.Num? && b.Num?
    ensures r.Num? ==> r.n + b.n == a.n
  {
    if a.Num? && b.Num? then Num(a.n - b.n) else NaN
  }

  /** `v < n` for a number `n`: `v` is converted with Number(); NaN compares false. */
  predicate LessThan(v: Json, n: int) {
    ToNumber(v).Num? && ToNumber(v).n < n
  }

  /** `v > n` for a number `n`. */
  predicate GreaterThan(v: Json, n: int) {
    ToNumber(v).Num? && ToNumber(v).n > n
  }

  /** The global `isNaN(v)` */
  predicate IsNaN(v: Json) {
    ToNumber(v).NaN?
  }

  /** `parseInt(v)`: the argument is converted with String() first. */
  function ParseInt(v: Json): (r: Json)
    ensures r.Num? || r.NaN?
  {
    ParseIntStr(Show(v))
  }

  lemma {:induction false} NumberOfUntrimmable(t: string)
    requires Trim(t) == t
    ensures StringToNumber(t) == NumberOfTrimmed(t)
  {
  }

  lemma {:induction false} TrimDigits(d: string)
    requires |d| > 0 && AllDigits(d, 10)
    ensures Trim(d) == d
  {
    assert !IsWhite(d[0]) by { assert DigitValue(d[0]) < 10; }
    assert !IsWhite(d[|d| - 1]) by { assert DigitValue(d[|d| - 1]) < 10; }
    assert TrimStart(d) == d;
  }

  lemma {:induction false} NumberOfDigits(d: string)
    requires |d| > 0 && AllDigits(d, 10) && (d[0] == '0' ==> |d| == 1)
    ensures NumberOfTrimmed(d) == Num(DigitsValue(d, 10))
  {
    assert !IsHexLiteral(d);
    assert d[0] != '-' && d[0] != '+' by { assert DigitValue(d[0]) < 10; }
  }

  /** Number() reads back every natural number that String() writes. */
  lemma {:induction false} NatToStringIsNumber(n: nat)
    ensures StringToNumber(NatToString(n)) == Num(n)
  {
    var d := NatToString(n);
    TrimDigits(d);
    NumberOfUntrimmable(d);
    NumberOfDigits(d);
    NatToStringValue(n);
  }
}
