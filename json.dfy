/** JSON-like values as the nodes build and receive them, JavaScript truthiness,
    property access, and the string operations the nodes apply (`includes`,
    `split`, `trim`). */
module Json {

  /** A JavaScript value as it flows through the nodes. `Undefined` is a missing
      parameter or property. Host objects the nodes only pass along are opaque:
      a binary buffer of an input item, a `File` built from one, a `Date` and the
      ISO string of a date. */
  datatype Value =
    | Undefined
    | Null
    | Bool(b: bool)
    | Num(n: int)
    | Str(s: string)
    | Arr(elems: seq<Value>)
    | Obj(fields: map<string, Value>)
    | Buffer(item: nat, property: Value)
    | File(content: Value, fileName: Value, mimeType: string)
    | Date(text: Value)
    | IsoString(text: Value)

  /** The outcome of an operation that may throw: its value, or the thrown error's message. */
  datatype Outcome<+T> = Ok(value: T) | Fail(message: string)

  type Reply = Outcome<Value>

  /** JavaScript truthiness. */
  predicate Truthy(v: Value)
  {
    match v
    case Undefined => false
    case Null => false
    case Bool(b) => b
    case Num(n) => n != 0
    case Str(s) => s != ""
    case _ => true
  }

  /** `{ ...v }`: the own fields of an object; nothing for anything else. */
  function Spread(v: Value): map<string, Value>
  {
    if v.Obj? then v.fields else map[]
  }

  /** `v.key`: reading a property; reading one of `undefined` or `null` throws. */
  function Get(v: Value, key: string): (r: Outcome<Value>)
    ensures r.Fail? <==> (v == Undefined || v == Null)
    ensures v.Obj? ==> r == Ok(if key in v.fields then v.fields[key] else Undefined)
  {
    match v
    case Undefined => Fail("Cannot read properties of undefined (reading '" + key + "')")
    case Null => Fail("Cannot read properties of null (reading '" + key + "')")
    case Obj(m) => Ok(if key in m then m[key] else Undefined)
    case _ => Ok(Undefined)
  }

  /** The text a template literal makes of `v` (`${v}`). Host objects are
      rendered as a plain object is. */
  function Text(v: Value): (t: string)
    ensures v.Str? ==> t == v.s
    ensures v == Undefined ==> t == "undefined"
    ensures v == Null ==> t == "null"
  {
    match v
    case Undefined => "undefined"
    case Null => "null"
    case Bool(b) => if b then "true" else "false"
    case Num(n) => if n < 0 then "-" + Digits(-n) else Digits(n)
    case Str(s) => s
    case Arr(elems) => ElementsText(elems)
    case _ => "[object Object]"
  }

  /** `String(array)`: the elements' texts joined by commas, `null` and
      `undefined` elements as empty text. */
  function ElementsText(elems: seq<Value>): string
    decreases elems
  {
    if elems == [] then ""
    else
      var head := if elems[0] == Undefined || elems[0] == Null then "" else Text(elems[0]);
      if |elems| == 1 then head else head + "," + ElementsText(elems[1..])
  }

  /** The decimal digits of `n`. */
  function Digits(n: nat): (d: string)
    ensures |d| >= 1 && forall k :: 0 <= k < |d| ==> '0' <= d[k] <= '9'
    ensures Decimal(d) == n
  {
    var last := ['0' + (n % 10) as char];
    if n < 10 then last
    else
      var front := Digits(n / 10);
      assert (front + last)[..|front|] == front;
      front + last
  }

  /** The number a string of decimal digits denotes, most significant first. */
  function Decimal(d: string): nat
    requires forall k :: 0 <= k < |d| ==> '0' <= d[k] <= '9'
  {
    if d == [] then 0 else 10 * Decimal(d[..|d| - 1]) + (d[|d| - 1] - '0') as nat
  }

  /** `m.key` on a plain object: the field, or `undefined` when it is missing. */
  function Field(m: map<string, Value>, key: string): (v: Value)
    ensures key in m ==> v == m[key]
    ensures key !in m ==> v == Undefined
  {
    if key in m then m[key] else Undefined
  }

  /** `a || b`: `a` when it is truthy, else `b`. */
  function Or(a: Value, b: Value): (v: Value)
    ensures Truthy(a) ==> v == a
    ensures !Truthy(a) ==> v == b
  {
    if Truthy(a) then a else b
  }

  /** Adds `key: v` to `m` only when `v` is truthy (`if (v) params.key = v`). */
  function PutIfTruthy(m: map<string, Value>, key: string, v: Value): (r: map<string, Value>)
    ensures key in r <==> key in m || Truthy(v)
    ensures Truthy(v) ==> r[key] == v
    ensures forall k :: k in m && k != key ==> k in r && r[k] == m[k]
    ensures forall k :: k in r && k != key ==> k in m
  {
    if Truthy(v) then m[key := v] else m
  }

  /** One conditional assignment `if (present) m.key = value`. */
  datatype Entry = Entry(key: string, present: bool, value: Value)

  /** `if (v) m.key = v`. */
  function IfTruthy(key: string, v: Value): Entry
  {
    Entry(key, Truthy(v), v)
  }

  /** `if (v !== undefined) m.key = v`. */
  function IfDefined(key: string, v: Value): Entry
  {
    Entry(key, v != Undefined, v)
  }

  /** One conditional assignment applied to `m`. */
  function Put(m: map<string, Value>, e: Entry): (r: map<string, Value>)
  {
    if e.present then m[e.key := e.value] else m
  }

  /** Sets `e` on `m` in place when it is present (`if (v) params.key = v`). */
  method Add(m: map<string, Value>, e: Entry) returns (r: map<string, Value>)
    ensures r == Put(m, e)
  {
    r := m;
    if e.present {
      r := r[e.key := e.value];
    }
  }

  /** A conditional assignment sets its own key when its condition holds and
      leaves every other key as it was. */
  lemma PutSlot(m: map<string, Value>, e: Entry)
    ensures var r := Put(m, e);
      && (forall k :: k != e.key ==> (k in r <==> k in m) && (k in m ==> r[k] == m[k]))
      && (e.key in r <==> e.present || e.key in m)
      && (e.present ==> r[e.key] == e.value)
      && (!e.present && e.key in m ==> r[e.key] == m[e.key])
  {
  }

  /** Assigning on an object laid over `m` is assigning first, then laying it over `m`. */
  lemma PutOver(m: map<string, Value>, q: map<string, Value>, e: Entry)
    ensures Put(m + q, e) == m + Put(q, e)
  {
  }

  // ---------------------------------------------------------------------------
  // String.prototype.includes

  /** `t` occurs in `s` starting at position `i`. */
  predicate OccursAt(s: string, t: string, i: int)
  {
    0 <= i <= |s| - |t| && s[i..i + |t|] == t
  }

  /** `s.includes(t)`: `t` occurs in `s` at some position. */
  predicate Contains(s: string, t: string)
  {
    exists i | 0 <= i <= |s| - |t| :: OccursAt(s, t, i)
  }

  /** A prefix of `b` stays a prefix after `a` is put in front of both. */
  lemma PrefixOfConcat(a: string, b: string, p: string)
    requires |p| <= |b| && b[..|p|] == p
    ensures (a + b)[..|a + p|] == a + p
  {
    assert (a + b)[..|a + p|] == a + b[..|p|];
  }

  /** A pattern holding a character that `s` lacks does not occur in `s`. */
  lemma MissingCharacter(s: string, t: string, j: nat)
    requires j < |t| && t[j] !in s
    ensures !Contains(s, t)
  {
    forall i | 0 <= i <= |s| - |t|
      ensures !OccursAt(s, t, i)
    {
      assert s[i..i + |t|][j] == s[i + j];
      assert s[i + j] in s;
    }
  }

  // ---------------------------------------------------------------------------
  // String.prototype.split with a one-character separator

  /** `s.split(sep)`: the pieces between separators, in order; never empty. */
  function Split(s: string, sep: char): (parts: seq<string>)
    ensures |parts| >= 1
  {
    if s == [] then [""]
    else
      var rest := Split(s[1..], sep);
      if s[0] == sep then [""] + rest else [[s[0]] + rest[0]] + rest[1..]
  }

  /** `parts.join(sep)`. */
  function Join(parts: seq<string>, sep: char): string
  {
    if |parts| == 0 then ""
    else if |parts| == 1 then parts[0]
    else parts[0] + [sep] + Join(parts[1..], sep)
  }

  /** Splitting loses nothing: joining the pieces back gives the original string. */
  lemma {:induction false} JoinSplit(s: string, sep: char)
    ensures Join(Split(s, sep), sep) == s
  {
    if s != [] {
      var rest := Split(s[1..], sep);
      JoinSplit(s[1..], sep);
      if s[0] == sep {
        assert Split(s, sep)[1..] == rest;
      } else {
        var parts := Split(s, sep);
        assert parts[0] == [s[0]] + rest[0];
        if |rest| == 1 {
          assert |parts| == 1;
        } else {
          assert parts[1..] == rest[1..];
          assert Join(rest, sep) == rest[0] + [sep] + Join(rest[1..], sep);
        }
      }
    }
  }

  /** No piece contains the separator. */
  lemma {:induction false} SplitPiecesFree(s: string, sep: char)
    ensures forall k :: 0 <= k < |Split(s, sep)| ==> sep !in Split(s, sep)[k]
  {
    if s != [] {
      SplitPiecesFree(s[1..], sep);
    }
  }

  /** The first piece is the prefix of `s` before its first separator. */
  lemma {:induction false} SplitFirst(s: string, sep: char)
    ensures |Split(s, sep)[0]| <= |s|
    ensures Split(s, sep)[0] == s[..|Split(s, sep)[0]|]
    ensures |Split(s, sep)[0]| < |s| ==> s[|Split(s, sep)[0]|] == sep
  {
    if s != [] {
      SplitFirst(s[1..], sep);
    }
  }

  /** Number of occurrences of `c` in `s`. */
  function Count(s: string, c: char): nat
  {
    if s == [] then 0 else (if s[0] == c then 1 else 0) + Count(s[1..], c)
  }

  /** There is one more piece than there are separators. */
  lemma {:induction false} SplitCount(s: string, sep: char)
    ensures |Split(s, sep)| == Count(s, sep) + 1
  {
    if s != [] {
      SplitCount(s[1..], sep);
    }
  }

  // ---------------------------------------------------------------------------
  // String.prototype.trim

  /** ECMAScript WhiteSpace and LineTerminator code points. */
  predicate IsSpace(c: char)
  {
    || c == ' ' || c == '\t' || c == '\n' || c == '\r'
    || c == '\U{B}' || c == '\U{C}' || c == '\U{A0}' || c == '\U{1680}'
    || ('\U{2000}' <= c <= '\U{200A}')
    || c == '\U{2028}' || c == '\U{2029}' || c == '\U{202F}' || c == '\U{205F}'
    || c == '\U{3000}' || c == '\U{FEFF}'
  }

  function TrimStart(s: string): (r: string)
    ensures |r| <= |s| && r == s[|s| - |r|..]
    ensures r != [] ==> !IsSpace(r[0])
    ensures forall k :: 0 <= k < |s| - |r| ==> IsSpace(s[k])
  {
    if s != [] && IsSpace(s[0]) then TrimStart(s[1..]) else s
  }

  function TrimEnd(s: string): (r: string)
    ensures |r| <= |s| && r == s[..|r|]
    ensures r != [] ==> !IsSpace(r[|r| - 1])
    ensures forall k :: |r| <= k < |s| ==> IsSpace(s[k])
  {
    if s != [] && IsSpace(s[|s| - 1]) then TrimEnd(s[..|s| - 1]) else s
  }

  /** `s.trim()`. */
  function Trim(s: string): string
  {
    TrimEnd(TrimStart(s))
  }

  /** `trim` removes exactly the surrounding white space: the result is the
      infix of `s` starting at the first non-space character and ending at the
      last one, and what lies outside it is all white space. */
  lemma TrimInfix(s: string)
    ensures var lo, r := |s| - |TrimStart(s)|, Trim(s);
      && lo + |r| <= |s| && r == s[lo..lo + |r|]
      && (forall k :: 0 <= k < lo ==> IsSpace(s[k]))
      && (forall k :: lo + |r| <= k < |s| ==> IsSpace(s[k]))
  {
    var t := TrimStart(s);
    var lo := |s| - |t|;
    assert t == s[lo..];
    TrimTail(s, lo, t);
  }

  /** `TrimEnd` of a suffix `t` of `s` starting at `lo` is an infix of `s`
      followed by white space only. */
  lemma TrimTail(s: string, lo: nat, t: string)
    requires lo <= |s| && t == s[lo..]
    ensures var r := TrimEnd(t);
      && lo + |r| <= |s| && r == s[lo..lo + |r|]
      && (forall k :: lo + |r| <= k < |s| ==> IsSpace(s[k]))
  {
    var r := TrimEnd(t);
    assert r == s[lo..lo + |r|];
    forall k | lo + |r| <= k < |s|
      ensures IsSpace(s[k])
    {
      assert s[k] == t[k - lo];
    }
  }

  /** Trimming twice is the same as trimming once. */
  lemma TrimIdempotent(s: string)
    ensures Trim(Trim(s)) == Trim(s)
  {
    var r := Trim(s);
    TrimInfix(s);
    assert TrimStart(r) == r;
    assert TrimEnd(r) == r;
  }
}
