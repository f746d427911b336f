/** Loosely typed JavaScript values, as the document store and `JSON.parse`
    hand them to the application, and the JSON text codec the application
    uses for the attributes it stores as strings (`applicationForm`,
    `responses`, `profile`).

    The codec is a stand-in for `JSON.stringify`/`JSON.parse`: JSON without
    insignificant whitespace, with integer numbers only, and with only the
    escapes `\"`, `\\`, `\/`, `\n`, `\r` and `\t`. What the application relies
    on is proved below: parsing what was serialized gives the value back.
    Numerals with a leading zero are rejected as `JSON.parse` rejects them;
    nothing further is proved about text outside the grammar. */
module Json {
  import opened Wrappers

  /** A JavaScript value as far as the application inspects it. Numbers are
      integers or NaN; objects are their own-property lists in key order. */
  datatype Value =
    | Undefined
    | Null
    | Bool(b: bool)
    | Num(n: int)
    | NaN
    | Str(s: string)
    | Arr(elems: seq<Value>)
    | Obj(members: seq<Member>)

  datatype Member = Member(key: string, value: Value)

  // ---------------------------------------------------------------------
  // Objects as property lists
  // ---------------------------------------------------------------------

  function Keys(ms: seq<Member>): (ks: seq<string>)
    ensures |ks| == |ms|
    ensures forall i :: 0 <= i < |ms| ==> ks[i] == ms[i].key
  {
    if ms == [] then [] else [ms[0].key] + Keys(ms[1..])
  }

  /** A JavaScript object never has two properties with the same key. */
  predicate DistinctKeys(ms: seq<Member>)
  {
    forall i, j :: 0 <= i < j < |ms| ==> ms[i].key != ms[j].key
  }

  /** Property access `obj[k]`: `undefined` when there is no such property. */
  function Lookup(ms: seq<Member>, k: string): Value
  {
    if ms == [] then Undefined
    else if ms[0].key == k then ms[0].value
    else Lookup(ms[1..], k)
  }

  /** `v[k]` for any value: only objects have the properties the application reads. */
  function Get(v: Value, k: string): Value
  {
    if v.Obj? then Lookup(v.members, k) else Undefined
  }

  lemma {:induction false} LookupAt(ms: seq<Member>, i: nat)
    requires DistinctKeys(ms) && i < |ms|
    ensures Lookup(ms, ms[i].key) == ms[i].value
  {
    if i > 0 {
      assert ms[0].key != ms[i].key;
      assert ms[1..][i - 1] == ms[i];
      LookupAt(ms[1..], i - 1);
    }
  }

  /** Assignment `obj[k] = v`: an existing property keeps its place and
      takes the new value, a new one is appended. */
  function Put(ms: seq<Member>, k: string, v: Value): (r: seq<Member>)
    ensures Lookup(r, k) == v
    ensures forall k' :: k' != k ==> Lookup(r, k') == Lookup(ms, k')
    ensures Keys(r) == if k in Keys(ms) then Keys(ms) else Keys(ms) + [k]
  {
    if ms == [] then [Member(k, v)]
    else if ms[0].key == k then [Member(k, v)] + ms[1..]
    else
      assert Keys(ms) == [ms[0].key] + Keys(ms[1..]);
      [ms[0]] + Put(ms[1..], k, v)
  }

  /** Assignment keeps an object's keys distinct. */
  lemma PutDistinct(ms: seq<Member>, k: string, v: Value)
    requires DistinctKeys(ms)
    ensures DistinctKeys(Put(ms, k, v))
  {
    var r := Put(ms, k, v);
    assert forall i :: 0 <= i < |r| ==> r[i].key == Keys(r)[i];
    if k !in Keys(ms) {
      assert forall i :: 0 <= i < |ms| ==> ms[i].key == Keys(ms)[i];
    }
  }

  lemma {:induction false} PutJson(ms: seq<Member>, k: string, v: Value)
    requires AllJsonMembers(ms) && IsJson(v)
    ensures AllJsonMembers(Put(ms, k, v))
  {
    if ms != [] && ms[0].key != k {
      PutJson(ms[1..], k, v);
      assert Put(ms, k, v)[1..] == Put(ms[1..], k, v);
    }
  }

  /** Assigning a JSON value to a JSON object's property gives a JSON object. */
  lemma PutObject(ms: seq<Member>, k: string, v: Value)
    requires IsJson(Obj(ms)) && IsJson(v)
    ensures IsJson(Obj(Put(ms, k, v)))
  {
    PutJson(ms, k, v);
    PutDistinct(ms, k, v);
  }

  lemma LookupCons(m: Member, rest: seq<Member>, k: string)
    ensures Lookup([m] + rest, k) == if m.key == k then m.value else Lookup(rest, k)
  {
    assert ([m] + rest)[1..] == rest;
  }

  lemma KeysCons(m: Member, ms: seq<Member>)
    ensures Keys([m] + ms) == [m.key] + Keys(ms)
  {
  }

  lemma DistinctCons(m: Member, ms: seq<Member>)
    requires m.key !in Keys(ms) && DistinctKeys(ms)
    ensures DistinctKeys([m] + ms)
  {
    var r := [m] + ms;
    forall i, j | 0 <= i < j < |r| ensures r[i].key != r[j].key {
      assert r[j] == ms[j - 1];
      if i > 0 {
        assert r[i] == ms[i - 1];
      } else {
        assert Keys(ms)[j - 1] == r[j].key;
      }
    }
  }

  /** A JSON member in front of a JSON object with other keys gives a JSON object. */
  lemma ObjectCons(m: Member, ms: seq<Member>)
    requires IsJson(m.value) && IsJson(Obj(ms)) && m.key !in Keys(ms)
    ensures IsJson(Obj([m] + ms))
    ensures Keys([m] + ms) == [m.key] + Keys(ms)
  {
    DistinctCons(m, ms);
    assert ([m] + ms)[1..] == ms;
  }

  /** `delete obj[k]`. */
  function Without(ms: seq<Member>, k: string): (r: seq<Member>)
    ensures |r| <= |ms|
  {
    if ms == [] then []
    else if ms[0].key == k then Without(ms[1..], k)
    else [ms[0]] + Without(ms[1..], k)
  }

  /** After `delete obj[k]` the key is gone, every other key reads as before
      and no key is new; deleting a missing key changes nothing. */
  lemma {:induction false} WithoutProperties(ms: seq<Member>, k: string)
    ensures k !in Keys(Without(ms, k))
    ensures forall k' :: k' != k ==> Lookup(Without(ms, k), k') == Lookup(ms, k')
    ensures forall x :: x in Keys(Without(ms, k)) ==> x in Keys(ms)
    ensures DistinctKeys(ms) ==> DistinctKeys(Without(ms, k))
    ensures k !in Keys(ms) ==> Without(ms, k) == ms
  {
    WithoutKeys(ms, k);
    if DistinctKeys(ms) {
      WithoutDistinct(ms, k);
    }
  }

  lemma {:induction false} WithoutKeys(ms: seq<Member>, k: string)
    ensures k !in Keys(Without(ms, k))
    ensures forall k' :: k' != k ==> Lookup(Without(ms, k), k') == Lookup(ms, k')
    ensures forall x :: x in Keys(Without(ms, k)) ==> x in Keys(ms)
    ensures k !in Keys(ms) ==> Without(ms, k) == ms
  {
    if ms != [] {
      WithoutKeys(ms[1..], k);
      assert Keys(ms) == [ms[0].key] + Keys(ms[1..]);
      if ms[0].key != k {
        assert Keys([ms[0]] + Without(ms[1..], k)) == [ms[0].key] + Keys(Without(ms[1..], k));
      }
    }
  }

  lemma {:induction false} WithoutDistinct(ms: seq<Member>, k: string)
    requires DistinctKeys(ms)
    ensures DistinctKeys(Without(ms, k))
  {
    if ms != [] {
      DistinctHead(ms);
      WithoutDistinct(ms[1..], k);
      if ms[0].key != k {
        var tail := Without(ms[1..], k);
        WithoutKeys(ms[1..], k);
        var r := [ms[0]] + tail;
        forall i, j | 0 <= i < j < |r| ensures r[i].key != r[j].key {
          if i == 0 {
            assert r[j].key == Keys(tail)[j - 1];
          } else {
            assert r[i] == tail[i - 1] && r[j] == tail[j - 1];
          }
        }
      }
    }
  }

  lemma DistinctHead(ms: seq<Member>)
    requires ms != [] && DistinctKeys(ms)
    ensures ms[0].key !in Keys(ms[1..]) && DistinctKeys(ms[1..])
  {
    forall i | 0 <= i < |ms| - 1 ensures Keys(ms[1..])[i] != ms[0].key {
      assert ms[1..][i] == ms[i + 1];
    }
  }

  /** JavaScript truthiness: `undefined`, `null`, `false`, `0`, NaN and `''` are falsy. */
  predicate Truthy(v: Value)
  {
    match v
    case Undefined => false
    case Null => false
    case Bool(b) => b
    case Num(n) => n != 0
    case NaN => false
    case Str(s) => s != ""
    case Arr(_) => true
    case Obj(_) => true
  }

  // ---------------------------------------------------------------------
  // Decimal numerals
  // ---------------------------------------------------------------------

  predicate IsDigit(c: char) { '0' <= c <= '9' }

  predicate AllDigits(s: string) { forall i :: 0 <= i < |s| ==> IsDigit(s[i]) }

  function DigitChar(d: nat): (c: char)
    requires d < 10
    ensures IsDigit(c) && c as int - '0' as int == d
  {
    (('0' as int) + d) as char
  }

  function NatDigits(n: nat): (s: string)
    ensures s != [] && AllDigits(s)
    decreases n
  {
    if n < 10 then [DigitChar(n)] else NatDigits(n / 10) + [DigitChar(n % 10)]
  }

  function DigitsValue(s: string): nat
    requires AllDigits(s)
  {
    if s == [] then 0
    else DigitsValue(s[..|s| - 1]) * 10 + (s[|s| - 1] as int - '0' as int)
  }

  lemma {:induction false} DigitsRoundTrip(n: nat)
    ensures DigitsValue(NatDigits(n)) == n
    decreases n
  {
    if n >= 10 {
      var s := NatDigits(n);
      assert s[..|s| - 1] == NatDigits(n / 10);
      DigitsRoundTrip(n / 10);
    }
  }

  /** The number of leading decimal digits. */
  function DigitRun(s: string): (k: nat)
    ensures k <= |s| && AllDigits(s[..k])
    ensures k < |s| ==> !IsDigit(s[k])
  {
    if s != [] && IsDigit(s[0]) then
      var k := 1 + DigitRun(s[1..]);
      assert s[..k] == [s[0]] + s[1..][..k - 1];
      k
    else 0
  }

  lemma {:induction false} DigitRunOf(ds: string, rest: string)
    requires AllDigits(ds)
    requires rest == [] || !IsDigit(rest[0])
    ensures DigitRun(ds + rest) == |ds|
  {
    if ds != [] {
      assert (ds + rest)[1..] == ds[1..] + rest;
      DigitRunOf(ds[1..], rest);
    }
  }

  /** The decimal text of an integer, as `String(n)` writes it. */
  function IntText(n: int): string
  {
    if n < 0 then "-" + NatDigits(-n) else NatDigits(n)
  }

  // ---------------------------------------------------------------------
  // String(x): conversion of any value to text
  // ---------------------------------------------------------------------

  /** `String(v)`. An array prints its elements joined by commas, with
      `null` and `undefined` elements printed as nothing. */
  function ToText(v: Value): string
    decreases v
  {
    match v
    case Undefined => "undefined"
    case Null => "null"
    case Bool(b) => if b then "true" else "false"
    case Num(n) => IntText(n)
    case NaN => "NaN"
    case Str(s) => s
    case Arr(es) => JoinText(es)
    case Obj(_) => "[object Object]"
  }

  function JoinText(es: seq<Value>): string
    decreases es
  {
    if es == [] then ""
    else
      var head := if es[0].Undefined? || es[0].Null? then "" else ToText(es[0]);
      if |es| == 1 then head else head + "," + JoinText(es[1..])
  }

  /** `String(v || '')`, the idiom the source uses to default a text attribute. */
  function TextOr(v: Value): (s: string)
    ensures v.Str? ==> s == v.s
    ensures !Truthy(v) && !v.Str? ==> s == ""
  {
    if Truthy(v) then ToText(v) else ""
  }

  // ---------------------------------------------------------------------
  // Serialization (JSON.stringify)
  // ---------------------------------------------------------------------

  function EscapeChar(c: char): string
  {
    if c == '"' || c == '\\' then ['\\', c] else [c]
  }

  function Escape(s: string): string
  {
    if s == [] then [] else EscapeChar(s[0]) + Escape(s[1..])
  }

  function Quote(s: string): string
  {
    "\"" + Escape(s) + "\""
  }

  /** `JSON.stringify(v)`. An `undefined` property is left out of its object;
      `undefined` and NaN elsewhere are written as `null`. */
  function Serialize(v: Value): string
    decreases v
  {
    match v
    case Undefined => "null"
    case Null => "null"
    case NaN => "null"
    case Bool(b) => if b then "true" else "false"
    case Num(n) => IntText(n)
    case Str(s) => Quote(s)
    case Arr(es) => "[" + SerializeElems(es) + "]"
    case Obj(ms) => "{" + SerializeMembers(ms, false) + "}"
  }

  function SerializeElems(es: seq<Value>): string
    decreases es
  {
    if es == [] then ""
    else if |es| == 1 then Serialize(es[0])
    else Serialize(es[0]) + "," + SerializeElems(es[1..])
  }

  /** The members of an object; `more` says that a member was already
      written, so the next one written is preceded by a comma. */
  function SerializeMembers(ms: seq<Member>, more: bool): string
    decreases ms
  {
    if ms == [] then ""
    else if ms[0].value.Undefined? then SerializeMembers(ms[1..], more)
    else
      (if more then "," else "") + Quote(ms[0].key) + ":" + Serialize(ms[0].value)
      + SerializeMembers(ms[1..], true)
  }

  // ---------------------------------------------------------------------
  // Parsing (JSON.parse); None is the SyntaxError that JSON.parse throws
  // ---------------------------------------------------------------------

  function Unescape(c: char): Option<char>
  {
    if c == '"' || c == '\\' || c == '/' then Some(c)
    else if c == 'n' then Some('\n')
    else if c == 'r' then Some('\r')
    else if c == 't' then Some('\t')
    else None
  }

  /** The body of a string literal up to its closing quote, and what follows it. */
  function ParseChars(s: string): (r: Option<(string, string)>)
    ensures r.Some? ==> |r.value.1| < |s|
  {
    if s == [] then None
    else if s[0] == '"' then Some(([], s[1..]))
    else if s[0] == '\\' then
      if |s| < 2 then None
      else match Unescape(s[1])
        case None => None
        case Some(c) =>
          match ParseChars(s[2..])
          case None => None
          case Some((body, rest)) => Some(([c] + body, rest))
    else
      match ParseChars(s[1..])
      case None => None
      case Some((body, rest)) => Some(([s[0]] + body, rest))
  }

  function ParseWord(s: string, word: string, v: Value): (r: Option<(Value, string)>)
    requires word != []
    ensures r.Some? ==> |r.value.1| < |s|
  {
    if |word| <= |s| && s[..|word|] == word then Some((v, s[|word|..])) else None
  }

  function ParseNumber(s: string): (r: Option<(Value, string)>)
    ensures r.Some? ==> |r.value.1| < |s|
  {
    if s != [] && s[0] == '-' then
      var k := DigitRun(s[1..]);
      if k == 0 then None
      else
        var magnitude: int := DigitsValue(s[1..][..k]);
        Some((Num(-magnitude), s[1..][k..]))
    else
      var k := DigitRun(s);
      if k == 0 then None else Some((Num(DigitsValue(s[..k])), s[k..]))
  }

  /** A number as JSON writes one: the digits after an optional minus sign
      are a lone `0` or do not start with `0` (`JSON.parse("01")` throws). */
  function ParseJsonNumber(s: string): (r: Option<(Value, string)>)
    ensures r.Some? ==> |r.value.1| < |s|
    ensures r.Some? ==> r == ParseNumber(s)
    ensures var digits := if s != [] && s[0] == '-' then s[1..] else s;
      |digits| >= 2 && digits[0] == '0' && IsDigit(digits[1]) ==> r.None?
  {
    var digits := if s != [] && s[0] == '-' then s[1..] else s;
    if |digits| >= 2 && digits[0] == '0' && IsDigit(digits[1]) then None else ParseNumber(s)
  }

  function ParseValue(s: string): (r: Option<(Value, string)>)
    ensures r.Some? ==> |r.value.1| < |s|
    decreases |s|, 0
  {
    if s == [] then None
    else if s[0] == 'n' then ParseWord(s, "null", Null)
    else if s[0] == 't' then ParseWord(s, "true", Bool(true))
    else if s[0] == 'f' then ParseWord(s, "false", Bool(false))
    else if s[0] == '"' then
      match ParseChars(s[1..])
      case None => None
      case Some((body, rest)) => Some((Str(body), rest))
    else if s[0] == '[' then
      if |s| >= 2 && s[1] == ']' then Some((Arr([]), s[2..]))
      else
        match ParseElements(s[1..])
        case None => None
        case Some((es, rest)) => Some((Arr(es), rest))
    else if s[0] == '{' then
      if |s| >= 2 && s[1] == '}' then Some((Obj([]), s[2..]))
      else
        match ParseMembers(s[1..])
        case None => None
        case Some((ms, rest)) => Some((Obj(ms), rest))
    else ParseJsonNumber(s)
  }

  /** The elements of a non-empty array, through its closing bracket. */
  function ParseElements(s: string): (r: Option<(seq<Value>, string)>)
    ensures r.Some? ==> |r.value.1| < |s|
    decreases |s|, 1
  {
    match ParseValue(s)
    case None => None
    case Some((v, rest)) =>
      if rest != [] && rest[0] == ']' then Some(([v], rest[1..]))
      else if rest != [] && rest[0] == ',' then
        match ParseElements(rest[1..])
        case None => None
        case Some((vs, rest')) => Some(([v] + vs, rest'))
      else None
  }

  /** A member in front of the members that follow it: as in `JSON.parse`, a
      repeated key keeps the place of its first occurrence and the value of
      its last. */
  function Prepend(m: Member, ms: seq<Member>): (r: seq<Member>)
  {
    if m.key in Keys(ms) then [Member(m.key, Lookup(ms, m.key))] + Without(ms, m.key)
    else [m] + ms
  }

  /** Parsed objects never repeat a key. */
  lemma PrependDistinct(m: Member, ms: seq<Member>)
    requires DistinctKeys(ms)
    ensures DistinctKeys(Prepend(m, ms))
  {
    var tail := if m.key in Keys(ms) then Without(ms, m.key) else ms;
    WithoutProperties(ms, m.key);
    assert Prepend(m, ms)[1..] == tail;
    assert forall i :: 0 <= i < |tail| ==> tail[i].key in Keys(tail);
  }

  /** The members of a non-empty object, through its closing brace. */
  function ParseMembers(s: string): (r: Option<(seq<Member>, string)>)
    ensures r.Some? ==> |r.value.1| < |s|
    decreases |s|, 1
  {
    if s == [] || s[0] != '"' then None
    else
      match ParseChars(s[1..])
      case None => None
      case Some((key, afterKey)) =>
        if afterKey == [] || afterKey[0] != ':' then None
        else
          match ParseValue(afterKey[1..])
          case None => None
          case Some((v, rest)) =>
            if rest != [] && rest[0] == '}' then Some(([Member(key, v)], rest[1..]))
            else if rest != [] && rest[0] == ',' then
              match ParseMembers(rest[1..])
              case None => None
              case Some((ms, rest')) => Some((Prepend(Member(key, v), ms), rest'))
            else None
  }

  /** `JSON.parse(s)`: None where it throws. Text after the value is an error. */
  function Parse(s: string): Option<Value>
  {
    match ParseValue(s)
    case Some((v, rest)) => if rest == [] then Some(v) else None
    case None => None
  }

  // ---------------------------------------------------------------------
  // Round trip
  // ---------------------------------------------------------------------

  /** The values JSON represents exactly: no `undefined`, no NaN, and
      objects with distinct keys. */
  predicate IsJson(v: Value)
    decreases v
  {
    match v
    case Undefined => false
    case NaN => false
    case Arr(es) => AllJson(es)
    case Obj(ms) => DistinctKeys(ms) && AllJsonMembers(ms)
    case _ => true
  }

  predicate AllJson(es: seq<Value>)
    decreases es
  {
    es != [] ==> IsJson(es[0]) && AllJson(es[1..])
  }

  predicate AllJsonMembers(ms: seq<Member>)
    decreases ms
  {
    ms != [] ==> IsJson(ms[0].value) && AllJsonMembers(ms[1..])
  }

  /** What may follow a value inside JSON text. */
  predicate Delimited(rest: string)
  {
    rest == [] || rest[0] == ',' || rest[0] == ']' || rest[0] == '}'
  }

  lemma {:induction false} CharsRoundTrip(s: string, rest: string)
    ensures ParseChars(Escape(s) + "\"" + rest) == Some((s, rest))
  {
    if s == [] {
      assert Escape(s) + "\"" + rest == "\"" + rest;
    } else {
      var t := Escape(s[1..]) + "\"" + rest;
      assert Escape(s) + "\"" + rest == EscapeChar(s[0]) + t;
      CharsRoundTrip(s[1..], rest);
      if s[0] == '"' || s[0] == '\\' {
        assert (EscapeChar(s[0]) + t)[2..] == t;
      } else {
        assert (EscapeChar(s[0]) + t)[1..] == t;
      }
      assert [s[0]] + s[1..] == s;
    }
  }

  lemma {:induction false} SignedDigitsParse(ds: string, rest: string)
    requires ds != [] && AllDigits(ds) && (rest == [] || !IsDigit(rest[0]))
    ensures ParseNumber(['-'] + (ds + rest)) == Some((Num(0 - DigitsValue(ds)), rest))
  {
    var s := ['-'] + (ds + rest);
    assert s[1..] == ds + rest;
    DigitRunOf(ds, rest);
    assert s[1..][..|ds|] == ds;
    assert s[1..][|ds|..] == rest;
  }

  lemma {:induction false} DigitsParse(ds: string, rest: string)
    requires ds != [] && AllDigits(ds) && (rest == [] || !IsDigit(rest[0]))
    ensures ParseNumber(ds + rest) == Some((Num(DigitsValue(ds)), rest))
  {
    var s := ds + rest;
    assert s[0] == ds[0] && IsDigit(s[0]);
    DigitRunOf(ds, rest);
    assert s[..|ds|] == ds;
    assert s[|ds|..] == rest;
  }

  lemma {:induction false} NegativeParse(n: int, rest: string)
    requires n < 0 && (rest == [] || !IsDigit(rest[0]))
    ensures ParseNumber(IntText(n) + rest) == Some((Num(n), rest))
  {
    var m: nat := -n;
    var ds := NatDigits(m);
    SignedDigitsParse(ds, rest);
    DigitsRoundTrip(m);
    assert IntText(n) + rest == ['-'] + (ds + rest);
  }

  lemma {:induction false} NonNegativeParse(n: int, rest: string)
    requires n >= 0 && (rest == [] || !IsDigit(rest[0]))
    ensures ParseNumber(IntText(n) + rest) == Some((Num(n), rest))
  {
    var ds := NatDigits(n);
    DigitsParse(ds, rest);
    DigitsRoundTrip(n);
    assert IntText(n) + rest == ds + rest;
  }

  /** The decimal text of an integer reads back whatever non-digit text follows it. */
  lemma IntTextParse(n: int, rest: string)
    requires rest == [] || !IsDigit(rest[0])
    ensures ParseNumber(IntText(n) + rest) == Some((Num(n), rest))
  {
    if n < 0 {
      NegativeParse(n, rest);
    } else {
      NonNegativeParse(n, rest);
    }
  }

  /** The decimal text of an integer opens with a minus sign or a digit. */
  lemma IntTextStart(n: int)
    ensures IntText(n) != [] && (IntText(n)[0] == '-' || IsDigit(IntText(n)[0]))
  {
    if n >= 0 {
      assert IntText(n)[0] == NatDigits(n)[0];
    }
  }

  /** Only zero is written with a leading `0`. */
  lemma {:induction false} NatDigitsLead(n: nat)
    ensures NatDigits(n)[0] == '0' ==> n == 0
    decreases n
  {
    if n >= 10 {
      assert NatDigits(n)[0] == NatDigits(n / 10)[0];
      NatDigitsLead(n / 10);
    }
  }

  /** The digits of an integer's text, after its sign, never open with a
      `0` that another digit follows. */
  lemma CanonicalDigits(n: int, rest: string)
    requires rest == [] || !IsDigit(rest[0])
    ensures var s := IntText(n) + rest;
      var digits := if s != [] && s[0] == '-' then s[1..] else s;
      !(|digits| >= 2 && digits[0] == '0' && IsDigit(digits[1]))
  {
    var m: nat := if n < 0 then -n else n;
    var ds := NatDigits(m);
    var s := IntText(n) + rest;
    var digits := if s != [] && s[0] == '-' then s[1..] else s;
    assert digits == ds + rest by {
      if n < 0 {
        assert s == ['-'] + (ds + rest);
      } else {
        assert s == ds + rest;
        assert ds[0] != '-';
      }
    }
    NatDigitsLead(m);
    if |digits| >= 2 && digits[0] == '0' {
      assert ds == "0";
      assert digits[1] == rest[0];
    }
  }

  lemma {:induction false} NumberRoundTrip(n: int, rest: string)
    requires Delimited(rest)
    ensures ParseValue(IntText(n) + rest) == Some((Num(n), rest))
  {
    IntTextParse(n, rest);
    IntTextStart(n);
    CanonicalDigits(n, rest);
    var s := IntText(n) + rest;
    assert s[0] == IntText(n)[0];
  }

  /** A numeral with a leading zero is not JSON. */
  lemma LeadingZeroRejected()
    ensures Parse("01") == None
    ensures Parse("-01") == None
    ensures Parse("0") == Some(Num(0))
  {
    assert ParseJsonNumber("01") == None;
    assert ParseJsonNumber("-01") == None;
    NumberRoundTrip(0, "");
    assert IntText(0) == "0";
  }

  /** The first character of serialized JSON opens a value: never a
      closing bracket or brace. */
  lemma SerializeStart(v: Value)
    ensures Serialize(v) != []
    ensures Serialize(v)[0] != ']' && Serialize(v)[0] != '}'
  {
  }

  lemma {:induction false} WordRoundTrip(v: Value, rest: string)
    requires v.Null? || v.Bool?
    ensures ParseValue(Serialize(v) + rest) == Some((v, rest))
  {
    var w := Serialize(v);
    assert (w + rest)[..|w|] == w && (w + rest)[|w|..] == rest;
  }

  lemma {:induction false} StrRoundTrip(s: string, rest: string)
    ensures ParseValue(Serialize(Str(s)) + rest) == Some((Str(s), rest))
  {
    CharsRoundTrip(s, rest);
    assert (Serialize(Str(s)) + rest)[1..] == Escape(s) + "\"" + rest;
  }

  lemma {:induction false} ValueRoundTrip(v: Value, rest: string)
    requires IsJson(v) && Delimited(rest)
    ensures ParseValue(Serialize(v) + rest) == Some((v, rest))
    decreases v, 2
  {
    match v
    case Null => WordRoundTrip(v, rest);
    case Bool(_) => WordRoundTrip(v, rest);
    case Num(n) => NumberRoundTrip(n, rest);
    case Str(s) => StrRoundTrip(s, rest);
    case Arr(es) => ArrRoundTrip(es, rest);
    case Obj(ms) => ObjRoundTrip(ms, rest);
  }

  lemma {:induction false} ArrRoundTrip(es: seq<Value>, rest: string)
    requires AllJson(es)
    ensures ParseValue(Serialize(Arr(es)) + rest) == Some((Arr(es), rest))
    decreases es, 1
  {
    var s := Serialize(Arr(es)) + rest;
    if es == [] {
      assert s == "[]" + rest;
      assert s[2..] == rest;
    } else {
      var t := SerializeElems(es) + "]" + rest;
      assert s == "[" + t;
      SerializeStart(es[0]);
      assert t[0] == Serialize(es[0])[0];
      ElemsRoundTrip(es, rest);
      ParseArrayStep(t);
    }
  }

  lemma {:induction false} ObjRoundTrip(ms: seq<Member>, rest: string)
    requires DistinctKeys(ms) && AllJsonMembers(ms)
    ensures ParseValue(Serialize(Obj(ms)) + rest) == Some((Obj(ms), rest))
    decreases ms, 2
  {
    var s := Serialize(Obj(ms)) + rest;
    if ms == [] {
      assert s == "{}" + rest;
      assert s[2..] == rest;
    } else {
      var t := SerializeMembers(ms, false) + "}" + rest;
      assert s == "{" + t;
      MembersStart(ms);
      MembersRoundTrip(ms, rest);
      ParseObjectStep(t);
    }
  }

  /** An object whose text does not start with `}` after its brace. */
  lemma ParseObjectStep(t: string)
    requires t != [] && t[0] == '"'
    ensures ParseMembers(t).Some? ==>
      ParseValue("{" + t) == Some((Obj(ParseMembers(t).value.0), ParseMembers(t).value.1))
  {
    assert ("{" + t)[1..] == t;
  }

  /** An array whose text does not start with `]` after its bracket. */
  lemma ParseArrayStep(t: string)
    requires t != [] && t[0] != ']'
    ensures ParseElements(t).Some? ==>
      ParseValue("[" + t) == Some((Arr(ParseElements(t).value.0), ParseElements(t).value.1))
  {
    assert ("[" + t)[1..] == t;
  }

  /** One step of ParseElements, stated over what ParseValue returns. */
  lemma ParseElementsStep(text: string, v: Value, rest: string)
    requires ParseValue(text) == Some((v, rest))
    ensures rest != [] && rest[0] == ']' ==> ParseElements(text) == Some(([v], rest[1..]))
    ensures rest != [] && rest[0] == ',' && ParseElements(rest[1..]).Some? ==>
      ParseElements(text) == Some(([v] + ParseElements(rest[1..]).value.0, ParseElements(rest[1..]).value.1))
  {
  }

  lemma MembersStart(ms: seq<Member>)
    requires ms != [] && AllJsonMembers(ms)
    ensures SerializeMembers(ms, false) != [] && SerializeMembers(ms, false)[0] == '"'
  {
    assert IsJson(ms[0].value);
  }

  lemma {:induction false} ElemsRoundTrip(es: seq<Value>, rest: string)
    requires es != [] && AllJson(es)
    ensures ParseElements(SerializeElems(es) + "]" + rest) == Some((es, rest))
    decreases es, 0
  {
    var text := SerializeElems(es) + "]" + rest;
    if |es| == 1 {
      assert text == Serialize(es[0]) + ("]" + rest);
      ValueRoundTrip(es[0], "]" + rest);
      ParseElementsStep(text, es[0], "]" + rest);
      assert ("]" + rest)[1..] == rest;
      assert [es[0]] == es;
    } else {
      var tail := SerializeElems(es[1..]) + "]" + rest;
      ElemsConsText(es, rest);
      ValueRoundTrip(es[0], "," + tail);
      ParseElementsStep(text, es[0], "," + tail);
      assert ("," + tail)[1..] == tail;
      ElemsRoundTrip(es[1..], rest);
      assert [es[0]] + es[1..] == es;
    }
  }

  lemma ElemsConsText(es: seq<Value>, rest: string)
    requires |es| > 1
    ensures SerializeElems(es) + "]" + rest
      == Serialize(es[0]) + ("," + (SerializeElems(es[1..]) + "]" + rest))
  {
    var a, b := Serialize(es[0]), SerializeElems(es[1..]);
    assert SerializeElems(es) == a + "," + b;
    CommaShape(a, b, rest);
  }

  lemma CommaShape(a: string, b: string, rest: string)
    ensures a + "," + b + "]" + rest == a + ("," + (b + "]" + rest))
  {
  }

  /** Parsing one member `"key":value` followed by a delimiter. */
  lemma {:induction false} MemberPrefix(key: string, v: Value, rest: string, text: string)
    requires IsJson(v) && Delimited(rest)
    requires text == Quote(key) + (":" + Serialize(v) + rest)
    ensures text != [] && text[0] == '"'
    ensures ParseChars(text[1..]) == Some((key, ":" + Serialize(v) + rest))
    ensures ParseValue((":" + Serialize(v) + rest)[1..]) == Some((v, rest))
    decreases v, 3
  {
    var afterKey := ":" + Serialize(v) + rest;
    KeyPrefix(key, afterKey, text);
    assert afterKey[1..] == Serialize(v) + rest;
    ValueRoundTrip(v, rest);
  }

  lemma KeyPrefix(key: string, afterKey: string, text: string)
    requires text == Quote(key) + afterKey
    ensures text != [] && text[0] == '"'
    ensures ParseChars(text[1..]) == Some((key, afterKey))
  {
    assert text[1..] == Escape(key) + "\"" + afterKey;
    CharsRoundTrip(key, afterKey);
  }

  /** One step of ParseMembers, stated over what its parts return. */
  lemma ParseMembersStep(text: string, key: string, afterKey: string, v: Value, rest: string)
    requires text != [] && text[0] == '"'
    requires ParseChars(text[1..]) == Some((key, afterKey))
    requires afterKey != [] && afterKey[0] == ':'
    requires ParseValue(afterKey[1..]) == Some((v, rest))
    ensures rest != [] && rest[0] == '}' ==>
      ParseMembers(text) == Some(([Member(key, v)], rest[1..]))
    ensures rest != [] && rest[0] == ',' && ParseMembers(rest[1..]).Some? ==>
      ParseMembers(text)
        == Some((Prepend(Member(key, v), ParseMembers(rest[1..]).value.0), ParseMembers(rest[1..]).value.1))
  {
  }

  lemma SerializeMembersCons(ms: seq<Member>)
    requires ms != [] && AllJsonMembers(ms)
    ensures SerializeMembers(ms, false)
      == Quote(ms[0].key) + ":" + Serialize(ms[0].value) + SerializeMembers(ms[1..], true)
    ensures SerializeMembers(ms, true) == "," + SerializeMembers(ms, false)
  {
    assert IsJson(ms[0].value);
  }

  lemma {:induction false} MembersRoundTrip(ms: seq<Member>, rest: string)
    requires ms != [] && DistinctKeys(ms) && AllJsonMembers(ms)
    ensures ParseMembers(SerializeMembers(ms, false) + "}" + rest) == Some((ms, rest))
    decreases ms, 1
  {
    if |ms| == 1 {
      LastMemberRoundTrip(ms, rest);
    } else {
      MemberConsRoundTrip(ms, rest);
    }
  }

  lemma {:induction false} LastMemberRoundTrip(ms: seq<Member>, rest: string)
    requires |ms| == 1 && AllJsonMembers(ms)
    ensures ParseMembers(SerializeMembers(ms, false) + "}" + rest) == Some((ms, rest))
    decreases ms, 0
  {
    var m := ms[0];
    var tail := "}" + rest;
    var afterKey := ":" + Serialize(m.value) + tail;
    var text := Quote(m.key) + afterKey;
    LastMemberText(ms, rest);
    MemberPrefix(m.key, m.value, tail, text);
    ParseMembersStep(text, m.key, afterKey, m.value, tail);
    assert tail[1..] == rest;
    assert [Member(m.key, m.value)] == ms;
  }

  /** The text of a one-member object, split at the key. */
  lemma LastMemberText(ms: seq<Member>, rest: string)
    requires |ms| == 1 && AllJsonMembers(ms)
    ensures IsJson(ms[0].value)
    ensures SerializeMembers(ms, false) + "}" + rest
      == Quote(ms[0].key) + (":" + Serialize(ms[0].value) + ("}" + rest))
  {
    SerializeMembersCons(ms);
    assert SerializeMembers(ms[1..], true) == "";
  }

  lemma {:induction false} MemberConsRoundTrip(ms: seq<Member>, rest: string)
    requires |ms| > 1 && DistinctKeys(ms) && AllJsonMembers(ms)
    ensures ParseMembers(SerializeMembers(ms, false) + "}" + rest) == Some((ms, rest))
    decreases ms, 0
  {
    var m := ms[0];
    var more := SerializeMembers(ms[1..], false) + "}" + rest;
    var tail := "," + more;
    var afterKey := ":" + Serialize(m.value) + tail;
    var text := SerializeMembers(ms, false) + "}" + rest;
    MembersConsText(ms, rest);
    MemberPrefix(m.key, m.value, tail, text);
    ParseMembersStep(text, m.key, afterKey, m.value, tail);
    assert tail[1..] == more;
    DistinctHead(ms);
    MembersRoundTrip(ms[1..], rest);
    PrependFresh(m, ms[1..]);
    assert [m] + ms[1..] == ms;
  }

  /** The text of two or more members, split at the first comma. */
  lemma MembersConsText(ms: seq<Member>, rest: string)
    requires |ms| > 1 && AllJsonMembers(ms)
    ensures IsJson(ms[0].value) && AllJsonMembers(ms[1..])
    ensures SerializeMembers(ms, false) + "}" + rest
      == Quote(ms[0].key) + (":" + Serialize(ms[0].value)
           + ("," + (SerializeMembers(ms[1..], false) + "}" + rest)))
  {
    SerializeMembersCons(ms);
    SerializeMembersCons(ms[1..]);
    var q, sv, c := Quote(ms[0].key), Serialize(ms[0].value), SerializeMembers(ms[1..], false);
    assert SerializeMembers(ms, false) == q + ":" + sv + ("," + c);
    ConcatShape(q, sv, c, rest);
  }

  lemma ConcatShape(q: string, sv: string, c: string, rest: string)
    ensures q + ":" + sv + ("," + c) + "}" + rest == q + (":" + sv + ("," + (c + "}" + rest)))
  {
  }

  lemma PrependFresh(m: Member, ms: seq<Member>)
    requires m.key !in Keys(ms)
    ensures Prepend(m, ms) == [m] + ms
  {
  }

  /** `JSON.parse(JSON.stringify(v))` gives `v` back for every value JSON can represent. */
  lemma RoundTrip(v: Value)
    requires IsJson(v)
    ensures Parse(Serialize(v)) == Some(v)
  {
    ValueRoundTrip(v, []);
    assert Serialize(v) + [] == Serialize(v);
  }
}
