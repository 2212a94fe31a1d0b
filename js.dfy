/** JavaScript values and string helpers shared by the agent-core model.
    Only the parts of JavaScript's semantics that the core inspects are modelled:
    truthiness, property reads, String() conversion of a thrown value, and
    String.prototype.split on a single separator character. */
module Js {

  datatype Option<+T> = None | Some(value: T)

  datatype Result<+T, +E> = Ok(value: T) | Err(error: E)

  /** A thrown JavaScript error: `new TypeError(message)`, `new Error(message)`,
      or a TypeError the engine raises itself (reading a property of null or
      undefined), whose wording is not modelled. */
  datatype Failure = TypeError(message: string) | Error(message: string) | EngineTypeError

  /** A JavaScript value. Numbers are integers here. Objects come in four kinds:
      a plain object (`Obj`), an array, an instance of some class, and a function.
      `text` is what the object's own `toString` yields, which `String(...)` uses. */
  datatype Value =
    | Undefined
    | Null
    | Bool(b: bool)
    | Num(n: int)
    | Str(s: string)
    | Obj(fields: map<string, Value>)
    | Arr(elements: seq<Value>)
    | Instance(fields: map<string, Value>, text: string)
    | Fun(fields: map<string, Value>, text: string)

  /** JavaScript truthiness (`if (v)`, `v || d`). */
  predicate Truthy(v: Value)
  {
    match v
    case Undefined => false
    case Null => false
    case Bool(b) => b
    case Num(n) => n != 0
    case Str(s) => s != ""
    case _ => true
  }

  predicate IsNullOrUndefined(v: Value)
  {
    v.Undefined? || v.Null?
  }

  /** `typeof v === "object" && v !== null`: any object but a function. */
  predicate IsObject(v: Value)
  {
    v.Obj? || v.Arr? || v.Instance?
  }

  /** Whether `v` carries named own properties: arrays carry only indices here,
      and primitives none. */
  predicate HasFields(v: Value)
  {
    v.Obj? || v.Instance? || v.Fun?
  }

  /** Property read `v[key]` on a value that is neither null nor undefined;
      primitives and arrays carry no named properties in this model. */
  function Get(v: Value, key: string): (r: Value)
    ensures !HasFields(v) ==> r == Undefined
    ensures HasFields(v) && key !in v.fields ==> r == Undefined
    ensures HasFields(v) && key in v.fields ==> r == v.fields[key]
  {
    if HasFields(v) && key in v.fields then v.fields[key] else Undefined
  }

  /** No element occurs twice. */
  predicate Distinct(s: seq<string>)
  {
    forall i, j :: 0 <= i < j < |s| ==> s[i] != s[j]
  }

  // ---------------------------------------------------------------------
  // Decimal rendering of naturals (String(n), template literals)

  function DigitChar(d: nat): char
    requires d < 10
  {
    "0123456789"[d]
  }

  function DigitValue(c: char): nat
  {
    if '0' <= c <= '9' then (c as int - '0' as int) as nat else 0
  }

  predicate IsDigit(c: char)
  {
    '0' <= c <= '9'
  }

  /** The decimal digits of `n`, most significant first. */
  function Decimal(n: nat): (s: string)
    ensures |s| >= 1
    ensures forall i :: 0 <= i < |s| ==> IsDigit(s[i])
  {
    if n < 10 then [DigitChar(n)] else Decimal(n / 10) + [DigitChar(n % 10)]
  }

  /** Reads a string of decimal digits back as a natural. */
  function ParseDecimal(s: string): nat
  {
    if |s| == 0 then 0 else ParseDecimal(s[..|s| - 1]) * 10 + DigitValue(s[|s| - 1])
  }

  lemma {:induction false} DecimalRoundTrip(n: nat)
    ensures ParseDecimal(Decimal(n)) == n
  {
    if n >= 10 {
      var s := Decimal(n);
      assert s[..|s| - 1] == Decimal(n / 10);
      DecimalRoundTrip(n / 10);
      assert DigitValue(s[|s| - 1]) == n % 10;
    } else {
      assert DigitValue(DigitChar(n)) == n;
    }
  }

  lemma DecimalInjective(m: nat, n: nat)
    requires Decimal(m) == Decimal(n)
    ensures m == n
  {
    DecimalRoundTrip(m);
    DecimalRoundTrip(n);
  }

  /** JavaScript's String(v) on the values of this model. */
  function ToStr(v: Value): string
  {
    match v
    case Undefined => "undefined"
    case Null => "null"
    case Bool(b) => if b then "true" else "false"
    case Num(n) => if n < 0 then "-" + Decimal(-n) else Decimal(n)
    case Str(s) => s
    case Obj(_) => "[object Object]"
    case Arr(es) =>
      // Array.prototype.join(","): null and undefined elements print as "".
      if es == [] then ""
      else Join(seq(|es|, i requires 0 <= i < |es| =>
        if IsNullOrUndefined(es[i]) then "" else ToStr(es[i])), ',')
    case Instance(_, text) => text
    case Fun(_, text) => text
  }

  // ---------------------------------------------------------------------
  // String.prototype.split(sep) for a one-character separator, and its inverse

  /** `s.split(sep)`: the maximal separator-free pieces of `s`, in order.
      Like JavaScript, the empty string splits into one empty piece. */
  function Split(s: string, sep: char): (pieces: seq<string>)
    ensures |pieces| >= 1
    ensures forall i :: 0 <= i < |pieces| ==> sep !in pieces[i]
  {
    if |s| == 0 then [""]
    else
      var rest := Split(s[1..], sep);
      if s[0] == sep then [""] + rest
      else [[s[0]] + rest[0]] + rest[1..]
  }

  /** `pieces.join(sep)`. */
  function Join(pieces: seq<string>, sep: char): string
    requires |pieces| >= 1
  {
    if |pieces| == 1 then pieces[0] else pieces[0] + [sep] + Join(pieces[1..], sep)
  }

  /** Joining the pieces of a split gives the original string back. */
  lemma {:induction false} JoinSplit(s: string, sep: char)
    ensures Join(Split(s, sep), sep) == s
  {
    if |s| > 0 {
      var rest := Split(s[1..], sep);
      JoinSplit(s[1..], sep);
      if s[0] == sep {
        assert Split(s, sep) == [""] + rest;
        assert ([""] + rest)[1..] == rest;
      } else {
        var pieces := Split(s, sep);
        assert pieces == [[s[0]] + rest[0]] + rest[1..];
        if |rest| == 1 {
          assert Join(pieces, sep) == [s[0]] + rest[0];
        } else {
          assert pieces[1..] == rest[1..];
          assert Join(rest, sep) == rest[0] + [sep] + Join(rest[1..], sep);
          assert Join(pieces, sep) == [s[0]] + rest[0] + [sep] + Join(rest[1..], sep);
        }
        assert s == [s[0]] + s[1..];
      }
    }
  }

  /** Splitting a join of separator-free pieces gives the pieces back. */
  lemma {:induction false} SplitJoin(pieces: seq<string>, sep: char)
    requires |pieces| >= 1
    requires forall i :: 0 <= i < |pieces| ==> sep !in pieces[i]
    ensures Split(Join(pieces, sep), sep) == pieces
  {
    if |pieces| == 1 {
      SplitFree(pieces[0], sep);
    } else {
      SplitJoin(pieces[1..], sep);
      SplitPrefix(pieces[0], Join(pieces[1..], sep), sep);
      assert Join(pieces, sep) == pieces[0] + ([sep] + Join(pieces[1..], sep));
      assert pieces == [pieces[0]] + pieces[1..];
    }
  }

  /** A separator-free string splits into itself. */
  lemma {:induction false} SplitFree(s: string, sep: char)
    requires sep !in s
    ensures Split(s, sep) == [s]
  {
    if |s| > 0 {
      SplitFree(s[1..], sep);
      assert [s[0]] + s[1..] == s;
    }
  }

  /** Splitting `p + [sep] + t` for a separator-free `p`. */
  lemma {:induction false} SplitPrefix(p: string, t: string, sep: char)
    requires sep !in p
    ensures Split(p + ([sep] + t), sep) == [p] + Split(t, sep)
  {
    if |p| == 0 {
      assert p + ([sep] + t) == [sep] + t;
      assert ([sep] + t)[1..] == t;
    } else {
      var s := p + ([sep] + t);
      assert s[0] == p[0];
      assert s[1..] == p[1..] + ([sep] + t);
      SplitPrefix(p[1..], t, sep);
      assert [p[0]] + p[1..] == p;
    }
  }
}
