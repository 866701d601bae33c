/**
 * Shared vocabulary of the model: optional values, the JSON values that
 * travel in request bodies and token claims, JavaScript truthiness,
 * identifiers, time and a few string helpers.
 */
module Base {

  datatype Option<+T> = None | Some(value: T)

  /** A JSON value as the request handlers see it (`undefined` is `None` of an `Option<Json>`). */
  datatype Json =
    | JNull
    | JBool(b: bool)
    | JNum(n: int)
    | JStr(s: string)
    | JArr(items: seq<Json>)
    | JObj(fields: map<string, Json>)

  /** JavaScript truthiness of a defined value. */
  predicate Truthy(v: Json) {
    match v
    case JNull => false
    case JBool(b) => b
    case JNum(n) => n != 0
    case JStr(s) => s != ""
    case _ => true
  }

  /** Truthiness of a possibly undefined value. */
  predicate Present(v: Option<Json>) {
    v.Some? && Truthy(v.value)
  }

  /** Truthiness of a possibly undefined string (`!name` is `!Filled(name)`). */
  predicate Filled(s: Option<string>) {
    s.Some? && s.value != ""
  }

  /** Database row identifiers (Prisma's generated string ids). */
  type Id = string

  /** Request context and token claims: a JSON object. */
  type Claims = map<string, Json>

  function Field(c: Claims, name: string): Option<Json> {
    if name in c then Some(c[name]) else None
  }

  /**
   * How a context value behaves as a Prisma `where` condition on a
   * required id column: `undefined` drops the condition, a string compares
   * for equality, and any other value makes the query fail validation.
   */
  datatype IdFilter = AnyId | IdIs(id: Id) | Rejected

  function FilterOf(v: Option<Json>): (f: IdFilter)
    ensures v.None? <==> f.AnyId?
    ensures f.IdIs? <==> (v.Some? && v.value.JStr?)
    ensures f.IdIs? ==> v == Some(JStr(f.id))
  {
    match v
    case None => AnyId
    case Some(JStr(s)) => IdIs(s)
    case Some(_) => Rejected
  }

  /** Whether a row whose column holds `id` satisfies a non-rejected filter. */
  predicate Matches(f: IdFilter, id: Id) {
    f.AnyId? || (f.IdIs? && f.id == id)
  }

  /**
   * The status and message of an HTTP answer. `message` is `None` where the
   * body has no `message` field, and where the handler forwards an error
   * text of the database, which is not modelled.
   */
  datatype Reply = Reply(status: int, message: Option<string>)

  /**
   * What a request guard does: call `next`, answer the request, or throw
   * out of an async handler without answering.
   */
  datatype Verdict = Next | Refuse(status: int, message: string) | Raise

  /** Time is an integer number of milliseconds. */
  const MINUTE: int := 60 * 1000
  const DAY: int := 24 * 60 * MINUTE

  /** A fresh identifier: longer than every identifier already in use. */
  method NewId(used: set<Id>) returns (id: Id)
    ensures id !in used
  {
    var n: nat := 0;
    var rest := used;
    while rest != {}
      invariant rest <= used
      invariant forall x :: x in used - rest ==> |x| <= n
      decreases rest
    {
      var x :| x in rest;
      if |x| > n {
        n := |x|;
      }
      rest := rest - {x};
    }
    id := seq(n + 1, _ => '#');
    assert |id| == n + 1;
  }

  /** Lists the elements of a finite set, each exactly once, in some order. */
  method Enumerate<T>(s: set<T>) returns (r: seq<T>)
    ensures |r| == |s|
    ensures forall x :: x in r <==> x in s
    ensures forall i, j :: 0 <= i < j < |r| ==> r[i] != r[j]
  {
    r := [];
    var rest := s;
    while rest != {}
      invariant rest <= s
      invariant forall x :: x in r <==> x in s - rest
      invariant forall i, j :: 0 <= i < j < |r| ==> r[i] != r[j]
      invariant |r| + |rest| == |s|
      decreases rest
    {
      var x :| x in rest;
      r := r + [x];
      rest := rest - {x};
    }
  }

  /** JavaScript's `s.split(c)`: the pieces between occurrences of `c`. */
  function Split(s: string, c: char): (r: seq<string>)
    ensures |r| >= 1
    ensures forall k :: 0 <= k < |r| ==> c !in r[k]
  {
    if s == [] then [""]
    else
      var rest := Split(s[1..], c);
      if s[0] == c then [""] + rest else [[s[0]] + rest[0]] + rest[1..]
  }

  /** Joins pieces with `c` in between; the inverse of `Split`. */
  function Join(parts: seq<string>, c: char): string
    requires |parts| >= 1
  {
    if |parts| == 1 then parts[0] else parts[0] + [c] + Join(parts[1..], c)
  }

  lemma {:induction false} SplitJoin(s: string, c: char)
    ensures Join(Split(s, c), c) == s
  {
    if s != [] {
      SplitJoin(s[1..], c);
      var rest := Split(s[1..], c);
      if s[0] != c {
        if |rest| == 1 {
        } else {
          assert Join(rest, c) == rest[0] + [c] + Join(rest[1..], c);
          assert Join([[s[0]] + rest[0]] + rest[1..], c)
            == [s[0]] + rest[0] + [c] + Join(rest[1..], c);
        }
      }
    }
  }

  /** The digit character of `d`. */
  function Digit(d: nat): char
    requires d < 10
  {
    ('0' as int + d) as char
  }

  /** The decimal numeral of `n`, as a template literal prints a non-negative integer. */
  function Decimal(n: nat): (s: string)
    ensures |s| >= 1
    ensures forall k :: 0 <= k < |s| ==> '0' <= s[k] <= '9'
    ensures n >= 10 ==> s[0] != '0'
    decreases n
  {
    if n < 10 then [Digit(n)] else Decimal(n / 10) + [Digit(n % 10)]
  }

  /** The number a string of decimal digits denotes. */
  function DecimalValue(s: string): nat
    requires forall k :: 0 <= k < |s| ==> '0' <= s[k] <= '9'
  {
    if s == [] then 0 else DecimalValue(s[..|s| - 1]) * 10 + (s[|s| - 1] as int - '0' as int)
  }

  /** Reading the numeral back gives the number. */
  lemma {:induction false} DecimalRoundTrip(n: nat)
    ensures DecimalValue(Decimal(n)) == n
    decreases n
  {
    if n >= 10 {
      DecimalRoundTrip(n / 10);
      var s := Decimal(n);
      assert s[..|s| - 1] == Decimal(n / 10);
    }
  }

  /** `toUpperCase` on the ASCII letters. */
  function UpperChar(ch: char): char {
    if 'a' <= ch <= 'z' then (ch as int - 32) as char else ch
  }

  function ToUpper(s: string): (r: string)
    ensures |r| == |s|
    ensures forall k :: 0 <= k < |s| ==> r[k] == UpperChar(s[k])
  {
    if s == [] then [] else [UpperChar(s[0])] + ToUpper(s[1..])
  }
}
