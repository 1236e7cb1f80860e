/** JSON values with the lenient accessors of the source: a missing key or a wrong shape reads as nothing. */
module Json {
  import opened Wrappers

  datatype Value =
    | Null
    | Bool(b: bool)
    | Int(n: int)
    | Float(r: real)
    | Str(s: string)
    | Arr(items: seq<Value>)
    | Obj(fields: map<string, Value>)

  function Field(v: Value, key: string): Value {
    if v.Obj? && key in v.fields then v.fields[key] else Null
  }

  predicate HasField(v: Value, key: string) {
    v.Obj? && key in v.fields
  }

  function WithField(v: Value, key: string, x: Value): Value {
    if v.Obj? then Obj(v.fields[key := x]) else v
  }

  function AsString(v: Value): Option<string> {
    if v.Str? then Some(v.s) else None
  }

  function AsArray(v: Value): Option<seq<Value>> {
    if v.Arr? then Some(v.items) else None
  }

  function StringOr(v: Value, default: string): string {
    if v.Str? then v.s else default
  }

  function Digit(d: nat): char
    requires d < 10
  {
    "0123456789"[d]
  }

  function Decimal(n: int): (s: string)
    ensures s != ""
    decreases n < 0, if n < 0 then -n else n
  {
    if n < 0 then "-" + Decimal(-n)
    else if n < 10 then [Digit(n)]
    else Decimal(n / 10) + [Digit(n % 10)]
  }

  /** An identifier may arrive as a string or as a number; anything else reads as empty. */
  function CoerceId(v: Value): string {
    match v
    case Str(s) => s
    case Int(n) => Decimal(n)
    case _ => ""
  }

  /** A row of numbers; entries that are not numbers are dropped. */
  function Numbers(items: seq<Value>): seq<real> {
    if items == [] then []
    else (match items[0]
          case Int(n) => [n as real]
          case Float(r) => [r]
          case _ => []) + Numbers(items[1..])
  }

  function Row(v: Value): seq<real> {
    if v.Arr? then Numbers(v.items) else []
  }

  function RowValue(row: seq<real>): Value {
    Arr(seq(|row|, i requires 0 <= i < |row| => Float(row[i])))
  }

  /** Writing a row as JSON and reading it back loses nothing. */
  lemma {:induction false} RowRoundTrip(row: seq<real>)
    ensures Row(RowValue(row)) == row
    decreases |row|
  {
    if row != [] {
      RowRoundTrip(row[1..]);
      assert RowValue(row).items[1..] == RowValue(row[1..]).items;
    }
  }

  /** Whatever a row is given, its numbers are read in order, whole ones included, and nothing else is. */
  lemma {:induction false} NumbersAreRead(items: seq<Value>, v: Value)
    ensures Row(Arr(items + [v]))
         == Row(Arr(items)) + if v.Int? then [v.n as real] else if v.Float? then [v.r] else []
    ensures Row(Arr([])) == []
    decreases |items|
  {
    if items == [] {
      assert items + [v] == [v] && [v][1..] == [];
    } else {
      assert (items + [v])[1..] == items[1..] + [v];
      NumbersAreRead(items[1..], v);
      NumbersConcat(items[0], items[1..], v);
      assert items == [items[0]] + items[1..] && items + [v] == [items[0]] + (items[1..] + [v]);
    }
  }

  lemma NumbersConcat(first: Value, rest: seq<Value>, v: Value)
    requires Numbers(rest + [v]) == Numbers(rest) + if v.Int? then [v.n as real] else if v.Float? then [v.r] else []
    ensures Numbers([first] + (rest + [v]))
         == Numbers([first] + rest) + if v.Int? then [v.n as real] else if v.Float? then [v.r] else []
  {
    assert ([first] + (rest + [v]))[1..] == rest + [v] && ([first] + rest)[1..] == rest;
  }

  // ---------- numbers as identifiers ----------

  /** The number that some digits stand for. */
  function ReadDigits(s: string): int {
    if s == "" then 0 else 10 * ReadDigits(s[..|s| - 1]) + (s[|s| - 1] as int - '0' as int)
  }

  function ReadDecimal(s: string): int {
    if s != "" && s[0] == '-' then -ReadDigits(s[1..]) else ReadDigits(s)
  }

  lemma DigitIsRead(n: nat)
    requires n < 10
    ensures Digit(n) as int - '0' as int == n
  {
  }

  lemma {:induction false} DigitsAreRead(n: nat)
    ensures ReadDigits(Decimal(n)) == n && Decimal(n)[0] != '-'
    decreases n
  {
    if n < 10 {
      DigitIsRead(n);
      assert [Digit(n)][..0] == "";
    } else {
      DigitsAreRead(n / 10);
      DigitIsRead(n % 10);
      assert Decimal(n)[..|Decimal(n)| - 1] == Decimal(n / 10);
    }
  }

  /** A number is written as the decimal that reads back as it, so different numbers name different things. */
  lemma NumbersAreKeptApart(n: int, m: int)
    ensures ReadDecimal(CoerceId(Int(n))) == n
    ensures CoerceId(Int(n)) == CoerceId(Int(m)) ==> n == m
    ensures CoerceId(Int(n)) != ""
  {
    NumberIsRead(n);
    NumberIsRead(m);
  }

  lemma NumberIsRead(n: int)
    ensures ReadDecimal(Decimal(n)) == n
  {
    DigitsAreRead(if n < 0 then -n else n);
    if n < 0 { MinusComesFirst(-n); }
    hide ReadDigits, Decimal;
  }

  lemma MinusComesFirst(m: int)
    requires m > 0
    ensures Decimal(-m) != "" && Decimal(-m)[0] == '-' && Decimal(-m)[1..] == Decimal(m)
  {
    assert Decimal(-m) == "-" + Decimal(m);
    hide Decimal;
  }
}
