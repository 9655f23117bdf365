/** The values the program handles: scalar cells of the downloaded table, JSON
    values of the configuration document, records, and the small part of
    Python's semantics the core relies on (str(), truthiness, hashability,
    dict.get with a default). */
module Values {
  import opened Wrappers

  /** A scalar: a table cell or a JSON leaf. `Null` is Python's None, `NaN` the
      float pandas puts into an empty cell. Other floats are not modelled. */
  datatype Scalar = Str(s: string) | Int(n: int) | Bool(b: bool) | Null | NaN

  /** A JSON value as `json.load` returns it. */
  datatype Json = Atom(scalar: Scalar) | Array(items: seq<Json>) | Object(members: map<string, Json>)

  /** One column of a record, in the table's column order. */
  datatype Field = Field(name: string, value: Scalar)

  /** A record: `DataFrame.to_dict('records')` gives one per row, fields in column order. */
  type Record = seq<Field>

  /** `json.dumps(record)`: the serialized text is kept abstract; it determines the record. */
  datatype Ser = Dumps(record: Record)

  const EmptyObject: Json := Object(map[])

  /** `record.get(name)`: the value of the first field called `name`. */
  function Get(r: Record, name: string): (v: Option<Scalar>)
    ensures v.None? <==> forall i :: 0 <= i < |r| ==> r[i].name != name
    ensures v.Some? ==> exists i :: 0 <= i < |r| && r[i] == Field(name, v.value)
  {
    if r == [] then None
    else if r[0].name == name then Some(r[0].value)
    else
      Get(r[1..], name)
  }

  /** `m.get(key, default)` on a JSON object. */
  function GetOr(m: map<string, Json>, key: string, default: Json): (r: Json)
    ensures key in m ==> r == m[key]
    ensures key !in m ==> r == default
  {
    if key in m then m[key] else default
  }

  // ---- decimal text of integers, as Python's str() writes it ----

  predicate IsDigit(c: char) { '0' <= c <= '9' }

  predicate AllDigits(s: string) { forall i :: 0 <= i < |s| ==> IsDigit(s[i]) }

  function DigitChar(d: nat): (c: char)
    requires d < 10
    ensures IsDigit(c)
  {
    ('0' as int + d) as char
  }

  function DigitValue(c: char): nat
    requires IsDigit(c)
  {
    (c as int - '0' as int) as nat
  }

  /** The decimal digits of `n`, most significant first, without leading zeros. */
  function Digits(n: nat): (s: string)
    ensures |s| >= 1 && AllDigits(s)
  {
    if n < 10 then [DigitChar(n)] else Digits(n / 10) + [DigitChar(n % 10)]
  }

  /** Reads a string of decimal digits back as a number. */
  function ParseDigits(s: string): (n: nat)
    requires AllDigits(s)
  {
    if s == [] then 0 else ParseDigits(s[..|s| - 1]) * 10 + DigitValue(s[|s| - 1])
  }

  lemma {:induction false} ParseDigitsOfDigits(n: nat)
    ensures ParseDigits(Digits(n)) == n
  {
    var s := Digits(n);
    if n >= 10 {
      ParseDigitsOfDigits(n / 10);
      assert s[..|s| - 1] == Digits(n / 10);
    }
  }

  /** `str(i)` for a Python int. */
  function IntText(i: int): string
  {
    if i < 0 then "-" + Digits(-i) else Digits(i)
  }

  /** The text of an integer starts with a minus sign exactly when the integer is negative. */
  lemma IntTextSign(i: int)
    ensures |IntText(i)| >= 1 && (IntText(i)[0] == '-' <==> i < 0)
  {
    if i >= 0 {
      assert IsDigit(Digits(i)[0]);
    }
  }

  /** Two naturals with the same digits are equal. */
  lemma DigitsInjective(m: nat, n: nat)
    requires Digits(m) == Digits(n)
    ensures m == n
  {
    ParseDigitsOfDigits(m);
    ParseDigitsOfDigits(n);
  }

  /** Two integers with the same decimal text are equal. */
  lemma {:induction false} IntTextInjective(a: int, b: int)
    requires IntText(a) == IntText(b)
    ensures a == b
  {
    IntTextSign(a);
    IntTextSign(b);
    if a < 0 {
      var t := IntText(a);
      assert t[1..] == Digits(-a);
      assert t[1..] == Digits(-b);
      DigitsInjective(-a, -b);
    } else {
      DigitsInjective(a, b);
    }
  }

  /** `str(v)` (equivalently `f"{v}"`) for a scalar. */
  function Show(v: Scalar): string
  {
    match v
    case Str(s) => s
    case Int(n) => IntText(n)
    case Bool(b) => if b then "True" else "False"
    case Null => "None"
    case NaN => "nan"
  }

  /** Values of the same kind print alike only when they are equal. */
  lemma ShowInjectiveWithinKind(a: Scalar, b: Scalar)
    requires (a.Str? && b.Str?) || (a.Int? && b.Int?) || (a.Bool? && b.Bool?) || (a.Null? && b.Null?) || (a.NaN? && b.NaN?)
    requires Show(a) == Show(b)
    ensures a == b
  {
    if a.Int? {
      IntTextInjective(a.n, b.n);
    }
  }

  /** Across kinds the text loses the type: an int, None, NaN or a bool prints
      exactly like a particular string. */
  lemma ShowLosesKind()
    ensures Show(Int(1)) == Show(Str("1"))
    ensures Show(Int(-7)) == Show(Str("-7"))
    ensures Show(Null) == Show(Str("None"))
    ensures Show(NaN) == Show(Str("nan"))
    ensures Show(Bool(true)) == Show(Str("True"))
  {
    assert Digits(1) == "1";
    assert Digits(7) == "7";
  }

  /** `str(j)` for a JSON value; exact for leaves only (containers get a fixed text). */
  function ShowJson(j: Json): string
  {
    match j
    case Atom(a) => Show(a)
    case Array(_) => "[...]"
    case Object(_) => "{...}"
  }

  /** Python's truthiness of a JSON value: None, False, 0, "" and empty containers are false; NaN is true. */
  predicate Truthy(j: Json)
  {
    match j
    case Atom(Str(s)) => s != ""
    case Atom(Int(n)) => n != 0
    case Atom(Bool(b)) => b
    case Atom(Null) => false
    case Atom(NaN) => true
    case Array(xs) => xs != []
    case Object(m) => m != map[]
  }

  /** Exactly six values are falsy, whatever the document holds; every other
      string, number, NaN included, and every non-empty container is truthy. */
  lemma FalsyExactly(j: Json)
    ensures !Truthy(j) <==>
              j == Atom(Null) || j == Atom(Str("")) || j == Atom(Int(0)) || j == Atom(Bool(false)) ||
              j == Array([]) || j == Object(map[])
  {
  }

  /** Lists and dicts cannot be dictionary keys. */
  predicate Hashable(j: Json)
  {
    j.Atom?
  }
}
