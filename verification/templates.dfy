/**
 * Message templates of the smtp action and their rendering.
 *
 * A template of the action is a Python string using named `%` placeholders:
 * `%(key)s` (any value, written with `str`) and `%(key)i` (an integer, written
 * in decimal). Here a template is a sequence of pieces, each either literal
 * text or a named placeholder, and rendering substitutes the placeholders
 * from a map, failing the way Python's `%` operator fails.
 */
module Templates {

  /** The values a message map holds: strings (jail name, host name, address,
      match lines) and integers (ban time, failure count). */
  datatype Value = Str(s: string) | Int(i: int)

  /** The two conversions the templates use: `%(key)s` and `%(key)i`. */
  datatype Conversion = AsString | AsInteger

  datatype Piece = Lit(text: string) | Field(key: string, conv: Conversion)

  type Template = seq<Piece>

  /** Python's `%` with a mapping raises KeyError for a missing key and
      TypeError when `%i` meets a string. */
  datatype FormatError = MissingKey(key: string) | NotANumber(key: string)

  datatype Result<T> = Ok(value: T) | Err(error: FormatError)

  /** The first error wins, as in a left-to-right evaluation. */
  function Then(a: Result<string>, b: Result<string>): Result<string>
  {
    if a.Err? then a
    else if b.Err? then b
    else Ok(a.value + b.value)
  }

  // ---------------------------------------------------------------------
  // Decimal numerals, as `str(n)` and `%i` write an integer

  function DigitChar(d: nat): (c: char)
    requires d < 10
    ensures '0' <= c <= '9'
  {
    "0123456789"[d]
  }

  function DigitValue(c: char): nat
    requires '0' <= c <= '9'
  {
    c as nat - '0' as nat
  }

  /** The decimal numeral of a natural number, with no leading zero. */
  function Digits(n: nat): (s: string)
    ensures |s| >= 1
    ensures forall k :: 0 <= k < |s| ==> '0' <= s[k] <= '9'
    decreases n
  {
    if n < 10 then [DigitChar(n)] else Digits(n / 10) + [DigitChar(n % 10)]
  }

  /** The value a string of decimal digits denotes. */
  function DigitsValue(s: string): nat
    requires forall k :: 0 <= k < |s| ==> '0' <= s[k] <= '9'
  {
    if s == [] then 0 else DigitsValue(s[..|s| - 1]) * 10 + DigitValue(s[|s| - 1])
  }

  /** How `%i` and `%s` write an integer: an optional minus sign, then digits. */
  function Decimal(n: int): string
  {
    if n < 0 then "-" + Digits(-n) else Digits(n)
  }

  /** Reading the digits back gives the number: the numeral names its value. */
  lemma {:induction false} DigitsRoundTrip(n: nat)
    ensures DigitsValue(Digits(n)) == n
    decreases n
  {
    var s := Digits(n);
    if n >= 10 {
      DigitsRoundTrip(n / 10);
      assert s[..|s| - 1] == Digits(n / 10);
      assert DigitValue(DigitChar(n % 10)) == n % 10;
    } else {
      assert DigitValue(DigitChar(n)) == n;
    }
  }

  /** Different integers are written differently. */
  lemma DecimalInjective(m: int, n: int)
    requires Decimal(m) == Decimal(n)
    ensures m == n
  {
    NotDigitsSign(m);
    NotDigitsSign(n);
    if m < 0 {
      var d := Decimal(m);
      assert Digits(-m) == d[1..] == Digits(-n);
      DigitsInjective(-m, -n);
    } else {
      DigitsInjective(m, n);
    }
  }

  lemma DigitsInjective(a: nat, b: nat)
    requires Digits(a) == Digits(b)
    ensures a == b
  {
    DigitsRoundTrip(a);
    DigitsRoundTrip(b);
  }

  /** A numeral starts with a minus sign exactly when the number is negative. */
  lemma NotDigitsSign(n: int)
    ensures (Decimal(n)[0] == '-') == (n < 0)
  {
    if n >= 0 {
      var s := Digits(n);
      assert '0' <= s[0] <= '9';
    }
  }

  // ---------------------------------------------------------------------
  // Rendering

  /** A placeholder can be filled from `values`: its key is present, and a
      `%i` placeholder finds an integer there. */
  predicate Fillable(p: Piece, values: map<string, Value>)
  {
    p.Field? ==> p.key in values && (p.conv == AsInteger ==> values[p.key].Int?)
  }

  /** Every placeholder of `t` can be filled from `values`. */
  predicate Resolvable(t: Template, values: map<string, Value>)
  {
    forall p :: p in t ==> Fillable(p, values)
  }

  /** The keys the placeholders of `t` name. */
  function Keys(t: Template): set<string>
  {
    set p | p in t && p.Field? :: p.key
  }

  function RenderPiece(p: Piece, values: map<string, Value>): (r: Result<string>)
    ensures r.Ok? <==> Fillable(p, values)
    ensures p.Lit? ==> r == Ok(p.text)
    ensures r.Err? ==> p.Field? && r.error.key == p.key
    ensures r.Err? ==> r.error == if p.key !in values then MissingKey(p.key) else NotANumber(p.key)
  {
    match p
    case Lit(text) => Ok(text)
    case Field(key, conv) =>
      if key !in values then Err(MissingKey(key))
      else match values[key]
        case Str(s) => if conv == AsInteger then Err(NotANumber(key)) else Ok(s)
        case Int(i) => Ok(Decimal(i))
  }

  /** `template % values`: the pieces rendered left to right and joined. It
      succeeds exactly when every placeholder can be filled, and a failure
      names a key that the template uses. */
  function Render(t: Template, values: map<string, Value>): (r: Result<string>)
    ensures r.Ok? <==> Resolvable(t, values)
    ensures r.Err? ==> r.error.key in Keys(t)
    ensures r.Err? ==> r.error == if r.error.key !in values then MissingKey(r.error.key) else NotANumber(r.error.key)
  {
    if t == [] then Ok("")
    else
      assert forall p :: p in t[1..] ==> p in t;
      Then(RenderPiece(t[0], values), Render(t[1..], values))
  }

  lemma ThenAssociative(a: Result<string>, b: Result<string>, c: Result<string>)
    ensures Then(Then(a, b), c) == Then(a, Then(b, c))
  {
    if a.Ok? && b.Ok? && c.Ok? {
      assert (a.value + b.value) + c.value == a.value + (b.value + c.value);
    }
  }

  /** Rendering a concatenation is rendering each part, the first error winning:
      joining the raw templates first, as `ban` does, changes nothing. */
  lemma {:induction false} RenderAppend(t1: Template, t2: Template, values: map<string, Value>)
    ensures Render(t1 + t2, values) == Then(Render(t1, values), Render(t2, values))
  {
    if t1 == [] {
      assert t1 + t2 == t2;
      var r2 := Render(t2, values);
      assert r2.Ok? ==> "" + r2.value == r2.value;
    } else {
      assert (t1 + t2)[0] == t1[0];
      assert (t1 + t2)[1..] == t1[1..] + t2;
      RenderAppend(t1[1..], t2, values);
      ThenAssociative(RenderPiece(t1[0], values), Render(t1[1..], values), Render(t2, values));
    }
  }

  /** Only the keys a template names matter to its rendering. */
  lemma {:induction false} RenderDependsOnKeys(t: Template, v1: map<string, Value>, v2: map<string, Value>)
    requires forall key :: key in Keys(t) ==> (key in v1 <==> key in v2)
    requires forall key :: key in Keys(t) && key in v1 ==> v1[key] == v2[key]
    ensures Render(t, v1) == Render(t, v2)
  {
    if t != [] {
      assert t[0] in t;
      assert forall p :: p in t[1..] ==> p in t;
      RenderDependsOnKeys(t[1..], v1, v2);
    }
  }
}
