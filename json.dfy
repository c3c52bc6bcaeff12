/** A parsed JSON document, and the read-only queries the pointer-based
    deserialiser uses: object member lookup as a parsed map sees it, JSON
    pointer evaluation with array indices, and the `as_str`/`as_f64`
    conversions. */
module Json {
  import opened Results

  /** A JSON number as the parser keeps it: an integer literal, or one
      written with a fraction or an exponent. */
  datatype Number = Int(whole: int) | Frac(frac: real)

  datatype Json =
    | Null
    | Bool(truth: bool)
    | Num(num: Number)
    | Str(str: string)
    | Arr(items: seq<Json>)
    | Obj(members: seq<(string, Json)>)   // in document order, duplicates kept

  /** The values bound to `key` in `m`, in document order. */
  function Occurrences(m: seq<(string, Json)>, key: string): seq<Json>
  {
    if m == [] then []
    else
      var last := m[|m| - 1];
      Occurrences(m[..|m| - 1], key) + (if last.0 == key then [last.1] else [])
  }

  lemma {:induction false} OccurrencesAreBindings(m: seq<(string, Json)>, key: string)
    ensures forall x :: x in Occurrences(m, key) <==> (key, x) in m
  {
    if m != [] {
      OccurrencesAreBindings(m[..|m| - 1], key);
      assert m == m[..|m| - 1] + [m[|m| - 1]];
    }
  }

  /** Appending a member binds it last; other keys keep their values. */
  lemma OccurrencesAppend(m: seq<(string, Json)>, p: (string, Json), key: string)
    ensures Occurrences(m + [p], key) == Occurrences(m, key) + (if p.0 == key then [p.1] else [])
  {
    assert (m + [p])[..|m|] == m;
  }

  /** A member whose key is not `key` does not take part in its lookup,
      wherever it sits in the object. */
  lemma {:induction false} OccurrencesSkip(m1: seq<(string, Json)>, p: (string, Json), m2: seq<(string, Json)>, key: string)
    requires p.0 != key
    ensures Occurrences(m1 + [p] + m2, key) == Occurrences(m1 + m2, key)
  {
    if m2 == [] {
      assert m1 + [p] + m2 == m1 + [p];
      assert m1 + m2 == m1;
      OccurrencesAppend(m1, p, key);
    } else {
      var q := m2[|m2| - 1];
      var init := m2[..|m2| - 1];
      OccurrencesSkip(m1, p, init, key);
      assert m1 + [p] + m2 == (m1 + [p] + init) + [q];
      assert m1 + m2 == (m1 + init) + [q];
      OccurrencesAppend(m1 + [p] + init, q, key);
      OccurrencesAppend(m1 + init, q, key);
    }
  }

  /** Member lookup in a parsed object. The parser stores members in a map,
      so when a key occurs more than once the last binding is the one kept. */
  function Lookup(m: seq<(string, Json)>, key: string): (r: Option<Json>)
    ensures r.None? <==> forall i | 0 <= i < |m| :: m[i].0 != key
    ensures r.Some? ==> (key, r.value) in m
  {
    OccurrencesAreBindings(m, key);
    var vs := Occurrences(m, key);
    if |vs| == 0 then
      assert forall i | 0 <= i < |m| :: m[i].0 != key by {
        forall i | 0 <= i < |m| ensures m[i] in m { }
      }
      None
    else
      assert vs[|vs| - 1] in vs;
      Some(vs[|vs| - 1])
  }

  /** The binding after which no other member has the same key is the one
      lookup returns. */
  lemma {:induction false} GetIsLastBinding(m: seq<(string, Json)>, key: string, i: nat)
    requires i < |m| && m[i].0 == key
    requires forall j | i < j < |m| :: m[j].0 != key
    ensures Lookup(m, key) == Some(m[i].1)
  {
    var init := m[..|m| - 1];
    assert m == init + [m[|m| - 1]];
    OccurrencesAppend(init, m[|m| - 1], key);
    if i < |m| - 1 {
      GetIsLastBinding(init, key, i);
    }
  }

  /** A later binding of a key overrides every earlier one. */
  lemma LaterBindingWins(m: seq<(string, Json)>, key: string, x: Json)
    ensures Lookup(m + [(key, x)], key) == Some(x)
  {
    GetIsLastBinding(m + [(key, x)], key, |m|);
  }

  predicate IsDigit(c: char) { '0' <= c <= '9' }

  predicate AllDigits(s: string) { forall i | 0 <= i < |s| :: IsDigit(s[i]) }

  function DigitValue(c: char): nat
    requires IsDigit(c)
  {
    c as int - '0' as int
  }

  function DigitChar(d: nat): (c: char)
    requires d < 10
    ensures IsDigit(c) && DigitValue(c) == d
  {
    ('0' as int + d) as char
  }

  /** The value of a string of decimal digits. */
  function DecimalValue(s: string): nat
    requires AllDigits(s)
  {
    if s == [] then 0 else DecimalValue(s[..|s| - 1]) * 10 + DigitValue(s[|s| - 1])
  }

  /** One more than the largest array index on a 64-bit target. */
  const INDEX_LIMIT: nat := 0x1_0000_0000_0000_0000

  /** How a pointer token becomes an array index: decimal digits only, no
      sign, no leading zero, and within the machine's index range. */
  function ParseIndex(token: string): (r: Option<nat>)
    ensures r.Some? ==> r.value < INDEX_LIMIT
  {
    if |token| == 0 || token[0] == '+' || (token[0] == '0' && |token| != 1) then None
    else if AllDigits(token) && DecimalValue(token) < INDEX_LIMIT then Some(DecimalValue(token))
    else None
  }

  /** The canonical decimal spelling of an index. */
  function ShowIndex(n: nat): (s: string)
    ensures |s| > 0 && AllDigits(s)
  {
    if n < 10 then [DigitChar(n)] else ShowIndex(n / 10) + [DigitChar(n % 10)]
  }

  lemma {:induction false} ShowIndexValue(n: nat)
    ensures DecimalValue(ShowIndex(n)) == n
    ensures ShowIndex(n)[0] != '0' || n == 0
  {
    var s := ShowIndex(n);
    if n >= 10 {
      ShowIndexValue(n / 10);
      assert s[..|s| - 1] == ShowIndex(n / 10);
    }
  }

  lemma {:induction false} DecimalValueAtLeastLead(s: string)
    requires |s| > 0 && AllDigits(s)
    ensures DecimalValue(s) >= DigitValue(s[0])
  {
    if |s| > 1 {
      var init := s[..|s| - 1];
      assert init[0] == s[0];
      DecimalValueAtLeastLead(init);
    }
  }

  lemma {:induction false} ShowDecimalValue(s: string)
    requires |s| > 0 && AllDigits(s) && (s[0] != '0' || |s| == 1)
    ensures ShowIndex(DecimalValue(s)) == s
  {
    if |s| > 1 {
      var init := s[..|s| - 1];
      assert init[0] == s[0];
      DecimalValueAtLeastLead(init);
      ShowDecimalValue(init);
      assert s == init + [s[|s| - 1]];
    }
  }

  /** A token is read as an index exactly when it is the canonical decimal
      spelling of an index in range. */
  lemma ParseIndexIsCanonical(token: string, n: nat)
    ensures ParseIndex(token) == Some(n) <==> n < INDEX_LIMIT && token == ShowIndex(n)
  {
    if ParseIndex(token) == Some(n) {
      ShowDecimalValue(token);
    }
    if n < INDEX_LIMIT && token == ShowIndex(n) {
      ShowIndexValue(n);
    }
  }

  /** A token that does not start with a digit is never an index (so object
      keys such as "location" cannot select an array element). */
  lemma ParseWordIsNotIndex(token: string)
    requires |token| > 0 && !IsDigit(token[0])
    ensures ParseIndex(token) == None
  {
  }

  /** One reference step of a JSON pointer: a key for an object, an index
      for an array, and nothing for any other value. */
  function Step(v: Json, token: string): (r: Option<Json>)
    ensures r.Some? ==> v.Obj? || v.Arr?
  {
    match v
    case Obj(m) => Lookup(m, token)
    case Arr(a) =>
      (match ParseIndex(token)
       case Some(i) => if i < |a| then Some(a[i]) else None
       case None => None)
    case _ => None
  }

  /** Evaluate a pointer given as its reference tokens: "/a/b/0" is
      ["a", "b", "0"]. */
  function Pointer(v: Json, tokens: seq<string>): (r: Option<Json>)
    ensures r.Some? && tokens != [] ==> v.Obj? || v.Arr?
    decreases |tokens|
  {
    if tokens == [] then Some(v)
    else
      match Step(v, tokens[0])
      case None => None
      case Some(child) => Pointer(child, tokens[1..])
  }

  /** Following a path in two parts is following the whole path. */
  lemma {:induction false} PointerConcat(v: Json, a: seq<string>, b: seq<string>)
    ensures Pointer(v, a + b) == match Pointer(v, a) case None => None case Some(u) => Pointer(u, b)
    decreases |a|
  {
    if a == [] {
      assert a + b == b;
    } else {
      assert (a + b)[0] == a[0];
      assert (a + b)[1..] == a[1..] + b;
      match Step(v, a[0])
      case None =>
      case Some(child) => PointerConcat(child, a[1..], b);
    }
  }

  /** A key that does not start with a digit selects only an object member. */
  lemma PointerKeyStep(v: Json, key: string, rest: seq<string>)
    requires |key| > 0 && !IsDigit(key[0])
    ensures Pointer(v, [key] + rest)
         == if v.Obj? then (match Lookup(v.members, key) case None => None case Some(c) => Pointer(c, rest))
            else None
  {
    assert ([key] + rest)[0] == key;
    assert ([key] + rest)[1..] == rest;
  }

  function AsStr(v: Json): (r: Option<string>)
    ensures r.Some? <==> v.Str?
    ensures r.Some? ==> v == Str(r.value)
  {
    if v.Str? then Some(v.str) else None
  }

  /** Every JSON number reads as a number, integer or not. */
  function AsF64(v: Json): (r: Option<real>)
    ensures r.Some? <==> v.Num?
    ensures v.Num? && v.num.Int? ==> r == Some(v.num.whole as real)
    ensures v.Num? && v.num.Frac? ==> r == Some(v.num.frac)
  {
    match v
    case Num(Int(i)) => Some(i as real)
    case Num(Frac(x)) => Some(x)
    case _ => None
  }
}
