/** The slice of Python 2 that the BitCollector core relies on: the values a
    module declaration can hold, the exceptions the core can raise, and the
    `str` operations (`str()`, `upper()`, `lower()`, `re.search` with a plain
    literal pattern) it applies to them. Strings are ASCII: `upper` and
    `lower` change only the letters a-z and A-Z. */
module Python {

  datatype Option<T> = None | Some(value: T)

  datatype Result<T> = Ok(value: T) | Err(error: PyError)

  datatype Outcome = Pass | Fail(error: PyError)

  /** The exceptions the modelled code can raise. */
  datatype PyError =
    | NotIterable                    // TypeError: a bool or int was iterated
    | NoIterItems                    // AttributeError: a str item has no iteritems()
    | NoUpper                        // AttributeError: upper() called on a bool or int
    | MissingAttribute(name: string) // AttributeError: attribute read before it was assigned
    | MissingKey(key: string)        // KeyError raised by a dict lookup
    | UndefinedName(name: string)    // NameError
    | ImportFailed(name: string)     // ImportError raised by an import statement

  /** A scalar value read from a module's configuration. */
  datatype Scalar = Str(s: string) | Bool(b: bool) | Int(i: int)

  /** A dict whose values are scalars, given by its items in iteration order. */
  type Dict = seq<(string, Scalar)>

  /** A value of a module declaration's top-level dict: a scalar, or the list
      of single-setting dicts that the key "parameters" carries. */
  datatype Value = Atom(x: Scalar) | DictList(dicts: seq<Dict>)

  /** A module declaration `{name: ..., parameters: [{k: v}, ...]}`, given by
      its items in iteration order. */
  type ModuleDict = seq<(string, Value)>

  /** The keys of a dict are pairwise distinct. */
  predicate DistinctKeys<V>(items: seq<(string, V)>)
  {
    forall i, j :: 0 <= i < j < |items| ==> items[i].0 != items[j].0
  }

  function DigitChar(d: nat): (c: char)
    requires d < 10
    ensures '0' <= c <= '9'
  {
    ('0' as int + d) as char
  }

  /** The value of one decimal digit character. */
  function DigitValue(c: char): int
  {
    c as int - '0' as int
  }

  /** The value of a decimal digit string, read most significant digit first,
      as Python's `int()` reads it. */
  function DecimalValue(s: string): int
  {
    if s == [] then 0 else 10 * DecimalValue(s[..|s| - 1]) + DigitValue(s[|s| - 1])
  }

  /** Decimal digits of a natural number, most significant first. */
  function NatDigits(n: nat): (r: string)
    ensures |r| > 0
    ensures forall k :: 0 <= k < |r| ==> '0' <= r[k] <= '9'
    decreases n
  {
    if n < 10 then [DigitChar(n)] else NatDigits(n / 10) + [DigitChar(n % 10)]
  }

  /** Reading the digits of `n` back gives `n`, and they have no leading
      zero unless `n` is zero. */
  lemma {:induction false} NatDigitsValue(n: nat)
    ensures DecimalValue(NatDigits(n)) == n
    ensures NatDigits(n)[0] == '0' ==> n == 0
    decreases n
  {
    var r := NatDigits(n);
    if n >= 10 {
      NatDigitsValue(n / 10);
      assert r[..|r| - 1] == NatDigits(n / 10);
      assert r[0] == NatDigits(n / 10)[0];
    }
  }

  /** `s` is decimal text as `str()` writes a natural number: one or more
      digits, with no leading zero unless it is the single digit '0'. */
  predicate CanonicalDecimal(s: string)
  {
    |s| > 0 && (forall k :: 0 <= k < |s| ==> '0' <= s[k] <= '9') && (s[0] == '0' ==> |s| == 1)
  }

  /** Digit text reads back as a natural number, and a positive one when it
      starts with a nonzero digit. */
  lemma {:induction false} DecimalValueBounds(s: string)
    requires forall k :: 0 <= k < |s| ==> '0' <= s[k] <= '9'
    ensures DecimalValue(s) >= 0
    ensures |s| > 0 && s[0] != '0' ==> DecimalValue(s) >= 1
  {
    if s != [] {
      var p := s[..|s| - 1];
      DecimalValueBounds(p);
      if |p| > 0 {
        assert p[0] == s[0];
      }
    }
  }

  /** At most one canonical decimal text reads as `n`: it is `NatDigits(n)`. */
  lemma {:induction false} CanonicalDecimalUnique(s: string, n: nat)
    requires CanonicalDecimal(s) && DecimalValue(s) == n
    ensures s == NatDigits(n)
    decreases |s|
  {
    var p := s[..|s| - 1];
    DecimalValueBounds(p);
    if |s| == 1 {
      assert DecimalValue(p) == 0;
      assert s == [DigitChar(n)];
    } else {
      assert p[0] == s[0];
      var v := DecimalValue(p);
      assert n / 10 == v && n % 10 == DigitValue(s[|s| - 1]);
      CanonicalDecimalUnique(p, v);
      assert s == p + [s[|s| - 1]];
      assert s[|s| - 1] == DigitChar(n % 10);
    }
  }

  /** `str()` of an int is its decimal text: the canonical digits of its
      absolute value, after a '-' exactly when it is negative. By
      `CanonicalDecimalUnique` these facts determine the text. */
  lemma StrOfInt(i: int)
    ensures var r := StrOf(Int(i));
      && (i >= 0 ==> CanonicalDecimal(r) && DecimalValue(r) == i)
      && (i < 0 ==> r[0] == '-' && CanonicalDecimal(r[1..]) && DecimalValue(r[1..]) == -i && r[1] != '0')
  {
    if i >= 0 {
      NatDigitsValue(i);
    } else {
      NatDigitsValue(-i);
      assert StrOf(Int(i))[1..] == NatDigits(-i);
    }
  }

  /** Python's `str(x)`. */
  function StrOf(x: Scalar): (r: string)
    ensures x.Str? ==> r == x.s
    ensures x.Bool? ==> r == (if x.b then "True" else "False")
    ensures x.Int? ==> |r| > 0 && (r[0] == '-' <==> x.i < 0)
  {
    match x
    case Str(s) => s
    case Bool(b) => if b then "True" else "False"
    case Int(i) => if i < 0 then "-" + NatDigits(-i) else NatDigits(i)
  }

  function UpperChar(c: char): char
  {
    if 'a' <= c <= 'z' then (c as int - 32) as char else c
  }

  function LowerChar(c: char): char
  {
    if 'A' <= c <= 'Z' then (c as int + 32) as char else c
  }

  /** Python's `s.upper()` on ASCII text. */
  function Upper(s: string): (r: string)
    ensures |r| == |s|
    ensures forall i :: 0 <= i < |s| ==> r[i] == UpperChar(s[i])
  {
    if s == [] then [] else [UpperChar(s[0])] + Upper(s[1..])
  }

  /** Python's `s.lower()` on ASCII text. */
  function Lower(s: string): (r: string)
    ensures |r| == |s|
    ensures forall i :: 0 <= i < |s| ==> r[i] == LowerChar(s[i])
  {
    if s == [] then [] else [LowerChar(s[0])] + Lower(s[1..])
  }

  /** Upper-casing a string twice is upper-casing it once. */
  lemma UpperIdempotent(s: string)
    ensures Upper(Upper(s)) == Upper(s)
  {
    var u := Upper(s);
    assert forall i :: 0 <= i < |u| ==> Upper(u)[i] == u[i];
  }

  /** Lower-casing first does not change what upper-casing yields. */
  lemma UpperOfLower(s: string)
    ensures Upper(Lower(s)) == Upper(s)
  {
    var l := Lower(s);
    assert forall i :: 0 <= i < |s| ==> Upper(l)[i] == Upper(s)[i];
  }

  /** `pat` occurs in `s` starting at index `i`. */
  predicate OccursAt(s: string, pat: string, i: nat)
  {
    i + |pat| <= |s| && s[i..i + |pat|] == pat
  }

  /** `re.search(pat, s)` finds a match, for a pattern without special
      characters: a left-to-right scan for `pat` in `s`. */
  predicate Contains(s: string, pat: string)
    decreases |s|
  {
    if |s| < |pat| then false
    else s[..|pat|] == pat || Contains(s[1..], pat)
  }

  /** The scan finds `pat` exactly when `pat` occurs somewhere in `s`. */
  lemma {:induction false} ContainsIffOccurs(s: string, pat: string)
    ensures Contains(s, pat) <==> exists i: nat :: OccursAt(s, pat, i)
    decreases |s|
  {
    if |s| < |pat| {
      assert forall i: nat :: !OccursAt(s, pat, i);
    } else if s[..|pat|] == pat {
      assert OccursAt(s, pat, 0);
    } else {
      ContainsIffOccurs(s[1..], pat);
      if Contains(s[1..], pat) {
        var i: nat :| OccursAt(s[1..], pat, i);
        assert s[1..][i..i + |pat|] == s[i + 1..i + 1 + |pat|];
        assert OccursAt(s, pat, i + 1);
      } else {
        forall i: nat | OccursAt(s, pat, i)
          ensures false
        {
          assert i != 0;
          assert s[1..][i - 1..i - 1 + |pat|] == s[i..i + |pat|];
          assert OccursAt(s[1..], pat, i - 1);
        }
      }
    }
  }
}
