/** The value coercion of the change-config handler: every submitted form value
    is tried as an integer first, then as one of the literals "false"/"true",
    and is otherwise kept as the string it was. */
module Coercion {

  import opened Wrappers

  /** A config value: what the handler stores for one form entry. */
  datatype ConfigValue = Int(i: int) | Bool(b: bool) | Str(s: string)

  /** A configuration: a dictionary from form keys to coerced values. */
  type Config = map<string, ConfigValue>

  /** The pairs the form hands to the handler's loop, in iteration order. */
  type FormItems = seq<(string, string)>

  // ---------------------------------------------------------------------------
  // Integer recognition (Python's int() on a str, simplified)
  // ---------------------------------------------------------------------------

  predicate IsDigit(c: char) {
    '0' <= c <= '9'
  }

  predicate AllDigits(s: string) {
    forall i :: 0 <= i < |s| ==> IsDigit(s[i])
  }

  /** The value of a run of decimal digits, most significant first. */
  function DigitsValue(s: string): nat
    requires AllDigits(s)
    decreases |s|
  {
    if s == [] then 0
    else DigitsValue(s[..|s| - 1]) * 10 + (s[|s| - 1] as int - '0' as int)
  }

  /** The integer `int(s)` yields, or None where it raises ValueError: an optional
      sign followed by at least one decimal digit. */
  function ParseInt(s: string): (r: Option<int>)
    ensures r.Some? ==> |s| > 0 && (IsDigit(s[0]) || s[0] == '-' || s[0] == '+')
    ensures r.Some? && r.value < 0 ==> s[0] == '-'
    ensures r.Some? <==> |s| > 0 && (AllDigits(s) || (|s| > 1 && (s[0] == '-' || s[0] == '+') && AllDigits(s[1..])))
  {
    if |s| > 0 && AllDigits(s) then Some(DigitsValue(s))
    else if |s| > 1 && s[0] == '-' && AllDigits(s[1..]) then Some(-(DigitsValue(s[1..]) as int))
    else if |s| > 1 && s[0] == '+' && AllDigits(s[1..]) then Some(DigitsValue(s[1..]))
    else None
  }

  function DigitChar(d: nat): (c: char)
    requires d < 10
    ensures IsDigit(c) && c as int - '0' as int == d
  {
    (d + '0' as int) as char
  }

  /** The shortest decimal spelling of a natural number (Python's str on ints). */
  function NatString(n: nat): (s: string)
    ensures |s| > 0 && AllDigits(s)
    decreases n
  {
    if n < 10 then [DigitChar(n)] else NatString(n / 10) + [DigitChar(n % 10)]
  }

  /** The decimal spelling of any integer, with a '-' for negatives. */
  function DecimalString(n: int): (s: string)
    ensures |s| > 0
  {
    if n < 0 then "-" + NatString(-n) else NatString(n)
  }

  lemma {:induction false} DigitsValueOfNatString(n: nat)
    ensures DigitsValue(NatString(n)) == n
    decreases n
  {
    if n >= 10 {
      var s := NatString(n);
      assert s[..|s| - 1] == NatString(n / 10);
      DigitsValueOfNatString(n / 10);
    }
  }

  /** Every integer's decimal spelling is recognised as exactly that integer. */
  lemma ParseIntDecimal(n: int)
    ensures ParseInt(DecimalString(n)) == Some(n)
  {
    var s := DecimalString(n);
    if n < 0 {
      assert !IsDigit(s[0]);
      assert s[1..] == NatString(-n);
      DigitsValueOfNatString(-n);
    } else {
      DigitsValueOfNatString(n);
    }
  }

  /** Leading zeros do not change the value of a digit run, as with int("007"). */
  lemma {:induction false} LeadingZeroIgnored(s: string)
    requires AllDigits(s)
    ensures AllDigits("0" + s) && DigitsValue("0" + s) == DigitsValue(s)
    decreases |s|
  {
    var t := "0" + s;
    assert AllDigits(t) by {
      forall i | 0 <= i < |t| ensures IsDigit(t[i]) {
        if i > 0 { assert t[i] == s[i - 1]; }
      }
    }
    if s != [] {
      var p := s[..|s| - 1];
      assert t[..|t| - 1] == "0" + p;
      LeadingZeroIgnored(p);
    }
  }

  /** An unsigned digit run is read as its value. */
  lemma ParseIntDigits(s: string)
    requires s != [] && AllDigits(s)
    ensures ParseInt(s) == Some(DigitsValue(s))
  {
  }

  /** A '+' sign leaves the value of a digit run unchanged, as `int("+5") == 5`. */
  lemma ParseIntPlus(s: string)
    requires s != [] && AllDigits(s)
    ensures ParseInt("+" + s) == ParseInt(s)
  {
    var t := "+" + s;
    assert !IsDigit(t[0]);
    assert t[1..] == s;
  }

  /** A '-' sign negates the value of a digit run, as `int("-7") == -7`. */
  lemma ParseIntMinus(s: string)
    requires s != [] && AllDigits(s)
    ensures ParseInt("-" + s) == Some(-ParseInt(s).value)
  {
    var t := "-" + s;
    assert !IsDigit(t[0]);
    assert t[1..] == s;
  }

  /** A leading zero leaves the value unchanged, signed or not, as `int("-007") == -7`. */
  lemma ParseIntLeadingZero(s: string)
    requires s != [] && AllDigits(s)
    ensures ParseInt("0" + s) == ParseInt(s)
    ensures ParseInt("+0" + s) == ParseInt("+" + s)
    ensures ParseInt("-0" + s) == ParseInt("-" + s)
  {
    LeadingZeroIgnored(s);
    ParseIntPlus(s);
    ParseIntMinus(s);
    ParseIntPlus("0" + s);
    ParseIntMinus("0" + s);
    assert "+0" + s == "+" + ("0" + s);
    assert "-0" + s == "-" + ("0" + s);
  }

  // ---------------------------------------------------------------------------
  // Per-value coercion
  // ---------------------------------------------------------------------------

  /** The coercion of one form value: integer first, then the two boolean
      literals, otherwise the string itself. */
  function Coerce(v: string): (r: ConfigValue)
    ensures r.Int? <==> ParseInt(v).Some?
    ensures r.Int? ==> ParseInt(v) == Some(r.i)
    ensures r.Bool? ==> v == (if r.b then "true" else "false")
    ensures r.Str? ==> r.s == v && v != "true" && v != "false"
  {
    match ParseInt(v)
    case Some(n) => Int(n)
    case None =>
      if v == "false" then Bool(false)
      else if v == "true" then Bool(true)
      else Str(v)
  }

  /** Integers take precedence: every integer's spelling becomes that integer. */
  lemma CoerceDecimal(n: int)
    ensures Coerce(DecimalString(n)) == Int(n)
  {
    ParseIntDecimal(n);
  }

  /** Exactly the two lower-case literals become booleans. */
  lemma CoerceBooleanLiterals(v: string)
    ensures Coerce(v).Bool? <==> v == "true" || v == "false"
    ensures Coerce("true") == Bool(true) && Coerce("false") == Bool(false)
  {
  }

  // ---------------------------------------------------------------------------
  // The whole form
  // ---------------------------------------------------------------------------

  /** True when no key occurs twice, as for the pairs of a form's `items()`. */
  predicate DistinctKeys(items: FormItems) {
    forall i, j :: 0 <= i < j < |items| ==> items[i].0 != items[j].0
  }

  predicate HasKey(items: FormItems, key: string) {
    exists i :: 0 <= i < |items| && items[i].0 == key
  }

  /** The config the handler's loop builds, starting from an empty dictionary
      and assigning each coerced value in turn. */
  function CoerceForm(items: FormItems): (c: Config)
    ensures forall k :: k in c ==>
              exists i :: 0 <= i < |items| && items[i].0 == k && c[k] == Coerce(items[i].1)
    decreases |items|
  {
    if items == [] then map[]
    else
      var n := |items| - 1;
      var init := CoerceForm(items[..n]);
      var c := init[items[n].0 := Coerce(items[n].1)];
      assert forall k :: k in c ==>
               exists i :: 0 <= i < |items| && items[i].0 == k && c[k] == Coerce(items[i].1) by {
        forall k | k in c
          ensures exists i :: 0 <= i < |items| && items[i].0 == k && c[k] == Coerce(items[i].1)
        {
          if k != items[n].0 {
            var i :| 0 <= i < n && items[..n][i].0 == k && init[k] == Coerce(items[..n][i].1);
            assert items[i] == items[..n][i];
          }
        }
      }
      c
  }

  /** The config has exactly the form's keys: nothing is added or dropped. */
  lemma {:induction false} CoerceFormKeys(items: FormItems)
    ensures forall k :: k in CoerceForm(items) <==> HasKey(items, k)
    decreases |items|
  {
    if items != [] {
      var init := items[..|items| - 1];
      CoerceFormKeys(init);
      forall k ensures HasKey(items, k) <==> HasKey(init, k) || k == items[|items| - 1].0 {
        if HasKey(items, k) {
          var i :| 0 <= i < |items| && items[i].0 == k;
          if i < |items| - 1 { assert init[i] == items[i]; }
        }
        if HasKey(init, k) {
          var i :| 0 <= i < |init| && init[i].0 == k;
          assert items[i] == init[i];
        }
      }
    }
  }

  /** With distinct keys every entry of the form ends up coerced under its own key. */
  lemma {:induction false} CoerceFormValue(items: FormItems, i: nat)
    requires DistinctKeys(items)
    requires i < |items|
    ensures items[i].0 in CoerceForm(items)
    ensures CoerceForm(items)[items[i].0] == Coerce(items[i].1)
    decreases |items|
  {
    var n := |items| - 1;
    if i < n {
      var init := items[..n];
      assert init[i] == items[i];
      assert items[i].0 != items[n].0;
      CoerceFormValue(init, i);
    }
  }

  /** The handler's `for` loop over the form's pairs, filling `config` in place. */
  method BuildConfig(items: FormItems) returns (config: Config)
    ensures config == CoerceForm(items)
  {
    config := map[];
    for i := 0 to |items|
      invariant config == CoerceForm(items[..i])
    {
      var (key, value) := items[i];
      assert items[..i + 1][..i] == items[..i];
      config := config[key := Coerce(value)];
    }
    assert items[..|items|] == items;
  }
}
