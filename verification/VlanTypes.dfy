/** VLAN ids and ranges of the OpenConfig types, and the list of VLANs of a trunk. */
module VlanTypes {
  import opened Wrappers
  import opened Names

  datatype Result<T> = Ok(value: T) | ValueError | TypeError

  /** `range(1, 4094)`: the upper bound is not in it. */
  function VlanId(n: int): Result<int> {
    if 1 <= n < 4094 then Ok(n) else ValueError
  }

  // ----- The pattern -----------------------------------------------------------------------

  predicate Digit(c: char) {
    '0' <= c <= '9'
  }

  /** One side of a range: 4090-4094, 4000-4089, 1000-3999, two or three digits, one digit. */
  predicate Token(t: string) {
    || (|t| == 4 && t[..3] == "409" && '0' <= t[3] <= '4')
    || (|t| == 4 && t[..2] == "40" && '0' <= t[2] <= '8' && Digit(t[3]))
    || (|t| == 4 && '1' <= t[0] <= '3' && Digit(t[1]) && Digit(t[2]) && Digit(t[3]))
    || (|t| == 3 && '1' <= t[0] <= '9' && Digit(t[1]) && Digit(t[2]))
    || (|t| == 2 && '1' <= t[0] <= '9' && Digit(t[1]))
    || (|t| == 1 && '1' <= t[0] <= '9')
  }

  predicate SplitAt(s: string, i: nat) {
    i + 2 <= |s| && s[i] == '.' && s[i + 1] == '.' && Token(s[..i]) && Token(s[i + 2..])
  }

  /** `$` also matches before a final newline. */
  function Chop(s: string): string {
    if s != "" && s[|s| - 1] == '\n' then s[..|s| - 1] else s
  }

  predicate Matches(s: string) {
    exists i :: 0 <= i < |s| && (SplitAt(s, i) || SplitAt(Chop(s), i))
  }

  /** Index of the first two dots; the length when there are none. */
  function FirstDots(s: string): (i: nat)
    ensures i <= |s|
  {
    if s == "" then 0
    else if |s| >= 2 && s[0] == '.' && s[1] == '.' then 0
    else 1 + FirstDots(s[1..])
  }

  /** What `int` makes of a side of the range: a final newline is stripped. */
  function ToInt(t: string): Option<int> {
    if Chop(t) != "" && IsDigits(Chop(t)) then Some(Number(Chop(t))) else None
  }

  function VlanRange(s: string): Result<string> {
    if !Matches(s) then ValueError
    else
      var i := FirstDots(s);
      var lower, upper := ToInt(s[..i]), ToInt(if i + 2 <= |s| then s[i + 2..] else "");
      if lower.Some? && upper.Some? && lower.value <= upper.value then Ok(s) else ValueError
  }

  // ----- What it recognises ----------------------------------------------------------------

  predicate CanonicalRange(s: string, x: int, y: int) {
    1 <= x <= y <= 4094 && s == Decimal(x) + ".." + Decimal(y)
  }

  /** Digits without a leading zero are the decimal text of their number. */
  lemma {:induction false} DecimalOfNumber(t: string)
    requires IsDigits(t) && t != "" && t[0] != '0'
    ensures Number(t) > 0 && Decimal(Number(t)) == t
    decreases |t|
  {
    var n := |t| - 1;
    assert t == t[..n] + [t[n]];
    assert t[n] in t;
    NumberSnoc(t[..n], t[n]);
    if n > 0 {
      DecimalOfNumber(t[..n]);
      assert Number(t) / 10 == Number(t[..n]) && Number(t) % 10 == t[n] as int - '0' as int;
    } else {
      assert t[..n] == "" && t[0] == t[n];
    }
    LastDigit(t[n]);
  }

  lemma LastDigit(c: char)
    requires Digit(c)
    ensures "0123456789"[c as int - '0' as int] == c
  {
  }

  lemma NumberOf4(t: string)
    requires |t| == 4 && IsDigits(t)
    ensures Number(t) == 1000 * (t[0] as int - 48) + 100 * (t[1] as int - 48) + 10 * (t[2] as int - 48)
              + (t[3] as int - 48)
  {
    assert t == t[..3] + [t[3]];
    NumberSnoc(t[..3], t[3]);
    NumberOf3(t[..3]);
  }

  lemma NumberOf3(t: string)
    requires |t| == 3 && IsDigits(t)
    ensures Number(t) == 100 * (t[0] as int - 48) + 10 * (t[1] as int - 48) + (t[2] as int - 48)
  {
    assert t == [t[0]] + [t[1]] + [t[2]];
    NumberSnoc([t[0]] + [t[1]], t[2]);
    NumberSnoc([t[0]], t[1]);
    NumberSnoc("", t[0]);
    assert "" + [t[0]] == [t[0]];
  }

  lemma NumberOf2(t: string)
    requires |t| == 2 && IsDigits(t)
    ensures Number(t) == 10 * (t[0] as int - 48) + (t[1] as int - 48)
  {
    assert t == [t[0]] + [t[1]];
    NumberSnoc([t[0]], t[1]);
    NumberSnoc("", t[0]);
    assert "" + [t[0]] == [t[0]];
  }

  lemma NumberOf1(t: string)
    requires |t| == 1 && IsDigits(t)
    ensures Number(t) == t[0] as int - 48
  {
  }

  lemma {:induction false} DecimalShape(n: nat)
    requires 1 <= n < 10000
    ensures |Decimal(n)| == if n < 10 then 1 else if n < 100 then 2 else if n < 1000 then 3 else 4
    ensures Decimal(n)[0] != '0'
  {
    if n >= 10 {
      DecimalShape(n / 10);
    }
  }

  lemma NumberBySize(t: string)
    requires 1 <= |t| <= 4 && IsDigits(t)
    ensures |t| == 4 ==>
              Number(t)
              == 1000 * (t[0] as int - 48) + 100 * (t[1] as int - 48) + 10 * (t[2] as int - 48) + (t[3] as int - 48)
    ensures |t| == 3 ==> Number(t) == 100 * (t[0] as int - 48) + 10 * (t[1] as int - 48) + (t[2] as int - 48)
    ensures |t| == 2 ==> Number(t) == 10 * (t[0] as int - 48) + (t[1] as int - 48)
    ensures |t| == 1 ==> Number(t) == t[0] as int - 48
  {
    if |t| == 4 { NumberOf4(t); }
    if |t| == 3 { NumberOf3(t); }
    if |t| == 2 { NumberOf2(t); }
    if |t| == 1 { NumberOf1(t); }
  }

  lemma TokenDigits(t: string)
    requires Token(t)
    ensures 1 <= |t| <= 4 && IsDigits(t) && t[0] != '0' && 1 <= Number(t) <= 4094
  {
    assert forall i | 0 <= i < |t| :: Digit(t[i]) by {
      if |t| == 4 && t[..3] == "409" { assert t[0] == t[..3][0] && t[1] == t[..3][1] && t[2] == t[..3][2]; }
      if |t| == 4 && t[..2] == "40" { assert t[0] == t[..2][0] && t[1] == t[..2][1]; }
    }
    NumberBySize(t);
    if |t| == 4 && t[..3] == "409" { assert t[0] == t[..3][0] && t[1] == t[..3][1] && t[2] == t[..3][2]; }
    if |t| == 4 && t[..2] == "40" { assert t[0] == t[..2][0] && t[1] == t[..2][1]; }
  }

  /** A side of the pattern is exactly the decimal text of a VLAN id. */
  lemma TokenIs(t: string)
    ensures Token(t) <==> exists n :: 1 <= n <= 4094 && t == Decimal(n)
  {
    if Token(t) {
      TokenDigits(t);
      DecimalOfNumber(t);
    }
    if n :| 1 <= n <= 4094 && t == Decimal(n) {
      DecimalToken(n);
    }
  }

  lemma DecimalToken(n: nat)
    requires 1 <= n <= 4094
    ensures Token(Decimal(n))
  {
    var t := Decimal(n);
    DecimalShape(n);
    DecimalDigits(n);
    NumberBySize(t);
    hide Decimal, Number, Token;
    assert forall i | 0 <= i < |t| :: t[i] in t && Digit(t[i]);
    if |t| == 4 { FourDigits(t); } else { FewDigits(t); }
  }

  lemma FewDigits(t: string)
    requires 1 <= |t| <= 3 && t[0] != '0' && forall i | 0 <= i < |t| :: Digit(t[i])
    ensures Token(t)
  {
  }

  lemma FourDigits(t: string)
    requires |t| == 4 && t[0] != '0' && forall i | 0 <= i < 4 :: Digit(t[i])
    requires 1000 * (t[0] as int - 48) + 100 * (t[1] as int - 48) + 10 * (t[2] as int - 48) + (t[3] as int - 48) <= 4094
    ensures Token(t)
  {
  }

  lemma {:induction false} FirstDotsAt(s: string, i: nat)
    requires i + 2 <= |s| && s[i] == '.' && s[i + 1] == '.' && forall j | 0 <= j < i :: s[j] != '.'
    ensures FirstDots(s) == i
  {
    if i > 0 {
      FirstDotsAt(s[1..], i - 1);
    }
  }

  lemma ToIntDigits(t: string)
    requires IsDigits(t) && t != ""
    ensures ToInt(t) == Some(Number(t)) && ToInt(t + "\n") == Some(Number(t))
    ensures forall j | 0 <= j < |t| :: t[j] != '.' && t[j] != '\n'
  {
    hide Number;
    assert forall j | 0 <= j < |t| :: t[j] in t;
    assert Chop(t) == t;
    assert (t + "\n")[..|t + "\n"| - 1] == t;
  }

  /** Where the pattern splits, the two sides are read back as numbers. */
  lemma SplitSides(s: string, i: nat)
    requires SplitAt(Chop(s), i)
    ensures FirstDots(s) == i && i + 2 <= |s| && Matches(s)
    ensures IsDigits(Chop(s)[..i]) && IsDigits(Chop(s)[i + 2..])
    ensures ToInt(s[..i]) == Some(Number(Chop(s)[..i])) && ToInt(s[i + 2..]) == Some(Number(Chop(s)[i + 2..]))
  {
    hide Number, Token, ToInt, IsDigits, FirstDots, Chop, Matches;
    var c := Chop(s);
    var a, b := c[..i], c[i + 2..];
    TokenDigits(a);
    TokenDigits(b);
    ToIntDigits(a);
    ToIntDigits(b);
    ChopIs(s);
    MatchesAt(s, i);
    assert forall j | 0 <= j < i :: c[j] == a[j];
    assert forall j | 0 <= j < |c| :: c[j] == s[j];
    FirstDotsAt(s, i);
    assert s[..i] == a;
    assert s[i + 2..] == b || s[i + 2..] == b + "\n";
  }

  lemma ChopIs(s: string)
    ensures s == Chop(s) || s == Chop(s) + "\n"
  {
  }

  lemma MatchesAt(s: string, i: nat)
    requires SplitAt(Chop(s), i)
    ensures Matches(s)
  {
  }

  lemma SplitChopped(s: string, i: nat)
    requires SplitAt(s, i)
    ensures Chop(s) == s
  {
  }

  /** Over all strings: a range is accepted exactly when, up to one final newline, it is
      `x..y` with canonical decimals 1 <= x <= y <= 4094. */
  lemma VlanRangeIs(s: string)
    ensures VlanRange(s) == Ok(s) || VlanRange(s) == ValueError
    ensures VlanRange(s) == Ok(s) <==> exists x, y :: CanonicalRange(Chop(s), x, y)
  {
    hide Decimal, Number, Token, FirstDots, ToInt, IsDigits, Chop;
    var c := Chop(s);
    if VlanRange(s) == Ok(s) {
      var i :| 0 <= i < |s| && (SplitAt(s, i) || SplitAt(c, i));
      if SplitAt(s, i) { SplitChopped(s, i); }
      SplitSides(s, i);
      var x, y := Number(c[..i]), Number(c[i + 2..]);
      SplitCanonical(c, i);
      assert CanonicalRange(c, x, y);
    }
    if x, y :| CanonicalRange(c, x, y) {
      var i := |Decimal(x)|;
      CanonicalSplit(c, x, y);
      SplitSides(s, i);
    }
  }

  lemma SplitCanonical(c: string, i: nat)
    requires SplitAt(c, i)
    ensures IsDigits(c[..i]) && IsDigits(c[i + 2..])
    ensures 1 <= Number(c[..i]) && Number(c[i + 2..]) <= 4094
    ensures c == Decimal(Number(c[..i])) + ".." + Decimal(Number(c[i + 2..]))
  {
    hide Decimal, Number, Token, IsDigits;
    TokenDigits(c[..i]);
    TokenDigits(c[i + 2..]);
    DecimalOfNumber(c[..i]);
    DecimalOfNumber(c[i + 2..]);
    assert c == c[..i] + ".." + c[i + 2..];
  }

  lemma CanonicalSplit(c: string, x: int, y: int)
    requires CanonicalRange(c, x, y)
    ensures var i := |Decimal(x)|;
            && SplitAt(c, i) && IsDigits(c[..i]) && IsDigits(c[i + 2..])
            && Number(c[..i]) == x && Number(c[i + 2..]) == y
  {
    hide Decimal, Number, Token, IsDigits;
    var i := |Decimal(x)|;
    assert c[..i] == Decimal(x) && c[i + 2..] == Decimal(y);
    DecimalToken(x);
    DecimalToken(y);
    DecimalDigits(x);
    DecimalDigits(y);
  }

  // ----- The VLANs of a trunk -------------------------------------------------------------------

  datatype Item = Id(vlan: int) | Range(text: string)

  /** What a caller may add: a number, or a text that `int` may or may not accept. */
  datatype Arg = Number_(n: int) | Text(s: string, asInt: Option<int>)

  predicate ItemOk(it: Item) {
    match it
    case Id(v) => 1 <= v < 4094
    case Range(s) => VlanRange(s) == Ok(s)
  }

  class TrunkVlans {
    var items: seq<Item>

    ghost predicate Valid()
      reads this
    {
      && (forall i, j | 0 <= i < j < |items| :: items[i] != items[j])
      && forall it | it in items :: ItemOk(it)
    }

    constructor ()
      ensures Valid() && items == []
    {
      items := [];
    }

    /** Entries stay distinct and within bounds. A number out of range is tried as a range
        next, which it is not: the error is a type error, not a value error. */
    method Add(arg: Arg) returns (r: Result<()>)
      requires Valid()
      modifies this`items
      ensures Valid()
      ensures r == Ok(()) <==> ItemOk(AsItem(arg)) || AsItem(arg) in old(items)
      ensures r != Ok(()) ==> r == if AsItem(arg).Id? then TypeError else ValueError
      ensures items == if r == Ok(()) && AsItem(arg) !in old(items) then old(items) + [AsItem(arg)] else old(items)
    {
      var item := AsItem(arg);
      if item in items { return Ok(()); }
      match item {
        case Id(v) =>
          if VlanId(v).Ok? {
            items := items + [item];
            return Ok(());
          }
          return TypeError;
        case Range(s) =>
          VlanRangeIs(s);
          if VlanRange(s).Ok? {
            items := items + [item];
            return Ok(());
          }
          return ValueError;
      }
    }
  }

  function AsItem(arg: Arg): Item {
    match arg
    case Number_(n) => Id(n)
    case Text(_, Some(n)) => Id(n)
    case Text(s, None) => Range(s)
  }
}
