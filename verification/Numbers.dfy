/** Number printing and reading (`lib/vsprintf.c`). */
module Numbers {
  import opened Words

  const TWO31 := 0x8000_0000

  type i32 = x: int | -TWO31 <= x < TWO31

  datatype Option<T> = None | Some(value: T)

  datatype Flags = Flags(zeropad: bool, sign: bool, plus: bool, space: bool, left: bool, special: bool, small: bool)

  // do_div: quotient and remainder

  function Quo(n: nat, base: nat): (q: nat)
    requires base >= 2
    ensures n < base ==> q == 0
    ensures n >= base ==> 0 < q < n
    ensures q <= n / 2
  {
    SmallerQuotient(n, base);
    n / base
  }

  function Rem(n: nat, base: nat): (r: nat)
    requires base >= 2
    ensures r < base
  {
    n % base
  }

  lemma SmallerQuotient(n: nat, base: nat)
    requires base >= 2
    ensures 0 <= n / base <= n / 2 && (n >= base ==> n / base > 0) && (n < base ==> n / base == 0)
  {
    var q := n / base;
    assert n == q * base + n % base;
    assert q * base >= q * 2 || q < 0;
  }

  lemma QuoRem(n: nat, base: nat)
    requires base >= 2
    ensures n == Quo(n, base) * base + Rem(n, base) && (n < base ==> Rem(n, base) == n)
  {
  }

  // Digits, the most significant first

  function Digits(n: nat, base: nat): (ds: seq<nat>)
    requires base >= 2
    ensures |ds| >= 1 && forall i :: 0 <= i < |ds| ==> ds[i] < base
  {
    hide Quo, Rem;
    if n < base then [n] else Digits(Quo(n, base), base) + [Rem(n, base)]
  }

  function Eval(ds: seq<nat>, base: nat): nat {
    if ds == [] then 0 else Eval(ds[..|ds| - 1], base) * base + ds[|ds| - 1]
  }

  /** The digits stand for the number. */
  lemma {:induction false} EvalDigits(n: nat, base: nat)
    requires base >= 2
    ensures Eval(Digits(n, base), base) == n
  {
    hide Eval, Digits, Quo, Rem;
    DigitsStep(n, base);
    QuoRem(n, base);
    if n < base {
      EvalStep([], n, base);
    } else {
      EvalDigits(Quo(n, base), base);
      EvalStep(Digits(Quo(n, base), base), Rem(n, base), base);
    }
  }

  lemma DigitsStep(n: nat, base: nat)
    requires base >= 2
    ensures n < base ==> Digits(n, base) == [] + [n] && Eval([], base) == 0
    ensures n >= base ==> Digits(n, base) == Digits(Quo(n, base), base) + [Rem(n, base)]
  {
    hide Quo, Rem;
  }

  lemma EvalStep(ds: seq<nat>, d: nat, base: nat)
    ensures Eval(ds + [d], base) == Eval(ds, base) * base + d
  {
    assert (ds + [d])[..|ds|] == ds;
  }

  lemma {:induction false} EvalZeros(k: nat, ds: seq<nat>, base: nat)
    ensures Eval(seq(k, _ => 0) + ds, base) == Eval(ds, base)
    decreases |ds|, k
  {
    var zs := seq(k, _ => 0) + ds;
    if ds != [] {
      EvalZeros(k, ds[..|ds| - 1], base);
      assert zs[..|zs| - 1] == seq(k, _ => 0) + ds[..|ds| - 1];
    } else if k > 0 {
      EvalZeros(k - 1, ds, base);
      assert zs[..k - 1] == seq(k - 1, _ => 0) + ds;
    }
  }

  function Pow2(k: nat): nat { if k == 0 then 1 else 2 * Pow2(k - 1) }

  /** A number below two to the k has k digits at most, in any base. */
  lemma {:induction false} DigitsLength(n: nat, base: nat, k: nat)
    requires base >= 2 && k >= 1 && n < Pow2(k)
    ensures |Digits(n, base)| <= k
    decreases k
  {
    hide Quo, Rem;
    if n >= base {
      assert Pow2(1) == 2;
      DigitsLength(Quo(n, base), base, k - 1);
    }
  }

  lemma Pow32()
    ensures Pow2(32) == TWO32
  {
    assert Pow2(8) == 256;
    assert Pow2(16) == 65536;
    assert Pow2(24) == 16777216;
  }

  // What number prints

  function DigitChar(d: nat, small: bool): char
    requires d < 36
  {
    if d < 10 then '0' + d as char else if small then 'a' + (d - 10) as char else 'A' + (d - 10) as char
  }

  function Repeat(c: char, n: int): string { seq(if n > 0 then n else 0, _ => c) }

  /** What is printed of the number's value: all 32 bits, unless a sign is asked for. */
  function Magnitude(num: i32, f: Flags): nat {
    var n: int := num;
    if n >= 0 then n else if f.sign then -n else n + TWO32
  }

  function SignOf(num: i32, f: Flags): string {
    if f.sign && num < 0 then "-" else if f.plus then "+" else if f.space then " " else ""
  }

  function PrefixOf(base: int, f: Flags): string {
    if !f.special then "" else if base == 16 then (if f.small then "0x" else "0X") else if base == 8 then "0" else ""
  }

  function Chars(ds: seq<nat>, small: bool): string
    requires forall i :: 0 <= i < |ds| ==> ds[i] < 36
  {
    seq(|ds|, i requires 0 <= i < |ds| => DigitChar(ds[i], small))
  }

  function DigitString(num: i32, base: int, f: Flags): string
    requires 2 <= base <= 36
  {
    Chars(Digits(Magnitude(num, f), base), f.small)
  }

  /** Sign, prefix and at least `precision` digits, padded to `size` with zeros before the digits or blanks outside. */
  function Field(num: i32, base: int, size: int, precision: int, f: Flags): string
    requires 2 <= base <= 36
  {
    var digits := DigitString(num, base, f);
    var head := SignOf(num, f) + PrefixOf(base, f);
    var zeros := Repeat('0', precision - |digits|);
    var pad := size - |head| - |zeros| - |digits|;
    if f.left then head + zeros + digits + Repeat(' ', pad)
    else if f.zeropad then head + Repeat('0', pad) + zeros + digits
    else Repeat(' ', pad) + head + zeros + digits
  }

  lemma FieldLength(num: i32, base: int, size: int, precision: int, f: Flags)
    requires 2 <= base <= 36
    ensures |Field(num, base, size, precision, f)|
      == Max(size, |SignOf(num, f)| + |PrefixOf(base, f)| + Max(precision, |DigitString(num, base, f)|))
  {
  }

  /** `while (n-- > 0) *str++ = c;` */
  method Pad(str0: string, c: char, n0: int) returns (str: string, n: int)
    ensures str == str0 + Repeat(c, n0) && n < 0 && n < n0
  {
    str, n := str0, n0;
    while n > 0
      invariant str == str0 + Repeat(c, n0 - n) && (n0 > 0 ==> n >= 0) && (n0 <= 0 ==> n == n0)
    {
      n := n - 1;
      str := str + [c];
    }
    n := n - 1;
  }

  /** The digits, from the most significant on, behind zeros up to the precision. */
  method PutNumber(str0: string, tmp: array<char>, i0: nat, precision0: int, ghost digits: string) returns (str: string)
    requires i0 == |digits| <= tmp.Length && i0 <= precision0
    requires forall j :: 0 <= j < i0 ==> tmp[j] == digits[i0 - 1 - j]
    ensures str == str0 + Repeat('0', precision0 - i0) + digits
  {
    str := str0;
    var i, precision := i0, precision0;
    while i < precision
      invariant i <= precision && str == str0 + Repeat('0', precision0 - precision)
    {
      precision := precision - 1;
      str := str + ['0'];
    }
    ghost var s := str;
    while i > 0
      invariant 0 <= i <= |digits| && str == s + digits[..|digits| - i]
    {
      i := i - 1;
      str := str + [tmp[i]];
    }
  }

  /** The first part of number: the sign apart from the value, and the room they and the prefix leave. */
  method SplitSign(num0: i32, base: int, size0: int, f: Flags) returns (num: nat, sign: string, size: int)
    requires 2 <= base <= 36
    ensures num == Magnitude(num0, f) < TWO32 && sign == SignOf(num0, f)
    ensures size == size0 - |SignOf(num0, f)| - |PrefixOf(base, f)|
  {
    var n: int := num0;
    size := size0;
    if f.sign && n < 0 {
      sign := "-";
      n := -n;
    } else {
      sign := if f.plus then "+" else if f.space then " " else "";
      if n < 0 { n := n + TWO32; }
    }
    num := n;
    if sign != "" { size := size - 1; }
    if f.special {
      if base == 16 {
        size := size - 2;
      } else if base == 8 {
        size := size - 1;
      }
    }
  }

  /** number; `tmp` is never overrun. */
  method Number(num0: i32, base: int, size0: int, precision0: int, flags: Flags) returns (r: Option<string>)
    ensures if 2 <= base <= 36 then r == Some(Field(num0, base, size0, precision0, flags)) else r == None
  {
    hide DigitString, Repeat, Field, Magnitude, SignOf, Digits, Stored;
    var f := flags;
    if f.left { f := f.(zeropad := false); }
    if base < 2 || base > 36 { return None; }
    var c := if f.zeropad then '0' else ' ';
    var precision := precision0;
    SameFlags(num0, base, flags, f);
    var num, sign, size := SplitSign(num0, base, size0, f);
    var tmp, i := PutDigits(num, base, f.small);
    ghost var digits := DigitString(num0, base, flags);
    DigitsAre(num0, base, flags, tmp[..], i);
    if i > precision { precision := i; }
    size := size - precision;
    ghost var pad := size;
    var str := "";
    if !f.zeropad && !f.left { str, size := Pad(str, ' ', size); }
    ghost var blanks := str;
    str := str + sign;
    if f.special {
      if base == 8 {
        str := str + "0";
      } else if base == 16 {
        str := str + (if f.small then "0x" else "0X");
      }
    }
    assert str == blanks + (SignOf(num0, flags) + PrefixOf(base, flags));
    hide PrefixOf;
    ghost var left := size;
    if !f.left { str, size := Pad(str, c, size); }
    str := PutNumber(str, tmp, i, precision, digits);
    ghost var right := size;
    str, size := Pad(str, ' ', size);
    Assembled(num0, base, size0, precision0, flags, digits, pad, precision, blanks, left, right, str);
    r := Some(str);
  }

  /** Dropping the zero padding changes neither the value nor the sign. */
  lemma SameFlags(num: i32, base: int, f: Flags, f': Flags)
    requires f' == f.(zeropad := f'.zeropad) && 2 <= base <= 36
    ensures Magnitude(num, f') == Magnitude(num, f) && SignOf(num, f') == SignOf(num, f)
      && PrefixOf(base, f') == PrefixOf(base, f)
  {
  }

  lemma DigitsAre(num: i32, base: int, f: Flags, tmp: seq<char>, i: nat)
    requires 2 <= base <= 36 && i == |Digits(Magnitude(num, f), base)|
      && Stored(tmp, Digits(Magnitude(num, f), base), i, f.small)
    ensures i == |DigitString(num, base, f)| <= |tmp| && forall j ::
      0 <= j < i ==> tmp[j] == DigitString(num, base, f)[i - 1 - j]
  {
  }

  /** The pieces, in the order they were written, make up the field. */
  lemma Assembled(num: i32, base: int, size: int, precision: int, f: Flags, digits: string, pad: int, p: int,
                  blanks: string, left: int, right: int, str: string)
    requires 2 <= base <= 36 && digits == DigitString(num, base, f)
    requires p == (if |digits| > precision then |digits| else precision)
    requires pad == size - |SignOf(num, f)| - |PrefixOf(base, f)| - p
    requires if f.left || f.zeropad then blanks == "" && left == pad else blanks == Repeat(' ', pad) && left < 0
    requires if f.left then right == pad else right < 0
    requires var c := if f.zeropad && !f.left then '0' else ' ';
      var zeros := if f.left then "" else Repeat(c, left);
      str == blanks + (SignOf(num, f) + PrefixOf(base, f)) + zeros + Repeat('0', p - |digits|) + digits + Repeat(' ',
        right)
    ensures str == Field(num, base, size, precision, f)
  {
    hide DigitString, SignOf, PrefixOf;
    assert Repeat('0', p - |digits|) == Repeat('0', precision - |digits|);
    assert !f.left && !f.zeropad ==> Repeat(' ', left) == "";
    assert !f.left ==> Repeat(' ', right) == "";
    assert pad == size - |SignOf(num, f) + PrefixOf(base, f)| - |Repeat('0', precision - |digits|)| - |digits|;
    hide Repeat;
  }

  /** The first `i` characters are those of the last `i` digits, the last one first. */
  predicate Stored(tmp: seq<char>, ds: seq<nat>, i: nat, small: bool)
    requires forall k :: 0 <= k < |ds| ==> ds[k] < 36
  {
    i <= |ds| && i <= |tmp| && forall j :: 0 <= j < i ==> tmp[j] == DigitChar(ds[|ds| - 1 - j], small)
  }

  lemma StoreNext(tmp: seq<char>, tmp': seq<char>, ds: seq<nat>, i: nat, small: bool)
    requires (forall k :: 0 <= k < |ds| ==> ds[k] < 36) && Stored(tmp, ds, i, small) && i < |ds| && i < |tmp|
    requires tmp' == tmp[i := DigitChar(ds[|ds| - 1 - i], small)]
    ensures Stored(tmp', ds, i + 1, small)
  {
    hide DigitChar;
  }

  /** The digits go into `tmp`, the least significant first. */
  method PutDigits(num0: nat, base: int, small: bool) returns (tmp: array<char>, i: nat)
    requires num0 < TWO32 && 2 <= base <= 36
    ensures fresh(tmp) && tmp.Length == 36 && i == |Digits(num0, base)| <= 32
    ensures Stored(tmp[..], Digits(num0, base), i, small)
  {
    tmp := new char[36];
    var num: nat := num0;
    i := 0;
    DigitsFit(num0, base);
    ghost var ds := Digits(num0, base);
    DigitsStep(num0, base);
    assert Stored(tmp[..], ds, 0, small);
    hide Digits, DigitChar, Quo, Rem, Stored;
    if num == 0 {
      ghost var was := tmp[..];
      tmp[i] := '0';
      ZeroChar(small);
      StoreNext(was, tmp[..], ds, i, small);
      i := i + 1;
    } else {
      while num != 0
        invariant i <= |ds| && (num == 0 <==> i == |ds|)
        invariant num > 0 ==> Digits(num, base) == ds[..|ds| - i]
        invariant Stored(tmp[..], ds, i, small)
        decreases num
      {
        ghost var was := tmp[..];
        DigitThere(ds, num, base, i);
        tmp[i] := DigitChar(Rem(num, base), small);
        StoreNext(was, tmp[..], ds, i, small);
        num := Quo(num, base);
        i := i + 1;
      }
    }
  }

  /** The digit that is next, and what is left to print. */
  lemma DigitThere(ds: seq<nat>, num: nat, base: nat, i: nat)
    requires num > 0 && base >= 2 && i < |ds| && Digits(num, base) == ds[..|ds| - i]
    ensures Rem(num, base) == ds[|ds| - 1 - i] && Quo(num, base) < num
    ensures Quo(num, base) == 0 <==> i + 1 == |ds|
    ensures Quo(num, base) > 0 ==> Digits(Quo(num, base), base) == ds[..|ds| - (i + 1)]
  {
    hide Quo, Rem, Digits;
    LastDigit(num, base);
    NextDigit(ds, Digits(num, base), i);
  }

  lemma DigitsFit(n: nat, base: nat)
    requires n < TWO32 && base >= 2
    ensures |Digits(n, base)| <= 32
  {
    Pow32();
    DigitsLength(n, base, 32);
  }

  lemma ZeroChar(small: bool)
    ensures DigitChar(0, small) == '0'
  {
  }

  lemma NextDigit(ds: seq<nat>, rest: seq<nat>, i: nat)
    requires i < |ds| && rest == ds[..|ds| - i]
    ensures |rest| == |ds| - i && rest[|rest| - 1] == ds[|ds| - 1 - i] && rest[..|rest| - 1] == ds[..|ds| - (i + 1)]
  {
  }

  lemma LastDigit(n: nat, base: nat)
    requires n > 0 && base >= 2
    ensures var ds := Digits(n, base);
      && ds[|ds| - 1] == Rem(n, base) && (Quo(n, base) == 0 <==> |ds| == 1) && Quo(n, base) < n
      && (Quo(n, base) > 0 ==> Digits(Quo(n, base), base) == ds[..|ds| - 1])
  {
    QuoRem(n, base);
    hide Quo, Rem;
  }

  // Reading

  predicate IsDigit(c: char) { '0' <= c <= '9' }

  function DigitOf(c: char): nat
    requires IsDigit(c)
  {
    c as int - '0' as int
  }

  /** The digits a string starts with. */
  function Leading(s: string): (ds: seq<nat>)
    ensures |ds| <= |s| && forall i :: 0 <= i < |ds| ==> IsDigit(s[i]) && ds[i] == DigitOf(s[i])
    ensures |ds| < |s| ==> !IsDigit(s[|ds|])
  {
    if s == [] || !IsDigit(s[0]) then [] else [DigitOf(s[0])] + Leading(s[1..])
  }

  /** What is left in an int. */
  function ToI32(x: int): (r: i32)
    ensures -TWO31 <= x < TWO31 ==> r == x
  {
    (x + TWO31) % TWO32 - TWO31
  }

  lemma WrapStep(x: int, d: int)
    ensures ToI32(ToI32(x) * 10 + d) == ToI32(x * 10 + d)
  {
    var k := (x + TWO31) / TWO32;
    assert ToI32(x) == x - k * TWO32;
    assert (ToI32(x) * 10 + d + TWO31) == (x * 10 + d + TWO31) - (10 * k) * TWO32;
    ModShift(x * 10 + d + TWO31, 10 * k);
  }

  lemma ModShift(a: int, k: int)
    ensures (a - k * TWO32) % TWO32 == a % TWO32
  {
  }

  /** The value of the digits at the front, as far as an int holds it; `rest` is what follows them. */
  method SkipAtoi(s: string) returns (i: i32, rest: string)
    ensures i == ToI32(Eval(Leading(s), 10)) && rest == s[|Leading(s)|..]
  {
    hide ToI32, Eval, Leading;
    ghost var ds := Leading(s);
    EvalEmpty();
    i := 0;
    var at := 0;
    while at < |s| && IsDigit(s[at])
      invariant at <= |ds| && i == ToI32(Eval(ds[..at], 10))
    {
      LeadingAt(s, at);
      EvalStep(ds[..at], ds[at], 10);
      assert ds[..at + 1] == ds[..at] + [ds[at]];
      WrapStep(Eval(ds[..at], 10), ds[at]);
      i := ToI32(i * 10 + DigitOf(s[at]));
      at := at + 1;
    }
    LeadingEnd(s, at);
    assert ds[..at] == ds;
    rest := s[at..];
  }

  lemma EvalEmpty()
    ensures forall ds :: ds == [] ==> Eval(ds, 10) == 0
    ensures ToI32(0) == 0
  {
  }

  lemma LeadingAt(s: string, at: nat)
    requires at < |s| && at <= |Leading(s)| && IsDigit(s[at])
    ensures at < |Leading(s)| && Leading(s)[at] == DigitOf(s[at])
  {
  }

  lemma LeadingEnd(s: string, at: nat)
    requires at <= |Leading(s)| && (at == |s| || !IsDigit(s[at]))
    ensures at == |Leading(s)|
  {
  }

  /** skip_atoi undoes plain base-10 printing, and stops where it ends. */
  lemma AtoiUndoesNumber(n: i32, small: bool, rest: string)
    requires n >= 0 && (rest == [] || !IsDigit(rest[0]))
    ensures var f := Flags(false, true, false, false, false, false, small);
      var s := Field(n, 10, -1, -1, f);
      ToI32(Eval(Leading(s + rest), 10)) == n && |Leading(s + rest)| == |s|
  {
    var f := Flags(false, true, false, false, false, false, small);
    var ds := Digits(n, 10);
    EvalDigits(n, 10);
    assert Field(n, 10, -1, -1, f) == Chars(ds, small);
    LeadingDigits(ds, small, rest);
  }

  lemma {:induction false} LeadingDigits(ds: seq<nat>, small: bool, rest: string)
    requires (forall i :: 0 <= i < |ds| ==> ds[i] < 10) && (rest == [] || !IsDigit(rest[0]))
    ensures Leading(Chars(ds, small) + rest) == ds
    decreases |ds|
  {
    var s := Chars(ds, small) + rest;
    if ds == [] {
      assert s == rest;
    } else {
      LeadingDigits(ds[1..], small, rest);
      CharsTail(ds, small, rest);
      hide Chars;
      assert ds == [ds[0]] + ds[1..];
    }
  }

  lemma CharsTail(ds: seq<nat>, small: bool, rest: string)
    requires ds != [] && forall i :: 0 <= i < |ds| ==> ds[i] < 10
    ensures var s := Chars(ds, small) + rest;
      s[1..] == Chars(ds[1..], small) + rest && IsDigit(s[0]) && DigitOf(s[0]) == ds[0]
  {
    assert (Chars(ds, small) + rest)[0] == DigitChar(ds[0], small);
  }

  // Reading the characters back

  /** The digit that a character stands for, in capitals or small letters. */
  function CharValue(c: char): nat {
    if IsDigit(c) then DigitOf(c)
    else if 'A' <= c <= 'Z' then (c - 'A') as nat + 10
    else if 'a' <= c <= 'z' then (c - 'a') as nat + 10
    else 0
  }

  function Values(s: string): seq<nat> { seq(|s|, i requires 0 <= i < |s| => CharValue(s[i])) }

  /** The characters of the digits stand for just those, in every base. */
  lemma CharsReadBack(ds: seq<nat>, small: bool)
    requires forall i :: 0 <= i < |ds| ==> ds[i] < 36
    ensures Values(Chars(ds, small)) == ds
  {
    forall i | 0 <= i < |ds| ensures CharValue(DigitChar(ds[i], small)) == ds[i] {}
    hide DigitChar, CharValue;
  }

  /**
   With any flags, what is printed is blanks, the sign and the prefix, zeros and digits, blanks; and the characters
   from the zeros on evaluate back to the value.
   */
  lemma DigitsStandForValue(num: i32, base: int, size: int, precision: int, f: Flags)
    returns (left: string, sign: string, prefix: string, zeros: string, digits: string, right: string)
    requires 2 <= base <= 36
    ensures Field(num, base, size, precision, f) == left + sign + prefix + zeros + digits + right
    ensures sign == if f.sign && num < 0 then "-" else if f.plus then "+" else if f.space then " " else ""
    ensures prefix == if f.special && base == 16 then (if f.small then "0x" else "0X")
                      else if f.special && base == 8 then "0" else ""
    ensures Eval(Values(zeros + digits), base)
      == if num >= 0 then num else if f.sign then -(num as int) else num + TWO32
    ensures |digits| >= 1 && (digits[0] == '0' ==> |digits| == 1)
    ensures forall c :: c in digits ==> IsDigit(c) || if f.small then 'a' <= c <= 'z' else 'A' <= c <= 'Z'
    ensures (forall c :: c in left + right ==> c == ' ') && forall c :: c in zeros ==> c == '0'
    ensures left != [] ==> !f.left && !f.zeropad
    ensures right != [] ==> f.left
    ensures |zeros + digits|
      == if f.zeropad && !f.left then Max(size - |sign + prefix|, Max(precision, |digits|))
         else Max(precision, |digits|)
    ensures |left + sign + prefix + zeros + digits + right| == Max(size, |sign + prefix + zeros + digits|)
  {
    hide Field, Eval, Values, Digits, Repeat, Chars, PrefixOf, SignOf, Magnitude;
    var ds := Digits(Magnitude(num, f), base);
    var before, none, after;
    before, none, after := FieldParts(num, base, size, precision, f);
    left, zeros, right := Repeat(' ', before), Repeat('0', none), Repeat(' ', after);
    sign, prefix, digits := SignOf(num, f), PrefixOf(base, f), DigitString(num, base, f);
    RepeatIs(' ', before);
    RepeatIs('0', none);
    RepeatIs(' ', after);
    ZerosReadBack(none, ds, base, f.small);
    EvalDigits(Magnitude(num, f), base);
    ValueIs(num, f);
    SignIs(num, base, f);
    FirstDigit(Magnitude(num, f), base);
    CharsAre(ds, f.small);
  }

  lemma RepeatIs(c: char, n: nat)
    ensures |Repeat(c, n)| == n && forall x :: x in Repeat(c, n) ==> x == c
  {
  }

  lemma ValueIs(num: i32, f: Flags)
    ensures Magnitude(num, f) == if num >= 0 then num else if f.sign then -(num as int) else num + TWO32
  {
  }

  lemma SignIs(num: i32, base: int, f: Flags)
    ensures SignOf(num, f)
      == if f.sign && num < 0 then "-" else if f.plus then "+" else if f.space then " " else ""
    ensures PrefixOf(base, f) == if f.special && base == 16 then (if f.small then "0x" else "0X")
                                 else if f.special && base == 8 then "0" else ""
  {
  }

  /** No digit is printed in vain. */
  lemma {:induction false} FirstDigit(n: nat, base: nat)
    requires base >= 2
    ensures Digits(n, base)[0] == 0 ==> |Digits(n, base)| == 1
  {
    hide Quo, Rem;
    if n >= base {
      FirstDigit(Quo(n, base), base);
    }
  }

  lemma CharsAre(ds: seq<nat>, small: bool)
    requires forall i :: 0 <= i < |ds| ==> ds[i] < 36
    ensures |Chars(ds, small)| == |ds| && (ds != [] && Chars(ds, small)[0] == '0' ==> ds[0] == 0)
    ensures forall c :: c in Chars(ds, small) ==> IsDigit(c) || if small then 'a' <= c <= 'z' else 'A' <= c <= 'Z'
  {
  }

  lemma FieldParts(num: i32, base: int, size: int, precision: int, f: Flags) returns (left: nat, zeros: nat, right: nat)
    requires 2 <= base <= 36
    ensures Field(num, base, size, precision, f)
      == Repeat(' ', left) + SignOf(num, f) + PrefixOf(base, f)
         + Repeat('0', zeros) + DigitString(num, base, f) + Repeat(' ', right)
    ensures left > 0 ==> !f.left && !f.zeropad
    ensures right > 0 ==> f.left
    ensures var head, n := |SignOf(num, f) + PrefixOf(base, f)|, |DigitString(num, base, f)|;
      && zeros + n == (if f.zeropad && !f.left then Max(size - head, Max(precision, n)) else Max(precision, n))
      && left + head + zeros + n + right == Max(size, head + zeros + n)
  {
    hide DigitString, SignOf, PrefixOf;
    var digits, head := DigitString(num, base, f), SignOf(num, f) + PrefixOf(base, f);
    var z := |Repeat('0', precision - |digits|)|;
    var pad := |Repeat(' ', size - |head| - z - |digits|)|;
    if f.left {
      left, zeros, right := 0, z, pad;
    } else if f.zeropad {
      left, zeros, right := 0, pad + z, 0;
      assert Repeat('0', pad) + Repeat('0', z) == Repeat('0', pad + z);
    } else {
      left, zeros, right := pad, z, 0;
    }
  }

  lemma ZerosReadBack(zeros: nat, ds: seq<nat>, base: nat, small: bool)
    requires forall i :: 0 <= i < |ds| ==> ds[i] < 36
    ensures Eval(Values(Repeat('0', zeros) + Chars(ds, small)), base) == Eval(ds, base)
  {
    EvalZeros(zeros, ds, base);
    CharsReadBack(ds, small);
    var s := Repeat('0', zeros) + Chars(ds, small);
    assert CharValue('0') == 0;
    forall i | 0 <= i < |s| ensures Values(s)[i] == (seq(zeros, _ => 0) + ds)[i] {
      if i >= zeros {
        assert Values(Chars(ds, small))[i - zeros] == ds[i - zeros];
      }
    }
    assert Values(s) == seq(zeros, _ => 0) + ds;
  }
}
