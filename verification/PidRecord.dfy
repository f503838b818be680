/** The text of a PID record, and how it is read back. */
module PidRecord {
  import opened Common

  const MAX_INT: nat := 0x7fff_ffff_ffff_ffff

  predicate IsSpace(c: char) {
    || '\t' <= c <= '\r' || c == ' ' || c == '\U{85}' || c == '\U{a0}' || c == '\U{1680}'
    || '\U{2000}' <= c <= '\U{200a}' || c == '\U{2028}' || c == '\U{2029}' || c == '\U{202f}'
    || c == '\U{205f}' || c == '\U{3000}'
  }

  predicate IsDigit(c: char) { '0' <= c <= '9' }

  function DigitChar(d: nat): char
    requires d < 10
  {
    '0' + d as char
  }

  function Itoa(n: nat): (s: string)
    ensures s != [] && forall c | c in s :: IsDigit(c)
  {
    if n < 10 then [DigitChar(n)] else Itoa(n / 10) + [DigitChar(n % 10)]
  }

  function DigitsValue(s: string): nat
    requires forall c | c in s :: IsDigit(c)
  {
    if s == [] then 0
    else
      assert IsDigit(s[|s| - 1]);
      10 * DigitsValue(s[..|s| - 1]) + (s[|s| - 1] as int - '0' as int)
  }

  /** A signed decimal number that fits into 64 bits. */
  function Atoi(s: string): Option<int> {
    var signed := s != [] && (s[0] == '+' || s[0] == '-');
    var digits := if signed then s[1..] else s;
    if digits == [] || exists c | c in digits :: !IsDigit(c) then None
    else
      var v: int := DigitsValue(digits);
      if signed && s[0] == '-' then (if v <= MAX_INT + 1 then Some(-v) else None)
      else if v <= MAX_INT then Some(v) else None
  }

  function TrimLeft(s: string): string {
    if s != [] && IsSpace(s[0]) then TrimLeft(s[1..]) else s
  }

  function TrimRight(s: string): string {
    if s != [] && IsSpace(s[|s| - 1]) then TrimRight(s[..|s| - 1]) else s
  }

  function PidText(pid: nat): string { Itoa(pid) + "\n" }

  /** The recorded PID: zero for no record, an error for a malformed one. */
  function Parse(record: Option<string>): Result<nat, string> {
    if record == None then Ok(0)
    else
      var text := TrimRight(TrimLeft(record.value));
      if text == "" then Ok(0)
      else
        var number := Atoi(text);
        if number == None || number.value <= 0 then Err(text) else Ok(number.value)
  }

  lemma ItoaValue(n: nat)
    ensures DigitsValue(Itoa(n)) == n
  {
    var s := Itoa(n);
    if n < 10 {
      assert s[..|s| - 1] == [];
    } else {
      ItoaValue(n / 10);
      assert s[..|s| - 1] == Itoa(n / 10);
    }
  }

  /** What a daemon writes about itself is what is read back. */
  lemma ParseOwnRecord(pid: nat)
    requires 0 < pid <= MAX_INT
    ensures Parse(Some(PidText(pid))) == Ok(pid)
  {
    var s, text := Itoa(pid), PidText(pid);
    assert IsDigit(s[0]) by { assert s[0] in s; }
    assert text[0] == s[0];
    assert TrimLeft(text) == text;
    assert text[..|text| - 1] == s;
    assert IsDigit(s[|s| - 1]) by { assert s[|s| - 1] in s; }
    assert TrimRight(text) == TrimRight(s) == s;
    ItoaValue(pid);
    assert Atoi(s) == Some(pid);
  }

  // ----- what other records mean

  predicate AllSpaces(s: string) {
    forall c | c in s :: IsSpace(c)
  }

  predicate AllDigits(s: string) {
    s != "" && forall c | c in s :: IsDigit(c)
  }

  lemma {:induction false} TrimLeftDrops(a: string, s: string)
    requires AllSpaces(a) && (s != "" ==> !IsSpace(s[0]))
    ensures TrimLeft(a + s) == s
  {
    if a == "" {
      assert a + s == s;
    } else {
      assert a[0] in a && forall c | c in a[1..] :: c in a;
      assert (a + s)[1..] == a[1..] + s;
      TrimLeftDrops(a[1..], s);
    }
  }

  lemma {:induction false} TrimRightDrops(s: string, b: string)
    requires AllSpaces(b) && (s != "" ==> !IsSpace(s[|s| - 1]))
    ensures TrimRight(s + b) == s
  {
    if b == "" {
      assert s + b == s;
    } else {
      var n := |b| - 1;
      assert b[n] in b && forall c | c in b[..n] :: c in b;
      assert (s + b)[..|s + b| - 1] == s + b[..n];
      TrimRightDrops(s, b[..n]);
    }
  }

  /** Outer white space does not matter: a record of nothing else is no record, and any other
      means what its core means. */
  lemma ParseTrims(a: string, core: string, b: string)
    requires AllSpaces(a) && AllSpaces(b) && (core != "" ==> !IsSpace(core[0]) && !IsSpace(core[|core| - 1]))
    ensures Parse(Some(a + core + b)) == Parse(Some(core))
    ensures core == "" ==> Parse(Some(a + core + b)) == Ok(0)
  {
    if core == "" {
      assert a + core + b == (a + b) + "";
      TrimLeftDrops(a + b, "");
    } else {
      assert a + core + b == a + (core + b) && (core + b)[0] == core[0];
      TrimLeftDrops(a, core + b);
      TrimRightDrops(core, b);
      assert "" + core == core && core + "" == core;
      TrimLeftDrops("", core);
      TrimRightDrops(core, "");
    }
  }

  /** A number that is positive and fits into 64 bits. */
  predicate Fits(v: nat) { 0 < v <= MAX_INT }

  lemma ParseCore(core: string)
    requires core != "" && !IsSpace(core[0]) && !IsSpace(core[|core| - 1])
    ensures Parse(Some(core))
         == if Atoi(core) == None || Atoi(core).value <= 0 then Err(core) else Ok(Atoi(core).value)
  {
    assert TrimLeft(core) == core && TrimRight(core) == core;
  }

  /** Digits are the number they denote, if that is positive and fits; zero and larger numbers
      are malformed. */
  lemma ParseDigits(digits: string)
    requires AllDigits(digits)
    ensures if Fits(DigitsValue(digits)) then Parse(Some(digits)) == Ok(DigitsValue(digits))
            else Parse(Some(digits)).Err?
  {
    assert digits[0] in digits && digits[|digits| - 1] in digits;
    ParseCore(digits);
  }

  /** So they are after a plus; after a minus they are malformed. */
  lemma ParseSigned(digits: string, sign: char)
    requires AllDigits(digits) && (sign == '+' || sign == '-')
    ensures if sign == '+' && Fits(DigitsValue(digits)) then Parse(Some([sign] + digits)) == Ok(DigitsValue(digits))
            else Parse(Some([sign] + digits)).Err?
  {
    var core := [sign] + digits;
    assert core[1..] == digits && core[|core| - 1] == digits[|digits| - 1];
    assert digits[|digits| - 1] in digits;
    ParseCore(core);
  }

  /** Everything else is malformed. */
  lemma ParseRefuses(core: string)
    requires core != "" && !IsSpace(core[0]) && !IsSpace(core[|core| - 1])
    requires !AllDigits(core) && !((core[0] == '+' || core[0] == '-') && AllDigits(core[1..]))
    ensures Parse(Some(core)).Err?
  {
    ParseCore(core);
  }
}
