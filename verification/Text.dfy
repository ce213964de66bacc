/** Characters, digits and separated lists. */
module Text {

  const ESC := '\U{1B}'
  const BEL := '\U{07}'
  const TERMINATOR := [ESC, '\\']

  predicate EndsWith(data: string, suffix: string) {
    |data| >= |suffix| && data[|data| - |suffix|..] == suffix
  }

  predicate Digit(c: char) { '0' <= c <= '9' }

  predicate Digits(s: string) { forall c :: c in s ==> Digit(c) }

  function Number(digits: string): nat
    requires Digits(digits)
  {
    if digits == "" then 0
    else
      assert Digit(digits[|digits| - 1]);
      10 * Number(digits[..|digits| - 1]) + (digits[|digits| - 1] as int - '0' as int)
  }

  function SplitOn(s: string, separator: char): (parts: seq<string>)
    ensures parts != []
  {
    if s == "" then [""]
    else
      var rest := SplitOn(s[1..], separator);
      if s[0] == separator then [""] + rest else [[s[0]] + rest[0]] + rest[1..]
  }

  function Join(parts: seq<string>, separator: string): string {
    if parts == [] then ""
    else if |parts| == 1 then parts[0]
    else parts[0] + separator + Join(parts[1..], separator)
  }

  lemma {:induction false} SplitTwo(a: string, separator: char, b: string)
    ensures SplitOn(a + [separator] + b, separator) == SplitOn(a, separator) + SplitOn(b, separator)
    decreases |a|
  {
    var s := a + [separator] + b;
    if a == "" {
      assert s[0] == separator && s[1..] == b;
    } else {
      assert s[0] == a[0] && s[1..] == a[1..] + [separator] + b;
      SplitTwo(a[1..], separator, b);
      var first, second := SplitOn(a[1..], separator), SplitOn(b, separator);
      assert (first + second)[1..] == first[1..] + second;
    }
  }

  lemma {:induction false} SplitOne(s: string, separator: char)
    requires separator !in s
    ensures SplitOn(s, separator) == [s]
    decreases |s|
  {
    if s != "" {
      assert s[0] in s && forall c :: c in s[1..] ==> c in s;
      SplitOne(s[1..], separator);
      assert [s[0]] + s[1..] == s;
      assert [s] + [s[1..]][1..] == [s];
    }
  }

  lemma {:induction false} PartsHaveNoSeparator(s: string, separator: char)
    ensures forall p :: p in SplitOn(s, separator) ==> separator !in p && forall c :: c in p ==> c in s
    decreases |s|
  {
    if s != "" {
      PartsHaveNoSeparator(s[1..], separator);
      var rest := SplitOn(s[1..], separator);
      assert rest[0] in rest;
      assert forall c :: c in s[1..] ==> c in s;
      assert s[0] in s;
      forall p | p in SplitOn(s, separator) ensures separator !in p && forall c :: c in p ==> c in s {
      }
    }
  }

  lemma {:induction false} JoinOfSplit(s: string, separator: char)
    ensures Join(SplitOn(s, separator), [separator]) == s
    decreases |s|
  {
    if s != "" {
      JoinOfSplit(s[1..], separator);
      var rest := SplitOn(s[1..], separator);
      if s[0] == separator {
        assert ([""] + rest)[1..] == rest;
      } else {
        assert ([[s[0]] + rest[0]] + rest[1..])[1..] == rest[1..];
      }
    }
  }

  lemma {:induction false} SplitOfJoin(parts: seq<string>, separator: char)
    requires parts != [] && forall p :: p in parts ==> separator !in p
    ensures SplitOn(Join(parts, [separator]), separator) == parts
    decreases |parts|
  {
    assert parts[0] in parts;
    SplitOne(parts[0], separator);
    if |parts| > 1 {
      assert forall p :: p in parts[1..] ==> p in parts;
      SplitOfJoin(parts[1..], separator);
      SplitTwo(parts[0], separator, Join(parts[1..], [separator]));
      assert [parts[0]] + parts[1..] == parts;
    }
  }

  // ---------- Finding ----------

  predicate At(s: string, part: string, k: int) { 0 <= k <= |s| - |part| && s[k..k + |part|] == part }

  lemma AtRest(s: string, part: string)
    requires s != "" && !(part <= s)
    ensures forall k :: At(s, part, k) ==> k >= 1 && At(s[1..], part, k - 1)
  {
    assert At(s, part, 0) ==> s[0..|part|] == s[..|part|];
    forall k | At(s, part, k) ensures k >= 1 && At(s[1..], part, k - 1) {
      assert k >= 1 ==> s[1..][k - 1..k - 1 + |part|] == s[k..k + |part|];
    }
  }

  /** The first place where `part` occurs, or -1. */
  function IndexOf(s: string, part: string): (i: int)
    ensures i == -1 || At(s, part, i)
    ensures forall k :: At(s, part, k) ==> 0 <= i <= k
  {
    if part <= s then assert At(s, part, 0); 0
    else if s == "" then -1
    else
      var rest := IndexOf(s[1..], part);
      assert forall k :: At(s, part, k) ==> k >= 1 && At(s[1..], part, k - 1) by { AtRest(s, part); }
      assert rest != -1 ==>
               At(s, part,
                  rest + 1) by { assert rest != -1 ==> s[1..][rest..rest + |part|] == s[rest + 1..rest + 1 + |part|]; }
      if rest == -1 then -1 else rest + 1
  }
}
