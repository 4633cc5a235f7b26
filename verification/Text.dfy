/** Strings as the Go and Rust standard libraries see them, as far as the model needs. */
module Text {

  /** The Unicode White_Space property, which both languages trim. */
  predicate IsSpace(c: char) {
    var n := c as int;
    (0x09 <= n <= 0x0D) || n == 0x20 || n == 0x85 || n == 0xA0 || n == 0x1680 || (0x2000 <= n <= 0x200A)
    || n == 0x2028 || n == 0x2029 || n == 0x202F || n == 0x205F || n == 0x3000
  }

  function TrimStart(s: string): string {
    if s != [] && IsSpace(s[0]) then TrimStart(s[1..]) else s
  }

  function TrimEnd(s: string): string {
    if s != [] && IsSpace(s[|s| - 1]) then TrimEnd(s[..|s| - 1]) else s
  }

  function Trim(s: string): string { TrimEnd(TrimStart(s)) }

  /** Text that begins and ends with something other than white space is left as it is. */
  lemma TrimNoop(s: string)
    requires s != [] && !IsSpace(s[0]) && !IsSpace(s[|s| - 1])
    ensures Trim(s) == s
  {
  }

  lemma {:induction false} TrimEndEnds(s: string)
    ensures TrimEnd(s) <= s
    ensures TrimEnd(s) != [] ==> !IsSpace(TrimEnd(s)[|TrimEnd(s)| - 1])
  {
    if s != [] && IsSpace(s[|s| - 1]) { TrimEndEnds(s[..|s| - 1]); }
  }

  lemma {:induction false} TrimStartStarts(s: string)
    ensures TrimStart(s) != [] ==> !IsSpace(TrimStart(s)[0])
  {
    if s != [] && IsSpace(s[0]) { TrimStartStarts(s[1..]); }
  }

  lemma TrimIdempotent(s: string)
    ensures Trim(Trim(s)) == Trim(s)
  {
    TrimStartStarts(s);
    TrimEndEnds(TrimStart(s));
    if Trim(s) != [] { TrimNoop(Trim(s)); }
  }

  predicate AllSpace(s: string) { forall c :: c in s ==> IsSpace(c) }

  lemma {:induction false} TrimStartCuts(s: string) returns (k: nat)
    ensures k <= |s| && AllSpace(s[..k]) && TrimStart(s) == s[k..]
  {
    hide IsSpace;
    if s != [] && IsSpace(s[0]) {
      k := TrimStartCuts(s[1..]);
      assert s[..k + 1] == [s[0]] + s[1..][..k] && s[k + 1..] == s[1..][k..];
      k := k + 1;
    } else {
      k := 0;
    }
  }

  lemma {:induction false} TrimEndCuts(s: string) returns (k: nat)
    ensures k <= |s| && AllSpace(s[k..]) && TrimEnd(s) == s[..k]
  {
    hide IsSpace;
    var n := |s| - 1;
    if s != [] && IsSpace(s[n]) {
      k := TrimEndCuts(s[..n]);
      assert s[k..] == s[..n][k..] + [s[n]] && s[..k] == s[..n][..k];
    } else {
      k := |s|;
    }
  }

  /** Trimming takes off white space at both ends, all of it and nothing else. */
  lemma TrimExact(s: string) returns (i: nat, j: nat)
    ensures i <= j <= |s| && AllSpace(s[..i]) && AllSpace(s[j..]) && Trim(s) == s[i..j]
    ensures Trim(s) != [] ==> !IsSpace(Trim(s)[0]) && !IsSpace(Trim(s)[|Trim(s)| - 1])
  {
    hide IsSpace, AllSpace, TrimStart, TrimEnd;
    TrimStartStarts(s);
    TrimEndEnds(TrimStart(s));
    i := TrimStartCuts(s);
    var k := TrimEndCuts(s[i..]);
    j := i + k;
    assert s[j..] == s[i..][k..] && s[i..j] == s[i..][..k];
  }

  lemma SpacesAre()
    ensures AllSpace(" \t\n\r") && !IsSpace('a') && !IsSpace('0') && !IsSpace(':') && !IsSpace('-')
  {
    var s := " \t\n\r";
    assert s == [' ', '\t', '\n', '\r'];
  }

  lemma {:induction false} TrimStartSkips(a: string, s: string)
    requires AllSpace(a)
    ensures TrimStart(a + s) == TrimStart(s)
  {
    hide IsSpace;
    if a == [] { assert a + s == s; }
    else {
      assert IsSpace(a[0]) && (a + s)[1..] == a[1..] + s && (a + s)[0] == a[0];
      TrimStartSkips(a[1..], s);
    }
  }

  lemma {:induction false} TrimEndSkips(s: string, b: string)
    requires AllSpace(b)
    ensures TrimEnd(s + b) == TrimEnd(s)
    decreases |b|
  {
    hide IsSpace;
    if b == [] { assert s + b == s; }
    else {
      var n := |b| - 1;
      assert IsSpace(b[n]) && (s + b)[..|s + b| - 1] == s + b[..n] && (s + b)[|s + b| - 1] == b[n];
      TrimEndSkips(s, b[..n]);
    }
  }

  lemma {:induction false} TrimStartBefore(s: string, b: string)
    requires TrimStart(s) != []
    ensures TrimStart(s + b) == TrimStart(s) + b
  {
    hide IsSpace;
    assert (s + b)[0] == s[0] && (s + b)[1..] == s[1..] + b;
    if IsSpace(s[0]) { TrimStartBefore(s[1..], b); }
  }

  lemma {:induction false} OnlySpace(s: string)
    requires TrimStart(s) == []
    ensures AllSpace(s)
  {
    hide IsSpace;
    if s != [] { OnlySpace(s[1..]); }
  }

  /** White space around text makes no difference to what is left. */
  lemma PaddingIgnored(a: string, s: string, b: string)
    requires AllSpace(a) && AllSpace(b)
    ensures Trim(a + s + b) == Trim(s)
  {
    hide IsSpace, TrimStart, TrimEnd, AllSpace;
    assert a + s + b == a + (s + b);
    TrimStartSkips(a, s + b);
    if TrimStart(s) == [] {
      OnlySpace(s);
      BothSpace(s, b);
      TrimStartSkips(s + b, []);
      TrimStartSkips(s, []);
      assert s + b + [] == s + b && s + [] == s;
    } else {
      TrimStartBefore(s, b);
      TrimEndSkips(TrimStart(s), b);
    }
  }

  lemma BothSpace(a: string, b: string)
    requires AllSpace(a) && AllSpace(b)
    ensures AllSpace(a + b)
  {
    hide IsSpace;
  }
}
