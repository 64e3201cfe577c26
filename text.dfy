/** String helpers the handlers use: the conversation title built from a prompt,
    and decimal rendering of numbers inside URLs and one-time codes. */
module Text {

  /** `s.split(' ')`: the pieces between spaces, empty pieces included. */
  function Split(s: string): (parts: seq<string>)
    ensures |parts| == Spaces(s) + 1
    ensures forall i :: 0 <= i < |parts| ==> ' ' !in parts[i]
  {
    if s == [] then [""]
    else
      var rest := Split(s[1..]);
      if s[0] == ' ' then [""] + rest
      else [[s[0]] + rest[0]] + rest[1..]
  }

  /** `parts.join(' ')`. */
  function Join(parts: seq<string>): string {
    if |parts| == 0 then ""
    else if |parts| == 1 then parts[0]
    else parts[0] + " " + Join(parts[1..])
  }

  /** `xs.slice(0, n)`. */
  function Take<T>(xs: seq<T>, n: nat): (r: seq<T>)
    ensures |r| == if n < |xs| then n else |xs|
    ensures r <= xs
  {
    if n < |xs| then xs[..n] else xs
  }

  function Spaces(s: string): nat {
    if s == [] then 0 else (if s[0] == ' ' then 1 else 0) + Spaces(s[1..])
  }

  /** The reference reading of the title: the prompt cut just before its n-th space. */
  function BeforeNthSpace(s: string, n: nat): string
    requires n >= 1
  {
    if s == [] then ""
    else if s[0] == ' ' then (if n == 1 then "" else " " + BeforeNthSpace(s[1..], n - 1))
    else [s[0]] + BeforeNthSpace(s[1..], n)
  }

  /** The longest prefix of `s` with fewer than n spaces. */
  lemma {:induction false} BeforeNthSpaceShape(s: string, n: nat)
    requires n >= 1
    ensures BeforeNthSpace(s, n) <= s
    ensures Spaces(BeforeNthSpace(s, n)) == if Spaces(s) < n then Spaces(s) else n - 1
    ensures |BeforeNthSpace(s, n)| < |s| ==> s[|BeforeNthSpace(s, n)|] == ' '
  {
    if s != [] {
      var t := s[1..];
      assert s == [s[0]] + t;
      assert Spaces(s) == (if s[0] == ' ' then 1 else 0) + Spaces(t);
      if s[0] == ' ' {
        if n > 1 {
          var w := BeforeNthSpace(t, n - 1);
          BeforeNthSpaceShape(t, n - 1);
          assert BeforeNthSpace(s, n) == " " + w;
          assert [' '][1..] == [];
          PrefixSpaces(" ", w);
        }
      } else {
        var w := BeforeNthSpace(t, n);
        BeforeNthSpaceShape(t, n);
        assert BeforeNthSpace(s, n) == [s[0]] + w;
        assert [s[0]][1..] == [];
        PrefixSpaces([s[0]], w);
      }
    }
  }

  lemma {:induction false} PrefixSpaces(a: string, b: string)
    ensures Spaces(a + b) == Spaces(a) + Spaces(b)
  {
    if a != [] {
      var ab := a + b;
      assert ab[0] == a[0] && ab[1..] == a[1..] + b;
      PrefixSpaces(a[1..], b);
    } else {
      assert a + b == b;
    }
  }

  /** Splitting and joining on single spaces gives the string back. */
  lemma {:induction false} JoinSplit(s: string)
    ensures Join(Split(s)) == s
  {
    if s != [] {
      JoinSplit(s[1..]);
      JoinCons(s[0], Split(s[1..]));
    }
  }

  /** What the split of `c + s` joins to, for the two shapes `Split` gives it. */
  lemma {:induction false} JoinCons(c: char, rest: seq<string>)
    requires |rest| >= 1
    ensures c == ' ' ==> Join([""] + rest) == [c] + Join(rest)
    ensures c != ' ' ==> Join([[c] + rest[0]] + rest[1..]) == [c] + Join(rest)
  {
    if c != ' ' {
      var xs := [[c] + rest[0]] + rest[1..];
      assert xs[1..] == rest[1..];
    } else {
      assert ([""] + rest)[1..] == rest;
    }
  }

  /** Joining the first n pieces of a split is cutting before the n-th space. */
  lemma {:induction false} JoinTakeSplit(s: string, n: nat)
    requires n >= 1
    ensures Join(Take(Split(s), n)) == BeforeNthSpace(s, n)
  {
    if s != [] {
      var rest := Split(s[1..]);
      if s[0] == ' ' {
        if n > 1 {
          JoinTakeSplit(s[1..], n - 1);
          assert Take([""] + rest, n) == [""] + Take(rest, n - 1);
          JoinCons(' ', Take(rest, n - 1));
        } else {
          assert Take([""] + rest, n) == [""];
        }
      } else {
        JoinTakeSplit(s[1..], n);
        var t := Take(rest, n);
        assert Take([[s[0]] + rest[0]] + rest[1..], n) == [[s[0]] + t[0]] + t[1..];
        JoinCons(s[0], t);
      }
    }
  }

  /** The title a first prompt gives its conversation: its first seven
      space-separated words, joined by single spaces, then "...". */
  function Title(prompt: string): (t: string)
    ensures |t| >= 3 && t[|t| - 3..] == "..."
    ensures var words := t[..|t| - 3];
      && words <= prompt
      && Spaces(words) == (if Spaces(prompt) < 7 then Spaces(prompt) else 6)
      && (|words| < |prompt| ==> prompt[|words|] == ' ')
  {
    JoinTakeSplit(prompt, 7);
    BeforeNthSpaceShape(prompt, 7);
    var words := Join(Take(Split(prompt), 7));
    assert (words + "...")[..|words|] == words;
    words + "..."
  }

  function Digit(d: nat): char
    requires d < 10
    ensures '0' <= Digit(d) <= '9'
    ensures Digit(d) as int - '0' as int == d
  {
    ('0' as int + d) as char
  }

  predicate IsDigits(s: string) {
    forall i :: 0 <= i < |s| ==> '0' <= s[i] <= '9'
  }

  /** The number a string of decimal digits denotes. */
  function DigitsValue(s: string): nat
    requires IsDigits(s)
  {
    if s == [] then 0 else 10 * DigitsValue(s[..|s| - 1]) + (s[|s| - 1] as int - '0' as int)
  }

  /** `n.toString()` / template interpolation of a non-negative integer. */
  function Decimal(n: nat): (s: string)
    ensures |s| >= 1 && IsDigits(s)
  {
    if n < 10 then [Digit(n)] else Decimal(n / 10) + [Digit(n % 10)]
  }

  /** Decimal rendering is a faithful encoding: reading the digits back gives the number. */
  lemma {:induction false} DecimalRoundTrip(n: nat)
    ensures DigitsValue(Decimal(n)) == n
  {
    if n >= 10 {
      var q, r := n / 10, n % 10;
      DecimalRoundTrip(q);
      var s := Decimal(n);
      assert s == Decimal(q) + [Digit(r)];
      assert s[..|s| - 1] == Decimal(q);
      assert DigitsValue(s) == 10 * DigitsValue(Decimal(q)) + r;
      assert n == 10 * q + r;
    }
  }

  lemma DecimalInjective(m: nat, n: nat)
    requires Decimal(m) == Decimal(n)
    ensures m == n
  {
    DecimalRoundTrip(m);
    DecimalRoundTrip(n);
  }

  /** Four-digit numbers print as four characters. */
  lemma FourDigits(n: nat)
    requires 1000 <= n <= 9999
    ensures |Decimal(n)| == 4
  {
    var a, b, c := n / 10, n / 10 / 10, n / 10 / 10 / 10;
    assert 1 <= c < 10 && b >= 10 && a >= 10;
    assert |Decimal(c)| == 1;
    assert |Decimal(b)| == |Decimal(c)| + 1;
    assert |Decimal(a)| == |Decimal(b)| + 1;
  }
}
