/** Splitting and joining of text, and decimal numbers. */
module Text {
  import opened Wrappers

  // ----- split and join -----

  function IndexOf(s: string, sep: char): (i: nat)
    requires sep in s
    ensures i < |s| && s[i] == sep && sep !in s[..i]
  {
    if s[0] == sep then 0
    else
      var i := IndexOf(s[1..], sep) + 1;
      assert s[..i] == [s[0]] + s[1..][..i - 1];
      i
  }

  /** All pieces between separators; there is always at least one. */
  function Split(s: string, sep: char): (r: seq<string>)
    ensures |r| > 0
    decreases |s|
  {
    if sep !in s then [s]
    else
      var i := IndexOf(s, sep);
      [s[..i]] + Split(s[i + 1..], sep)
  }

  function Join(parts: seq<string>, sep: char): string {
    if |parts| == 0 then ""
    else if |parts| == 1 then parts[0]
    else parts[0] + [sep] + Join(parts[1..], sep)
  }

  /** The text before the first separator, and what follows it if there is one. */
  function SplitOnce(s: string, sep: char): (string, Option<string>) {
    if sep !in s then (s, None)
    else
      var i := IndexOf(s, sep);
      (s[..i], Some(s[i + 1..]))
  }

  lemma FirstSeparator(a: string, sep: char, b: string)
    requires sep !in a
    ensures sep in a + [sep] + b && IndexOf(a + [sep] + b, sep) == |a|
    ensures (a + [sep] + b)[..|a|] == a && (a + [sep] + b)[|a| + 1..] == b
  {
    var s := a + [sep] + b;
    assert s[|a|] == sep && s[..|a|] == a;
    IndexUnique(s, sep, |a|);
  }

  lemma {:induction false} IndexUnique(s: string, sep: char, k: nat)
    requires k < |s| && s[k] == sep && sep !in s[..k]
    ensures IndexOf(s, sep) == k
  {
    if k > 0 {
      assert s[..k] == [s[0]] + s[1..][..k - 1];
      IndexUnique(s[1..], sep, k - 1);
    }
  }

  lemma SplitFirst(a: string, sep: char, b: string)
    requires sep !in a
    ensures Split(a + [sep] + b, sep) == [a] + Split(b, sep)
    ensures SplitOnce(a + [sep] + b, sep) == (a, Some(b))
  {
    FirstSeparator(a, sep, b);
  }

  /** Splitting undoes joining when there is a piece and no piece has the separator. */
  lemma {:induction false} SplitJoin(parts: seq<string>, sep: char)
    requires parts != [] && forall p :: p in parts ==> sep !in p
    ensures Split(Join(parts, sep), sep) == parts
  {
    if |parts| > 1 {
      SplitFirst(parts[0], sep, Join(parts[1..], sep));
      SplitJoin(parts[1..], sep);
    }
  }

  /** Joining undoes splitting, always. */
  lemma {:induction false} JoinSplit(s: string, sep: char)
    ensures Join(Split(s, sep), sep) == s
    decreases |s|
  {
    if sep in s {
      var i := IndexOf(s, sep);
      JoinSplit(s[i + 1..], sep);
      assert Split(s, sep)[1..] == Split(s[i + 1..], sep);
      assert s == s[..i] + [sep] + s[i + 1..];
    }
  }

  /** The pieces have no separator and only characters of the text. */
  lemma {:induction false} SplitClean(s: string, sep: char)
    ensures forall p :: p in Split(s, sep) ==> sep !in p && forall c :: c in p ==> c in s
    decreases |s|
  {
    if sep in s {
      var i := IndexOf(s, sep);
      SplitClean(s[i + 1..], sep);
    }
  }

  // ----- decimal numbers -----

  predicate IsDigit(c: char) {
    '0' <= c <= '9'
  }

  function DigitValue(c: char): (d: nat)
    requires IsDigit(c)
    ensures d < 10
  {
    c as int - '0' as int
  }

  function Digit(d: nat): (c: char)
    requires d < 10
    ensures IsDigit(c) && DigitValue(c) == d
  {
    ['0', '1', '2', '3', '4', '5', '6', '7', '8', '9'][d]
  }

  predicate AllDigits(s: string) {
    forall c :: c in s ==> IsDigit(c)
  }

  function Value(s: string): nat
    requires AllDigits(s)
  {
    if s == [] then 0 else 10 * Value(s[..|s| - 1]) + DigitValue(s[|s| - 1])
  }

  function Print(n: nat): string {
    if n < 10 then [Digit(n)] else Print(n / 10) + [Digit(n % 10)]
  }

  /** Reading back a printed number; it has no sign and no leading zero. */
  lemma {:induction false} PrintValue(n: nat)
    ensures AllDigits(Print(n)) && Value(Print(n)) == n && |Print(n)| > 0
    ensures |Print(n)| > 1 ==> Print(n)[0] != '0'
  {
    if n >= 10 {
      PrintValue(n / 10);
      var p := Print(n / 10);
      assert Print(n)[..|Print(n)| - 1] == p;
      assert |p| == 1 ==> Value(p[..0]) == 0;
    } else {
      assert Print(n)[..0] == "";
    }
  }

  lemma PrintTwo(n: nat)
    requires n < 100
    ensures |Print(n)| <= 2
  {}

  lemma PrintThree(n: nat)
    requires n < 1000
    ensures |Print(n)| <= 3
  {
    if n >= 10 {
      PrintTwo(n / 10);
    }
  }

  /** Printing what a digit string stands for never needs more characters, and gives the string
  itself when it has no leading zero. */
  lemma {:induction false} PrintOfValue(s: string)
    requires AllDigits(s) && s != []
    ensures |Print(Value(s))| <= |s|
    ensures |s| == 1 || s[0] != '0' ==> Print(Value(s)) == s
  {
    var init, d := s[..|s| - 1], DigitValue(s[|s| - 1]);
    assert Digit(d) == s[|s| - 1];
    if init == [] {
      assert Value(init) == 0;
    } else {
      assert AllDigits(init);
      PrintOfValue(init);
      var v := Value(init);
      assert (10 * v + d) / 10 == v && (10 * v + d) % 10 == d;
      if s[0] != '0' {
        PositiveValue(init);
      }
    }
  }

  lemma {:induction false} PositiveValue(s: string)
    requires AllDigits(s) && s != [] && s[0] != '0'
    ensures Value(s) > 0
  {
    if |s| > 1 {
      PositiveValue(s[..|s| - 1]);
    } else {
      assert s[..0] == "";
    }
  }
}
