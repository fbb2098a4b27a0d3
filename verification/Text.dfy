/** String facts the builders rest on: decimal printing (`%d`), `strings.Join`,
    `strings.Contains`, and the split of a line into space-separated words. */
module Text {

  predicate IsDigit(c: char) {
    '0' <= c <= '9'
  }

  /** What `%d` prints for a number that is not negative. */
  function Decimal(n: nat): (s: string)
    ensures s != [] && forall c | c in s :: IsDigit(c)
  {
    var d := ['0' + (n % 10) as char];
    if n < 10 then d else Decimal(n / 10) + d
  }

  /** Reads a run of digits back. */
  function DecimalValue(s: string): nat
    requires forall c | c in s :: IsDigit(c)
  {
    if s == [] then 0
    else
      assert IsDigit(s[|s| - 1]);
      10 * DecimalValue(s[..|s| - 1]) + (s[|s| - 1] - '0') as nat
  }

  /** Printing loses nothing. */
  lemma {:induction false} DecimalRoundTrip(n: nat)
    ensures DecimalValue(Decimal(n)) == n
  {
    var s := Decimal(n);
    if n < 10 {
      assert s[..0] == [];
    } else {
      DecimalRoundTrip(n / 10);
      assert s[..|s| - 1] == Decimal(n / 10);
    }
  }

  /** No leading zeros, unless the number is zero. */
  lemma {:induction false} NoLeadingZero(n: nat)
    ensures Decimal(n)[0] == '0' <==> n == 0
    ensures n == 0 ==> Decimal(n) == "0"
  {
    if n >= 10 {
      NoLeadingZero(n / 10);
    }
  }

  lemma {:induction false} ValuePositive(s: string)
    requires s != [] && (forall c | c in s :: IsDigit(c)) && s[0] != '0'
    ensures DecimalValue(s) > 0
  {
    assert IsDigit(s[|s| - 1]);
    if |s| > 1 {
      ValuePositive(s[..|s| - 1]);
    }
  }

  /** A digit printed: its value back. */
  lemma DigitPrinted(c: char)
    requires IsDigit(c)
    ensures '0' + ((c - '0') as int % 10) as char == c
  {
  }

  predicate Canonical(s: string) {
    s != [] && (forall c | c in s :: IsDigit(c)) && (s[0] == '0' ==> |s| == 1)
  }

  lemma {:induction false} CanonicalPrints(s: string)
    requires Canonical(s)
    ensures Decimal(DecimalValue(s)) == s
  {
    var k := |s| - 1;
    var front, last := s[..k], s[k];
    assert IsDigit(last) && s == front + [last];
    DigitPrinted(last);
    if k > 0 {
      ValuePositive(front);
      CanonicalPrints(front);
      Appended(DecimalValue(front), last);
    } else {
      assert front == [] && DecimalValue(front) == 0;
    }
  }

  lemma Appended(n: nat, last: char)
    requires n > 0 && IsDigit(last)
    ensures Decimal(10 * n + (last - '0') as nat) == Decimal(n) + [last]
  {
    var m := 10 * n + (last - '0') as nat;
    assert m / 10 == n && m % 10 == (last - '0') as int;
  }

  /** What is printed for n is the digits that read n, with no zero in front of others. */
  lemma DecimalIff(s: string, n: nat)
    ensures s == Decimal(n) <==> Canonical(s) && DecimalValue(s) == n
  {
    NoLeadingZero(n);
    DecimalRoundTrip(n);
    if Canonical(s) {
      CanonicalPrints(s);
    }
  }

  lemma DigitsFollow(a: string, i: nat, k: nat)
    requires |a| < k < |a + "-" + Decimal(i)|
    ensures IsDigit((a + "-" + Decimal(i))[k])
  {
    assert (a + "-" + Decimal(i))[k] == Decimal(i)[k - |a| - 1];
  }

  /** `a-i` determines both `a` and `i`, whatever dashes and digits `a` itself holds:
      the digits after the last dash are the number. */
  lemma DashedInjective(a: string, i: nat, b: string, j: nat)
    requires a + "-" + Decimal(i) == b + "-" + Decimal(j)
    ensures a == b && i == j
  {
    var x, y := a + "-" + Decimal(i), b + "-" + Decimal(j);
    assert x[|a|] == '-' && y[|b|] == '-';
    if |a| < |b| {
      DigitsFollow(a, i, |b|);
      assert false;
    }
    if |b| < |a| {
      DigitsFollow(b, j, |a|);
      assert false;
    }
    assert a == x[..|a|] == y[..|b|] == b;
    assert Decimal(i) == x[|a| + 1..] == y[|b| + 1..] == Decimal(j);
    DecimalRoundTrip(i);
    DecimalRoundTrip(j);
  }

  /** `strings.Join`. */
  function Join(xs: seq<string>, sep: string): string {
    if xs == [] then ""
    else if |xs| == 1 then xs[0]
    else xs[0] + sep + Join(xs[1..], sep)
  }

  /** `strings.Contains`. */
  predicate Contains(s: string, needle: string) {
    exists k | 0 <= k <= |s| :: OccursAt(s, needle, k)
  }

  predicate OccursAt(s: string, needle: string, k: nat) {
    k + |needle| <= |s| && s[k..k + |needle|] == needle
  }

  /** A needle without the separator is found in a joined line only inside one of its parts. */
  lemma {:induction false} ContainsJoin(xs: seq<string>, needle: string)
    requires needle != [] && ' ' !in needle
    ensures Contains(Join(xs, " "), needle) <==> exists x | x in xs :: Contains(x, needle)
  {
    if |xs| > 1 {
      ContainsJoin(xs[1..], needle);
      ContainsConcat(xs[0], Join(xs[1..], " "), needle);
      assert xs == [xs[0]] + xs[1..];
      assert Join(xs, " ") == xs[0] + " " + Join(xs[1..], " ");
    } else if |xs| == 1 {
      assert xs == [xs[0]];
    } else {
      assert !OccursAt("", needle, 0);
    }
  }

  lemma ContainsConcat(a: string, b: string, needle: string)
    requires needle != [] && ' ' !in needle
    ensures Contains(a + " " + b, needle) <==> Contains(a, needle) || Contains(b, needle)
  {
    var s := a + " " + b;
    forall k: nat | OccursAt(s, needle, k)
      ensures OccursAt(a, needle, k) || (k > |a| && OccursAt(b, needle, k - |a| - 1))
    {
      OccursInPart(a, b, needle, k);
    }
    if k :| 0 <= k <= |a| && OccursAt(a, needle, k) {
      OccursInWhole(a, b, needle, k);
    }
    if k :| 0 <= k <= |b| && OccursAt(b, needle, k) {
      OccursInWhole(a, b, needle, k);
    }
  }

  lemma OccursInPart(a: string, b: string, needle: string, k: nat)
    requires needle != [] && ' ' !in needle && OccursAt(a + " " + b, needle, k)
    ensures OccursAt(a, needle, k) || (k > |a| && OccursAt(b, needle, k - |a| - 1))
  {
    var s, n := a + " " + b, |needle|;
    assert s[|a|] == ' ';
    assert forall j | 0 <= j < n :: needle[j] == s[k + j] && needle[j] != ' ';
    if k + n <= |a| {
      assert s[k..k + n] == a[k..k + n];
    } else if k <= |a| {
      assert false;
    } else {
      assert forall j | 0 <= j < n :: needle[j] == b[k - |a| - 1 + j];
      assert b[k - |a| - 1..k - |a| - 1 + n] == needle;
    }
  }

  lemma OccursInWhole(a: string, b: string, needle: string, k: nat)
    ensures OccursAt(a, needle, k) ==> OccursAt(a + " " + b, needle, k)
    ensures OccursAt(b, needle, k) ==> OccursAt(a + " " + b, needle, |a| + 1 + k)
  {
    var s, n := a + " " + b, |needle|;
    assert k + n <= |a| ==> a[k..k + n] == s[k..k + n];
    assert k + n <= |b| ==> b[k..k + n] == s[|a| + 1 + k..|a| + 1 + k + n];
  }

  /* ---- words ---- */

  /** The longest prefix without a space. */
  function FirstWord(s: string): (w: string)
    ensures w <= s && ' ' !in w
    ensures |w| < |s| ==> s[|w|] == ' '
  {
    if s == [] || s[0] == ' ' then "" else [s[0]] + FirstWord(s[1..])
  }

  /** The words of a line: its maximal runs of characters other than spaces. */
  function Words(s: string): seq<string> {
    if s == [] then []
    else if s[0] == ' ' then Words(s[1..])
    else [FirstWord(s)] + Words(s[|FirstWord(s)|..])
  }

  function WordsOf(xs: seq<string>): seq<string> {
    if xs == [] then [] else Words(xs[0]) + WordsOf(xs[1..])
  }

  lemma {:induction false} FirstWordStops(a: string, b: string)
    ensures FirstWord(a + " " + b) == FirstWord(a)
  {
    var s := a + " " + b;
    if a != [] && a[0] != ' ' {
      assert s[1..] == a[1..] + " " + b;
      FirstWordStops(a[1..], b);
    }
  }

  lemma TakeFirstWord(a: string, b: string)
    requires a != [] && a[0] != ' '
    ensures Words(a + " " + b) == [FirstWord(a)] + Words(a[|FirstWord(a)|..] + " " + b)
  {
    FirstWordStops(a, b);
    assert (a + " " + b)[|FirstWord(a)|..] == a[|FirstWord(a)|..] + " " + b;
  }

  lemma DropSpace(a: string, b: string)
    requires a != [] && a[0] == ' '
    ensures Words(a + " " + b) == Words(a[1..] + " " + b)
  {
    assert (a + " " + b)[1..] == a[1..] + " " + b;
  }

  lemma WordsBehindSpace(b: string)
    ensures Words("" + " " + b) == Words(b)
  {
    assert ("" + " " + b)[1..] == b;
  }

  lemma WordsFrom(a: string)
    requires a != []
    ensures a[0] == ' ' ==> Words(a) == Words(a[1..])
    ensures a[0] != ' ' ==> Words(a) == [FirstWord(a)] + Words(a[|FirstWord(a)|..]) && FirstWord(a) != []
  {
  }

  lemma Regroup(x: seq<string>, y: seq<string>, z: seq<string>)
    ensures x + (y + z) == (x + y) + z
  {
  }

  /** A space separates words and adds none. */
  lemma {:induction false} WordsConcat(a: string, b: string)
    ensures Words(a + " " + b) == Words(a) + Words(b)
    decreases |a|
  {
    if a == [] {
      WordsBehindSpace(b);
    } else {
      WordsFrom(a);
      if a[0] == ' ' {
        DropSpace(a, b);
        WordsConcat(a[1..], b);
      } else {
        var rest := a[|FirstWord(a)|..];
        TakeFirstWord(a, b);
        WordsConcat(rest, b);
        Regroup([FirstWord(a)], Words(rest), Words(b));
      }
    }
  }

  lemma {:induction false} WordsJoin(xs: seq<string>)
    ensures Words(Join(xs, " ")) == WordsOf(xs)
  {
    if |xs| > 1 {
      WordsConcat(xs[0], Join(xs[1..], " "));
      WordsJoin(xs[1..]);
    } else if |xs| == 1 {
      assert WordsOf(xs) == Words(xs[0]) + WordsOf([]);
    }
  }

  lemma {:induction false} OneWord(w: string)
    requires w != [] && ' ' !in w
    ensures Words(w) == [w]
  {
    assert FirstWord(w) == w;
    assert w[|w|..] == [];
  }
}
