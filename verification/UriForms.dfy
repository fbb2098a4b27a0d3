/** What the URI rules admit, in terms of characters and positions alone: the same sources without a
    regular expression. */
module UriForms {
  import opened Api
  import opened Text
  import opened Regex
  import opened ModelUri

  /* ---- characters ---- */

  predicate IsLetter(c: char) {
    'a' <= c <= 'z' || 'A' <= c <= 'Z'
  }

  predicate IsLetterOrDigit(c: char) {
    IsLetter(c) || '0' <= c <= '9'
  }

  predicate IsLowerOrDigit(c: char) {
    'a' <= c <= 'z' || '0' <= c <= '9'
  }

  /* ---- the parts of a source ---- */

  /** Letters, digits, dots and hyphens, at least one. */
  predicate IsHost(s: string) {
    s != "" && forall i | 0 <= i < |s| :: IsLetterOrDigit(s[i]) || s[i] == '.' || s[i] == '-'
  }

  predicate IsPort(s: string) {
    s != "" && forall i | 0 <= i < |s| :: '0' <= s[i] <= '9'
  }

  /** A lower-case name with separators inside: single dots, one or two underscores, any number of
      hyphens, each between letters or digits. */
  predicate IsComponent(s: string) {
    && s != "" && IsLowerOrDigit(s[0]) && IsLowerOrDigit(s[|s| - 1])
    && forall i | 0 < i < |s| - 1 :: MayStand(s[i - 1], s[i], s[i + 1])
  }

  predicate MayStand(before: char, c: char, after: char) {
    || IsLowerOrDigit(c)
    || (c == '.' && IsLowerOrDigit(before) && IsLowerOrDigit(after))
    || (c == '-' && (IsLowerOrDigit(before) || before == '-') && (IsLowerOrDigit(after) || after == '-'))
    || (c == '_' && IsLowerOrDigit(before) && (IsLowerOrDigit(after) || after == '_'))
    || (c == '_' && before == '_' && IsLowerOrDigit(after))
  }

  /** Every piece between slashes is a component. */
  predicate IsRepository(s: string) {
    forall i, j | 0 <= i <= j <= |s| && IsSegment(s, i, j) :: IsComponent(s[i..j])
  }

  /** 1 to 128 letters, digits, underscores, dots and hyphens, neither of the last two in front. */
  predicate IsTag(s: string) {
    && 1 <= |s| <= 128 && s[0] != '.' && s[0] != '-'
    && forall i | 0 <= i < |s| :: IsLetterOrDigit(s[i]) || s[i] == '_' || s[i] == '.' || s[i] == '-'
  }

  predicate IsDigest(s: string) {
    |s| == 64 && forall i | 0 <= i < |s| :: '0' <= s[i] <= '9' || 'a' <= s[i] <= 'f'
  }

  predicate IsNameText(s: string) {
    s != "" && forall i | 0 <= i < |s| :: IsLetterOrDigit(s[i]) || s[i] == '.' || s[i] == '_' || s[i] == '-'
  }

  /** A name that begins and ends with a letter or digit. */
  predicate IsHfName(s: string) {
    IsNameText(s) && IsLetterOrDigit(s[0]) && IsLetterOrDigit(s[|s| - 1])
  }

  predicate IsRevision(s: string) {
    forall i, j | 0 <= i <= j <= |s| && IsSegment(s, i, j) :: IsNameText(s[i..j])
  }

  predicate IsBucket(s: string) {
    s != "" && '/' !in s && '@' !in s && ':' !in s
  }

  /** No piece between slashes is empty. */
  predicate IsPrefix(s: string) {
    forall i, j | 0 <= i <= j <= |s| && IsSegment(s, i, j) :: s[i..j] != ""
  }

  predicate IsSource(src: Source) {
    match src
    case HuggingFace(owner, repo, revision) =>
      IsHfName(owner) && IsHfName(repo) && (revision.Some? ==> IsRevision(revision.value))
    case Bucket(bucket, prefix) => IsBucket(bucket) && IsPrefix(prefix)
    case Registry(host, port, repository, version) =>
      && IsHost(host) && (port.Some? ==> IsPort(port.value)) && IsRepository(repository)
      && (version.Tagged? ==> IsTag(version.tag)) && (version.Pinned? ==> IsDigest(version.digest))
  }

  /** How a source is written. */
  function Spelled(src: Source): string {
    match src
    case HuggingFace(owner, repo, None) => "hf://" + owner + "/" + repo
    case HuggingFace(owner, repo, Some(revision)) => "hf://" + owner + "/" + repo + "@" + revision
    case Bucket(bucket, prefix) => "s3://" + bucket + "/" + prefix
    case Registry(host, port, repository, version) =>
      "oci://" + host + (if port.Some? then ":" + port.value else "") + "/" + repository
      + (if version.Tagged? then ":" + version.tag else if version.Pinned? then "@sha256:" + version.digest else "")
  }

  /** What is asked of every URI, whatever its scheme: up to 2048 characters out of a fixed set, no dot
      segment behind a slash, and no encoded dot or slash. */
  predicate IsPlainUri(uri: string) {
    && |uri| <= 2048
    && (forall i | 0 <= i < |uri| :: IsLetterOrDigit(uri[i]) || uri[i] in "._~:/@!$&()*+,;=%-")
    && (forall i, j | 0 < i <= j <= |uri| && IsSegment(uri, i, j) :: uri[i..j] != "." && uri[i..j] != "..")
    && (forall i | 0 <= i < |uri| - 2 && uri[i] == '%' && uri[i + 1] == '2' :: uri[i + 2] !in "eEfF")
  }

  predicate HasTwoDots(uri: string) {
    exists i | 0 <= i < |uri| - 1 :: uri[i] == '.' && uri[i + 1] == '.'
  }

  /* ---- pieces between slashes ---- */

  /** r, or several of it with slashes between. */
  function SlashSeparated(r: Re): Re {
    Cat(r, Star(Cat(Word("/"), r)))
  }

  ghost predicate PiecesMatch(r: Re, s: string) {
    forall i, j | 0 <= i <= j <= |s| && IsSegment(s, i, j) :: Matches(r, s[i..j])
  }

  /** The position of the first slash, or the end. */
  function SlashIn(s: string): (k: nat)
    ensures k <= |s| && '/' !in s[..k] && (k < |s| ==> s[k] == '/')
  {
    if s == "" || s[0] == '/' then 0
    else
      assert s[..1 + SlashIn(s[1..])] == [s[0]] + s[1..][..SlashIn(s[1..])];
      1 + SlashIn(s[1..])
  }

  /** Splitting off the first piece. */
  lemma PiecesSplit(r: Re, a: string, t: string)
    requires '/' !in a
    ensures PiecesMatch(r, a + "/" + t) <==> Matches(r, a) && PiecesMatch(r, t)
  {
    var s, k := a + "/" + t, |a| + 1;
    assert s[..|a|] == a && s[|a|] == '/' && s[k..] == t;
    if PiecesMatch(r, s) {
      assert IsSegment(s, 0, |a|) && s[0..|a|] == a;
      forall i, j | 0 <= i <= j <= |t| && IsSegment(t, i, j)
        ensures Matches(r, t[i..j])
      {
        assert s[k + i..k + j] == t[i..j];
        assert IsSegment(s, k + i, k + j);
      }
    }
    if Matches(r, a) && PiecesMatch(r, t) {
      forall i, j | 0 <= i <= j <= |s| && IsSegment(s, i, j)
        ensures Matches(r, s[i..j])
      {
        PieceIsIn(a, t, s, i, j);
      }
    }
  }

  lemma PieceIsIn(a: string, t: string, s: string, i: nat, j: nat)
    requires '/' !in a && s == a + "/" + t && IsSegment(s, i, j)
    ensures || (i == 0 && j == |a| && s[i..j] == a)
            || (i > |a| && IsSegment(t, i - |a| - 1, j - |a| - 1) && s[i..j] == t[i - |a| - 1..j - |a| - 1])
  {
    if i <= |a| {
      FirstPiece(a, t, s, i, j);
    } else {
      LaterPiece(a, t, s, i, j);
    }
  }

  lemma FirstPiece(a: string, t: string, s: string, i: nat, j: nat)
    requires '/' !in a && s == a + "/" + t && IsSegment(s, i, j) && i <= |a|
    ensures i == 0 && j == |a| && s[i..j] == a
  {
    assert s[|a|] == '/';
    assert forall n | 0 <= n < |a| :: s[n] == a[n] && a[n] != '/';
    assert forall n | i <= n < j :: s[n] == s[i..j][n - i] && s[n] != '/';
    assert s[..|a|] == a;
  }

  lemma LaterPiece(a: string, t: string, s: string, i: nat, j: nat)
    requires s == a + "/" + t && IsSegment(s, i, j) && i > |a|
    ensures IsSegment(t, i - |a| - 1, j - |a| - 1) && s[i..j] == t[i - |a| - 1..j - |a| - 1]
  {
    var k := |a| + 1;
    assert s[k..] == t;
    SlicesAgree(s, k, i - k, j - k);
    assert i > k ==> t[i - k - 1] == s[i - 1];
    assert j < |s| ==> t[j - k] == s[j];
  }

  lemma SlicesAgree(s: string, k: nat, i: nat, j: nat)
    requires k <= |s| && i <= j <= |s| - k
    ensures s[k..][i..j] == s[k + i..k + j]
  {
  }

  lemma PiecesOfOne(r: Re, s: string)
    requires '/' !in s
    ensures PiecesMatch(r, s) <==> Matches(r, s)
  {
    assert s[0..|s|] == s;
    if Matches(r, s) {
      forall i, j | 0 <= i <= j <= |s| && IsSegment(s, i, j)
        ensures Matches(r, s[i..j])
      {
        assert i == 0 && j == |s|;
      }
    }
  }

  /** A slash-separated match falls into its first piece and the rest, */
  lemma SlashParts(r: Re, s: string)
    requires Matches(SlashSeparated(r), s) && Avoids(r, '/')
    ensures var k := SlashIn(s); Matches(r, s[..k]) && (k < |s| ==> Matches(SlashSeparated(r), s[k + 1..]))
  {
    var more := Star(Cat(Word("/"), r));
    var x, y := Parts(r, more, s);
    AvoidsMeans(r, x, '/');
    if y == "" {
      assert s == x;
      FirstSlash(s, x, "");
    } else {
      var z, y' := StarParts(r, y);
      assert y == "/" + (z + y');
      FirstSlash(s, x, z + y');
      Joined(r, more, z, y');
    }
  }

  lemma SlashPlace(s: string, k: nat, x: string, rest: string)
    requires k <= |s| && '/' !in s[..k] && (k < |s| ==> s[k] == '/')
    requires '/' !in x && (s == x || s == x + ("/" + rest))
    ensures k == |x|
  {
    assert forall n | 0 <= n < k :: s[n] == s[..k][n] && s[n] != '/';
    assert forall n | 0 <= n < |x| :: s[n] == x[n] && x[n] != '/';
    assert s != x ==> s[|x|] == '/';
  }

  lemma FirstSlash(s: string, x: string, rest: string)
    requires '/' !in x && (s == x || s == x + ("/" + rest))
    ensures s[..SlashIn(s)] == x
    ensures s != x ==> SlashIn(s) < |s| && s[SlashIn(s) + 1..] == rest
  {
    SlashPlace(s, SlashIn(s), x, rest);
    AroundSlash(s, SlashIn(s), x, rest);
  }

  lemma AroundSlash(s: string, k: nat, x: string, rest: string)
    requires k == |x| && (s == x || s == x + ("/" + rest))
    ensures s[..k] == x && (s != x ==> k < |s| && s[k + 1..] == rest)
  {
  }

  lemma StarParts(r: Re, y: string) returns (z: string, y': string)
    requires y != "" && Matches(Star(Cat(Word("/"), r)), y)
    ensures y == "/" + (z + y') && Matches(r, z) && Matches(Star(Cat(Word("/"), r)), y')
  {
    var step := Cat(Word("/"), r);
    var k :| 0 < k <= |y| && Matches(step, y[..k]) && Matches(Star(step), y[k..]);
    var slash: string;
    slash, z := Parts(Word("/"), r, y[..k]);
    y' := y[k..];
    assert y == y[..k] + y[k..];
  }

  lemma SlashJoins(r: Re, a: string, t: string)
    requires Matches(r, a) && Matches(SlashSeparated(r), t)
    ensures Matches(SlashSeparated(r), a + ("/" + t))
  {
    var step := Cat(Word("/"), r);
    var z, y := Parts(r, Star(step), t);
    Joined(Word("/"), r, "/", z);
    StarJoins(step, "/" + z, y);
    assert "/" + z + y == "/" + t;
    Joined(r, Star(step), a, "/" + t);
  }

  lemma StarJoins(step: Re, x: string, y: string)
    requires x != "" && Matches(step, x) && Matches(Star(step), y)
    ensures Matches(Star(step), x + y)
  {
    assert (x + y)[..|x|] == x && (x + y)[|x|..] == y;
  }

  /** The expression for slash-separated text asks exactly that each piece match. */
  lemma {:induction false} PiecesIff(r: Re, s: string)
    requires Avoids(r, '/')
    ensures Matches(SlashSeparated(r), s) <==> PiecesMatch(r, s)
    decreases |s|
  {
    var k := SlashIn(s);
    if k < |s| {
      var a, t := s[..k], s[k + 1..];
      assert s == a + "/" + t && s == a + ("/" + t);
      PiecesSplit(r, a, t);
      PiecesIff(r, t);
      if Matches(SlashSeparated(r), s) {
        SlashParts(r, s);
      }
      if PiecesMatch(r, s) {
        SlashJoins(r, a, t);
      }
    } else {
      assert s[..k] == s;
      PiecesOfOne(r, s);
      if Matches(SlashSeparated(r), s) {
        SlashParts(r, s);
      }
      if Matches(r, s) {
        Joined(r, Star(Cat(Word("/"), r)), s, "");
        assert s + "" == s;
      }
    }
  }

  /* ---- components ---- */

  const SEPARATOR := Alt(Word("."), Alt(Word("__"), Alt(Word("_"), Plus(Hyphen))))

  predicate IsSeparator(s: string) {
    s == "." || s == "_" || s == "__" || (s != "" && forall i | 0 <= i < |s| :: s[i] == '-')
  }

  predicate LowRun(s: string) {
    s != "" && forall i | 0 <= i < |s| :: IsLowerOrDigit(s[i])
  }

  lemma SeparatorIff(s: string)
    ensures Matches(SEPARATOR, s) <==> IsSeparator(s)
  {
    assert Matches(Alt(Word("_"), Plus(Hyphen)), s) <==> s == "_" || Matches(Plus(Hyphen), s);
    assert Matches(Alt(Word("__"), Alt(Word("_"), Plus(Hyphen))), s) <==> s == "__" || Matches(Alt(Word("_"), Plus(Hyphen)), s);
  }

  lemma LowRunIff(s: string)
    ensures Matches(Plus(LowerNum), s) <==> LowRun(s)
  {
  }

  lemma LowRunIsComponent(x: string)
    requires LowRun(x)
    ensures IsComponent(x)
  {
  }

  lemma Prepends(s: string, b: nat)
    requires 0 < b < |s| && IsComponent(s[b..]) && IsLowerOrDigit(s[0])
    requires forall i | 0 < i < b :: MayStand(s[i - 1], s[i], s[i + 1])
    ensures IsComponent(s)
  {
    var w := s[b..];
    assert forall i | b <= i < |s| :: s[i] == w[i - b];
    forall i | b < i < |s| - 1
      ensures MayStand(s[i - 1], s[i], s[i + 1])
    {
      assert MayStand(w[i - b - 1], w[i - b], w[i - b + 1]);
    }
  }

  lemma SeparatorStands(s: string, a: nat, b: nat)
    requires 0 < a < b < |s| && IsSeparator(s[a..b]) && IsLowerOrDigit(s[a - 1]) && IsLowerOrDigit(s[b])
    ensures forall i | a <= i < b :: MayStand(s[i - 1], s[i], s[i + 1])
  {
    var sep := s[a..b];
    assert forall i | a <= i < b :: s[i] == sep[i - a];
  }

  lemma GlueAt(s: string, a: nat, b: nat)
    requires 0 < a < b < |s| && LowRun(s[..a]) && IsSeparator(s[a..b]) && IsComponent(s[b..])
    ensures IsComponent(s)
  {
    assert s[b] == s[b..][0];
    assert forall i | 0 <= i < a :: s[i] == s[..a][i];
    SeparatorStands(s, a, b);
    Prepends(s, b);
  }

  lemma ThreeParts(x: string, y: string, z: string, s: string)
    requires s == x + (y + z)
    ensures |s| == |x| + |y| + |z| && s[..|x|] == x && s[|x|..|x| + |y|] == y && s[|x| + |y|..] == z
  {
  }

  /** A name, a separator and a component make a component. */
  lemma Glue(x: string, sep: string, w: string, s: string)
    requires LowRun(x) && IsSeparator(sep) && IsComponent(w) && s == x + (sep + w)
    ensures IsComponent(s)
  {
    ThreeParts(x, sep, w, s);
    GlueAt(s, |x|, |x| + |sep|);
  }

  lemma {:induction false} TailIsComponent(x: string, y: string)
    requires LowRun(x) && Matches(Star(Cat(SEPARATOR, Plus(LowerNum))), y)
    ensures IsComponent(x + y)
    decreases |y|
  {
    if y == "" {
      assert x + y == x;
      LowRunIsComponent(x);
    } else {
      var sep, low, y' := TailParts(y);
      SeparatorIff(sep);
      LowRunIff(low);
      TailIsComponent(low, y');
      Glue(x, sep, low + y', x + y);
    }
  }

  lemma TailParts(y: string) returns (sep: string, low: string, y': string)
    requires y != "" && Matches(Star(Cat(SEPARATOR, Plus(LowerNum))), y)
    ensures y == sep + (low + y') && |y'| < |y|
    ensures Matches(SEPARATOR, sep) && Matches(Plus(LowerNum), low) && Matches(Star(Cat(SEPARATOR, Plus(LowerNum))), y')
  {
    var step := Cat(SEPARATOR, Plus(LowerNum));
    var k :| 0 < k <= |y| && Matches(step, y[..k]) && Matches(Star(step), y[k..]);
    sep, low := Parts(SEPARATOR, Plus(LowerNum), y[..k]);
    y' := y[k..];
    assert y == y[..k] + y[k..];
  }

  /** The length of the run of lower-case letters and digits from a on. */
  function LowEnd(s: string, a: nat): (e: nat)
    requires a <= |s|
    ensures a <= e <= |s| && (forall i | a <= i < e :: IsLowerOrDigit(s[i])) && (e < |s| ==> !IsLowerOrDigit(s[e]))
    decreases |s| - a
  {
    if a == |s| || !IsLowerOrDigit(s[a]) then a else LowEnd(s, a + 1)
  }

  function HyphenEnd(s: string, a: nat): (e: nat)
    requires a <= |s|
    ensures a <= e <= |s| && (forall i | a <= i < e :: s[i] == '-') && (e < |s| ==> s[e] != '-')
    decreases |s| - a
  {
    if a == |s| || s[a] != '-' then a else HyphenEnd(s, a + 1)
  }

  /** Where the separator at position a of a component ends. */
  lemma SeparatorAt(s: string, a: nat) returns (b: nat)
    requires IsComponent(s) && 0 < a < |s| && IsLowerOrDigit(s[a - 1]) && !IsLowerOrDigit(s[a])
    ensures a < b < |s| && IsSeparator(s[a..b]) && IsLowerOrDigit(s[b])
  {
    assert MayStand(s[a - 1], s[a], s[a + 1]);
    if s[a] == '-' {
      b := HyphensAt(s, a);
    } else if s[a] == '.' || s[a + 1] != '_' {
      b := a + 1;
      assert s[a..b] == [s[a]];
    } else {
      b := a + 2;
      assert MayStand(s[a], s[a + 1], s[a + 2]);
      assert s[a..b] == [s[a], s[a + 1]] == "__";
    }
  }

  lemma HyphensAt(s: string, a: nat) returns (b: nat)
    requires IsComponent(s) && 0 < a < |s| && s[a] == '-'
    ensures a < b < |s| && IsSeparator(s[a..b]) && IsLowerOrDigit(s[b])
  {
    b := HyphenEnd(s, a);
    assert s[b - 1] == '-';
    assert b < |s|;
    assert MayStand(s[b - 2], s[b - 1], s[b]);
    assert forall i | 0 <= i < b - a :: s[a..b][i] == s[a + i];
  }

  lemma RestIsComponent(s: string, b: nat)
    requires IsComponent(s) && 0 < b < |s| && IsLowerOrDigit(s[b])
    ensures IsComponent(s[b..])
  {
    var w := s[b..];
    assert forall i | 0 <= i < |w| :: w[i] == s[b + i];
    forall i | 0 < i < |w| - 1
      ensures MayStand(w[i - 1], w[i], w[i + 1])
    {
      assert MayStand(s[b + i - 1], s[b + i], s[b + i + 1]);
    }
  }

  lemma MoreTail(sep: string, low: string, y': string, y: string)
    requires IsSeparator(sep) && Matches(Plus(LowerNum), low) && Matches(Star(Cat(SEPARATOR, Plus(LowerNum))), y')
    requires y == sep + (low + y')
    ensures Matches(Star(Cat(SEPARATOR, Plus(LowerNum))), y)
  {
    SeparatorIff(sep);
    Assoc(sep, low, y');
    StepJoins(sep + low, sep, low);
    StarJoins(Cat(SEPARATOR, Plus(LowerNum)), sep + low, y');
  }

  lemma Assoc(a: string, b: string, c: string)
    ensures a + (b + c) == (a + b) + c
  {
  }

  lemma StepJoins(step: string, sep: string, low: string)
    requires Matches(SEPARATOR, sep) && Matches(Plus(LowerNum), low) && step == sep + low
    ensures step != "" && Matches(Cat(SEPARATOR, Plus(LowerNum)), step)
  {
    Joined(SEPARATOR, Plus(LowerNum), sep, low);
  }

  lemma LowRunOf(s: string, a: nat)
    requires IsComponent(s) && a == LowEnd(s, 0)
    ensures LowRun(s[..a]) && Matches(Plus(LowerNum), s[..a])
  {
    assert forall i | 0 <= i < a :: s[..a][i] == s[i];
    LowRunIff(s[..a]);
  }

  /** What follows the first run of a component is a sequence of separators and runs. */
  lemma {:induction false} TailMatches(s: string, a: nat)
    requires IsComponent(s) && a == LowEnd(s, 0)
    ensures Matches(Star(Cat(SEPARATOR, Plus(LowerNum))), s[a..])
    decreases |s|
  {
    if a < |s| {
      var b := SeparatorAt(s, a);
      var w := s[b..];
      RestIsComponent(s, b);
      var c := LowEnd(w, 0);
      LowRunOf(w, c);
      TailMatches(w, c);
      TailStep(s, a, b, c);
    }
  }

  lemma TailStep(s: string, a: nat, b: nat, c: nat)
    requires a < b < |s| && c <= |s| - b && IsSeparator(s[a..b])
    requires Matches(Plus(LowerNum), s[b..][..c]) && Matches(Star(Cat(SEPARATOR, Plus(LowerNum))), s[b..][c..])
    ensures Matches(Star(Cat(SEPARATOR, Plus(LowerNum))), s[a..])
  {
    var w := s[b..];
    assert w == w[..c] + w[c..];
    assert s[a..] == s[a..b] + w;
    MoreTail(s[a..b], w[..c], w[c..], s[a..]);
  }

  lemma ComponentIff(s: string)
    ensures Matches(COMPONENT, s) <==> IsComponent(s)
  {
    if Matches(COMPONENT, s) {
      var x, y := Parts(Plus(LowerNum), Star(Cat(SEPARATOR, Plus(LowerNum))), s);
      LowRunIff(x);
      TailIsComponent(x, y);
    }
    if IsComponent(s) {
      var a := LowEnd(s, 0);
      LowRunOf(s, a);
      TailMatches(s, a);
      RunAndTail(s, a);
    }
  }

  lemma RunAndTail(s: string, a: nat)
    requires a <= |s| && Matches(Plus(LowerNum), s[..a]) && Matches(Star(Cat(SEPARATOR, Plus(LowerNum))), s[a..])
    ensures Matches(COMPONENT, s)
  {
    assert s == s[..a] + s[a..];
    Joined(Plus(LowerNum), Star(Cat(SEPARATOR, Plus(LowerNum))), s[..a], s[a..]);
  }

  /* ---- the parts and their expressions ---- */

  lemma HostIff(s: string)
    ensures Matches(HOST, s) <==> IsHost(s)
  {
  }

  lemma PortIff(s: string)
    ensures Matches(PORT, s) <==> IsPort(s)
  {
  }

  lemma DigestIff(s: string)
    ensures Matches(DIGEST, s) <==> IsDigest(s)
  {
  }

  lemma BucketIff(s: string)
    ensures Matches(BUCKET, s) <==> IsBucket(s)
  {
  }

  lemma NameTextIff(s: string)
    ensures Matches(Plus(NameChar), s) <==> IsNameText(s)
  {
  }

  lemma TagIff(s: string)
    ensures Matches(TAG, s) <==> IsTag(s)
  {
    var first, more := Chars(AlphaNumUnder, 1, AtMost(1)), Chars(NameChar, 0, AtMost(127));
    if Matches(TAG, s) {
      var x, y := Parts(first, more, s);
      assert forall i | 0 <= i < |s| :: s[i] == if i == 0 then x[0] else y[i - 1];
    }
    if IsTag(s) {
      Joined(first, more, s[..1], s[1..]);
      assert s == s[..1] + s[1..];
    }
  }

  lemma HfNameIff(s: string)
    ensures Matches(HF_NAME, s) <==> IsHfName(s)
  {
    if Matches(HF_NAME, s) {
      var x, y := Parts(Chars(AlphaNum, 1, AtMost(1)), HF_MORE, s);
      if y != "" {
        HfMoreParts(x, y, s);
      }
    }
    if IsHfName(s) {
      HfNameMatches(s);
    }
  }

  /** ([A-Za-z0-9._-]*[A-Za-z0-9])? */
  const HF_MORE := Optional(Cat(Chars(NameChar, 0, Unbounded), Chars(AlphaNum, 1, AtMost(1))))

  lemma HfMoreParts(x: string, y: string, s: string)
    requires Matches(Chars(AlphaNum, 1, AtMost(1)), x) && Matches(HF_MORE, y) && y != "" && s == x + y
    ensures IsHfName(s)
  {
    var names, last := Chars(NameChar, 0, Unbounded), Chars(AlphaNum, 1, AtMost(1));
    assert Matches(Word(""), y) || Matches(Cat(names, last), y);
    var u, v := Parts(names, last, y);
    assert s == x + (u + v);
    NameOfThree(x, u, v, s);
  }

  lemma NameOfThree(x: string, u: string, v: string, s: string)
    requires s == x + (u + v) && |x| == 1 && |v| == 1 && IsLetterOrDigit(x[0]) && IsLetterOrDigit(v[0])
    requires forall i | 0 <= i < |u| :: NameChar.Has(u[i])
    ensures IsHfName(s)
  {
    assert forall i | 0 <= i < |s| :: s[i] == if i == 0 then x[0] else if i == |s| - 1 then v[0] else u[i - 1];
  }

  lemma HfNameMatches(s: string)
    requires IsHfName(s)
    ensures Matches(HF_NAME, s)
  {
    var one, names := Chars(AlphaNum, 1, AtMost(1)), Chars(NameChar, 0, Unbounded);
    var n := |s| - 1;
    assert Matches(one, s[..1]);
    if n == 0 {
      assert s == s[..1] + "";
      Joined(one, HF_MORE, s, "");
      assert s + "" == s;
    } else {
      Joined(names, one, s[1..n], s[n..]);
      assert s[1..] == s[1..n] + s[n..];
      Joined(one, HF_MORE, s[..1], s[1..]);
      assert s == s[..1] + s[1..];
    }
  }

  lemma RevisionIff(s: string)
    ensures Matches(HF_REVISION, s) <==> IsRevision(s)
  {
    PiecesIff(Plus(NameChar), s);
    forall i, j | 0 <= i <= j <= |s| && IsSegment(s, i, j)
      ensures Matches(Plus(NameChar), s[i..j]) <==> IsNameText(s[i..j])
    {
      NameTextIff(s[i..j]);
    }
  }

  lemma PrefixIff(s: string)
    ensures Matches(PREFIX, s) <==> IsPrefix(s)
  {
    PiecesIff(Plus(NotSlash), s);
    forall i, j | 0 <= i <= j <= |s| && IsSegment(s, i, j)
      ensures Matches(Plus(NotSlash), s[i..j]) <==> s[i..j] != ""
    {
      assert forall n | 0 <= n < j - i :: s[i..j][n] in s[i..j];
    }
  }

  lemma ComponentAvoidsSlash()
    ensures Avoids(COMPONENT, '/')
  {
    assert Avoids(SEPARATOR, '/');
    assert Avoids(Cat(SEPARATOR, Plus(LowerNum)), '/');
  }

  lemma RepositoryIff(s: string)
    ensures Matches(REPOSITORY, s) <==> IsRepository(s)
  {
    ComponentAvoidsSlash();
    PiecesIff(COMPONENT, s);
    forall i, j | 0 <= i <= j <= |s| && IsSegment(s, i, j)
      ensures Matches(COMPONENT, s[i..j]) <==> IsComponent(s[i..j])
    {
      ComponentIff(s[i..j]);
    }
  }

  lemma VersionIff(v: Version)
    ensures VersionFits(v, TAG, DIGEST) <==> (v.Tagged? ==> IsTag(v.tag)) && (v.Pinned? ==> IsDigest(v.digest))
  {
    match v {
      case Latest =>
      case Tagged(t) => TagIff(t);
      case Pinned(d) => DigestIff(d);
    }
  }

  /** The expressions accept exactly these sources. */
  lemma SourceIff(src: Source)
    ensures WellFormed(src) <==> IsSource(src)
  {
    match src {
      case HuggingFace(owner, repo, revision) =>
        HfNameIff(owner);
        HfNameIff(repo);
        if revision.Some? {
          RevisionIff(revision.value);
        }
      case Bucket(bucket, prefix) =>
        BucketIff(bucket);
        PrefixIff(prefix);
      case Registry(host, port, repository, version) =>
        HostIff(host);
        if port.Some? {
          PortIff(port.value);
        }
        RepositoryIff(repository);
        VersionIff(version);
    }
  }

  lemma SpelledIsPrinted(src: Source)
    ensures Spelled(src) == Print(src)
  {
    match src {
      case HuggingFace(owner, repo, None) => HfSpelled(owner, repo, "");
      case HuggingFace(owner, repo, Some(revision)) => HfSpelled(owner, repo, "@" + revision);
      case Bucket(bucket, prefix) => S3Spelled(bucket, prefix);
      case Registry(host, port, repository, version) => OciSpelled(host, Suffix(":", port), repository, VersionText(version));
    }
  }

  lemma HfSpelled(owner: string, repo: string, tail: string)
    ensures "hf://" + owner + "/" + repo + tail == "hf://" + (owner + ("/" + (repo + tail)))
    ensures tail == "" ==> "hf://" + owner + "/" + repo + tail == "hf://" + owner + "/" + repo
    ensures |tail| >= 1 && tail == "@" + tail[1..] ==> "hf://" + owner + "/" + repo + tail == "hf://" + owner + "/" + repo + "@" + tail[1..]
  {
  }

  lemma S3Spelled(bucket: string, prefix: string)
    ensures "s3://" + bucket + "/" + prefix == "s3://" + (bucket + ("/" + prefix))
  {
  }

  lemma OciSpelled(host: string, port: string, repository: string, version: string)
    ensures "oci://" + host + port + "/" + repository + version == "oci://" + (host + (port + ("/" + (repository + version))))
  {
  }

  /* ---- the rules for all schemes ---- */

  lemma DotSegmentIff(uri: string)
    ensures NoDotSegmentRule(uri)
            <==> forall i, j | 0 < i <= j <= |uri| && IsSegment(uri, i, j) :: uri[i..j] != "." && uri[i..j] != ".."
  {
    DotsSlashed();
    if NoDotSegmentRule(uri) {
      forall i, j | 0 < i <= j <= |uri| && IsSegment(uri, i, j)
        ensures uri[i..j] != "." && uri[i..j] != ".."
      {
        if uri[i..j] == "." {
          DotsOccur(uri, i, j, ".", "/.");
        }
        if uri[i..j] == ".." {
          DotsOccur(uri, i, j, "..", "/..");
        }
      }
    } else {
      if Contains(uri, "/./") || EndsWith(uri, "/.") {
        var i, j := DotsAt(uri, ".", "/.");
      } else {
        var i, j := DotsAt(uri, "..", "/..");
      }
    }
  }

  lemma DotsOccur(uri: string, i: nat, j: nat, dots: string, slashed: string)
    requires 0 < i && IsSegment(uri, i, j) && slashed == "/" + dots && uri[i..j] == dots
    ensures Contains(uri, slashed + "/") || EndsWith(uri, slashed)
  {
    assert uri[i - 1..j] == slashed;
    assert j < |uri| ==> uri[i - 1..j + 1] == slashed + "/" && OccursAt(uri, slashed + "/", i - 1);
  }

  lemma DotsAt(uri: string, dots: string, slashed: string) returns (i: nat, j: nat)
    requires slashed == "/" + dots && '/' !in dots
    requires Contains(uri, slashed + "/") || EndsWith(uri, slashed)
    ensures 0 < i <= j <= |uri| && IsSegment(uri, i, j) && uri[i..j] == dots
  {
    if Contains(uri, slashed + "/") {
      var k: nat :| k <= |uri| && OccursAt(uri, slashed + "/", k);
      i, j := k + 1, k + 1 + |dots|;
      Middle(uri, k, dots, "/", slashed + "/");
      assert uri[j] == (slashed + "/")[|dots| + 1];
    } else {
      i, j := |uri| - |dots|, |uri|;
      Middle(uri, i - 1, dots, "", slashed);
    }
  }

  lemma SliceOfSlice(s: string, k: nat, n: nat, i: nat, j: nat)
    requires k + n <= |s| && i <= j <= n
    ensures s[k..k + n][i..j] == s[k + i..k + j]
  {
    SlicesAgree(s[..k + n], k, i, j);
    assert s[..k + n][k..] == s[k..k + n];
  }

  lemma Middle(uri: string, k: nat, dots: string, after: string, text: string)
    requires text == "/" + dots + after && k + |text| <= |uri| && uri[k..k + |text|] == text
    ensures uri[k] == '/' && uri[k + 1..k + 1 + |dots|] == dots
    ensures after != "" ==> uri[k + 1 + |dots|] == after[0]
  {
    var t := uri[k..k + |text|];
    SliceOfSlice(uri, k, |text|, 1, 1 + |dots|);
    assert t[0] == uri[k];
    assert text[1..1 + |dots|] == dots;
    assert |"/" + dots| == 1 + |dots|;
    assert after != "" ==> ("/" + dots + after)[1 + |dots|] == after[0];
    assert after != "" ==> t[1 + |dots|] == uri[k + 1 + |dots|] && text[1 + |dots|] == after[0];
  }

  lemma TwoDotsIff(uri: string)
    ensures Contains(uri, "..") <==> HasTwoDots(uri)
  {
    if k: nat :| k <= |uri| && OccursAt(uri, "..", k) {
      assert uri[k..k + 2][0] == uri[k] && uri[k..k + 2][1] == uri[k + 1];
    }
    if i :| 0 <= i < |uri| - 1 && uri[i] == '.' && uri[i + 1] == '.' {
      assert uri[i..i + 2] == "..";
      assert OccursAt(uri, "..", i);
    }
  }

  lemma CharsIff(uri: string)
    requires uri != ""
    ensures Matches(Plus(UriChar), uri)
            <==> forall i | 0 <= i < |uri| :: IsLetterOrDigit(uri[i]) || uri[i] in "._~:/@!$&()*+,;=%-"
  {
    assert forall i | 0 <= i < |uri| :: UriChar.Has(uri[i]) <==> IsLetterOrDigit(uri[i]) || uri[i] in "._~:/@!$&()*+,;=%-";
  }

  lemma PercentIff(uri: string)
    ensures PercentRule(uri) <==> forall i | 0 <= i < |uri| - 2 && uri[i] == '%' && uri[i + 1] == '2' :: uri[i + 2] !in "eEfF"
  {
    assert forall c :: LetterE.Has(c) <==> c in "eEfF";
  }

  lemma PlainUriIff(uri: string)
    requires uri != ""
    ensures PlainRules(uri) <==> IsPlainUri(uri)
  {
    CharsIff(uri);
    PercentIff(uri);
    DotSegmentIff(uri);
  }

  /** Admission, without an expression: a URI is accepted exactly if it is the text of a source made of
      these parts, keeps the rules for all schemes and, for Hugging Face, has no two dots in a row. */
  lemma AcceptedMeans(uri: string)
    ensures Accepted(uri) <==>
            IsPlainUri(uri) && exists src :: IsSource(src) && Spelled(src) == uri && (src.HuggingFace? ==> !HasTwoDots(uri))
  {
    Grammar(uri);
    TwoDotsIff(uri);
    if Accepted(uri) {
      PlainUriIff(uri);
      var src :| WellFormed(src) && Print(src) == uri && (src.HuggingFace? ==> !Contains(uri, ".."));
      SourceIff(src);
      SpelledIsPrinted(src);
    }
    if src :| IsSource(src) && Spelled(src) == uri && (src.HuggingFace? ==> !HasTwoDots(uri)) {
      SourceIff(src);
      SpelledIsPrinted(src);
      PlainUriIff(uri);
    }
  }

  /* ---- which sources are accepted, scheme by scheme ---- */

  predicate IsDots(s: string) {
    s == "." || s == ".."
  }

  /** No piece between slashes is a dot segment. */
  predicate Dotless(s: string) {
    forall i, j | 0 <= i <= j <= |s| && IsSegment(s, i, j) :: !IsDots(s[i..j])
  }

  predicate DotlessBehind(s: string) {
    forall i, j | 0 < i <= j <= |s| && IsSegment(s, i, j) :: !IsDots(s[i..j])
  }

  lemma DotlessRest(a: string, t: string, s: string)
    requires '/' !in a && s == a + "/" + t
    ensures DotlessBehind(s) <==> Dotless(t)
  {
    var k := |a| + 1;
    if DotlessBehind(s) {
      forall i, j | 0 <= i <= j <= |t| && IsSegment(t, i, j)
        ensures !IsDots(t[i..j])
      {
        PieceOfRest(a, t, s, i, j);
      }
    }
    if Dotless(t) {
      forall i, j | 0 < i <= j <= |s| && IsSegment(s, i, j)
        ensures !IsDots(s[i..j])
      {
        PieceIsIn(a, t, s, i, j);
      }
    }
  }

  lemma PieceOfRest(a: string, t: string, s: string, i: nat, j: nat)
    requires s == a + "/" + t && IsSegment(t, i, j)
    ensures IsSegment(s, |a| + 1 + i, |a| + 1 + j) && s[|a| + 1 + i..|a| + 1 + j] == t[i..j]
  {
    var k := |a| + 1;
    assert s[k..] == t;
    SlicesAgree(s, k, i, j);
    assert s[k - 1] == '/';
    assert i > 0 ==> s[k + i - 1] == t[i - 1];
    assert j < |t| ==> s[k + j] == t[j];
  }

  lemma DotlessSplit(a: string, t: string, s: string)
    requires '/' !in a && s == a + "/" + t
    ensures Dotless(s) <==> !IsDots(a) && Dotless(t)
  {
    DotlessRest(a, t, s);
    assert s[..|a|] == a && s[|a|] == '/';
    assert IsSegment(s, 0, |a|) && s[0..|a|] == a;
    forall i, j | 0 <= i <= j <= |s| && IsSegment(s, i, j)
      ensures i == 0 ==> s[i..j] == a
    {
      PieceIsIn(a, t, s, i, j);
    }
  }

  lemma DotlessOne(a: string)
    requires '/' !in a
    ensures Dotless(a) <==> !IsDots(a)
  {
    assert IsSegment(a, 0, |a|) && a[0..|a|] == a;
  }

  /** Pieces of a followed by text b without slashes: a's own but for the last, which b follows. */
  lemma PieceOfBoth(a: string, b: string, s: string, i: nat, j: nat)
    requires '/' !in b && s == a + b && IsSegment(s, i, j)
    ensures i <= |a| && (j < |s| ==> j <= |a| && IsSegment(a, i, j) && s[i..j] == a[i..j])
    ensures j == |s| ==> IsSegment(a, i, |a|) && s[i..j] == a[i..] + b
  {
    assert forall n | |a| <= n < |s| :: s[n] == b[n - |a|] && b[n - |a|] != '/';
    assert forall n | 0 <= n < |a| :: s[n] == a[n];
    assert forall n | i <= n < j :: s[n] == s[i..j][n - i] && s[n] != '/';
    if j < |s| {
      assert s[i..j] == a[i..j];
    } else {
      assert s[i..j] == a[i..] + b;
    }
  }

  lemma RepositoryDotless(repository: string, version: string)
    requires IsRepository(repository) && '/' !in version
    ensures Dotless(repository + version)
  {
    var s := repository + version;
    forall i, j | 0 <= i <= j <= |s| && IsSegment(s, i, j)
      ensures !IsDots(s[i..j])
    {
      PieceOfBoth(repository, version, s, i, j);
      var e := if j < |s| then j else |repository|;
      assert IsComponent(repository[i..e]);
      assert s[i..j][0] == repository[i..e][0];
    }
  }

  /** Characters that every URI may hold, but for percent signs. */
  predicate IsUriText(s: string) {
    forall i | 0 <= i < |s| :: IsLetterOrDigit(s[i]) || s[i] in "._~:/@!$&()*+,;=-"
  }

  lemma UriTextJoins(a: string, b: string)
    requires IsUriText(a) && IsUriText(b)
    ensures IsUriText(a + b)
  {
  }

  lemma UriTextIsPlain(uri: string)
    requires IsUriText(uri) && |uri| <= 2048
    ensures IsPlainUri(uri) <==> DotlessBehind(uri)
  {
    forall i | 0 <= i < |uri|
      ensures uri[i] != '%' && (IsLetterOrDigit(uri[i]) || uri[i] in "._~:/@!$&()*+,;=%-")
    {
      UriTextChar(uri[i]);
    }
    NoDots(uri);
  }

  lemma UriTextChar(c: char)
    requires IsLetterOrDigit(c) || c in "._~:/@!$&()*+,;=-"
    ensures c != '%' && (IsLetterOrDigit(c) || c in "._~:/@!$&()*+,;=%-")
  {
  }

  lemma NoDots(uri: string)
    ensures DotlessBehind(uri)
            <==> forall i, j | 0 < i <= j <= |uri| && IsSegment(uri, i, j) :: uri[i..j] != "." && uri[i..j] != ".."
  {
  }

  lemma RepositoryHolds(s: string, c: char)
    requires IsRepository(s) && c in s
    ensures IsLetterOrDigit(c) || c == '.' || c == '_' || c == '-' || c == '/'
  {
    RepositoryIff(s);
    if !IsLetterOrDigit(c) && c != '.' && c != '_' && c != '-' && c != '/' {
      assert c !in "_" && c !in "__" && c !in "." && c !in "/";
      assert Avoids(Plus(Hyphen), c) && Avoids(Plus(LowerNum), c);
      assert Avoids(Alt(Word("_"), Plus(Hyphen)), c);
      assert Avoids(Alt(Word("__"), Alt(Word("_"), Plus(Hyphen))), c);
      assert Avoids(SEPARATOR, c);
      assert Avoids(Cat(SEPARATOR, Plus(LowerNum)), c);
      assert Avoids(COMPONENT, c);
      assert Avoids(Cat(Word("/"), COMPONENT), c);
      AvoidsMeans(REPOSITORY, s, c);
    }
  }

  lemma RegistryChars(host: string, port: Option<string>, repository: string, version: Version)
    requires IsSource(Registry(host, port, repository, version))
    ensures IsUriText(host) && IsUriText(Suffix(":", port)) && IsUriText(repository) && IsUriText(VersionText(version))
  {
    forall i | 0 <= i < |repository|
      ensures IsLetterOrDigit(repository[i]) || repository[i] in "._~:/@!$&()*+,;=-"
    {
      RepositoryHolds(repository, repository[i]);
    }
    if port.Some? {
      UriTextJoins(":", port.value);
    }
    match version {
      case Latest =>
      case Tagged(t) => UriTextJoins(":", t);
      case Pinned(d) => UriTextJoins("@sha256:", d);
    }
  }

  lemma FourTexts(scheme: string, a: string, b: string, c: string)
    requires IsUriText(scheme) && IsUriText(a) && IsUriText(b) && IsUriText(c)
    ensures IsUriText(scheme + (a + ("/" + (b + c))))
  {
    UriTextJoins(b, c);
    UriTextJoins("/", b + c);
    UriTextJoins(a, "/" + (b + c));
    UriTextJoins(scheme, a + ("/" + (b + c)));
  }

  /** A registry source that fits is accepted unless its host is a dot segment and no port follows. */
  lemma RegistryAcceptedIff(host: string, port: Option<string>, repository: string, version: Version)
    requires IsSource(Registry(host, port, repository, version))
    ensures var uri := Spelled(Registry(host, port, repository, version));
            Accepted(uri) <==> |uri| <= 2048 && !(port.None? && IsDots(host))
  {
    var src := Registry(host, port, repository, version);
    var authority, text := host + Suffix(":", port), VersionText(version);
    SpelledIsPrinted(src);
    RegistryPieces(host, port, repository, version);
    RegistryChars(host, port, repository, version);
    UriTextJoins(host, Suffix(":", port));
    RegistryText(authority, repository, text, Spelled(src), host, Suffix(":", port));
    if |Spelled(src)| <= 2048 {
      UriTextIsPlain(Spelled(src));
    }
    SourceOnly(src);
  }

  lemma RegistryText(authority: string, repository: string, text: string, uri: string, host: string, port: string)
    requires '/' !in authority && '/' !in text && IsRepository(repository) && authority == host + port
    requires IsUriText(authority) && IsUriText(repository) && IsUriText(text)
    requires uri == "oci://" + (host + (port + ("/" + (repository + text))))
    ensures IsUriText(uri) && (DotlessBehind(uri) <==> !IsDots(authority))
  {
    var rest := authority + "/" + (repository + text);
    Assoc(host, port, "/" + (repository + text));
    FourTexts("oci://", authority, repository, text);
    Assoc(authority, "/", repository + text);
    SchemeApart("oci:", rest);
    BehindScheme("oci:", rest, uri);
    DotlessSplit(authority, repository + text, rest);
    RepositoryDotless(repository, text);
  }

  lemma SchemeApart(scheme: string, rest: string)
    ensures scheme + "//" + rest == scheme + ("//" + rest)
    ensures scheme == "oci:" ==> scheme + "//" == "oci://"
  {
  }

  lemma BehindScheme(scheme: string, rest: string, uri: string)
    requires '/' !in scheme && uri == scheme + "//" + rest
    ensures DotlessBehind(uri) <==> Dotless(rest)
  {
    var inner := "" + "/" + rest;
    assert uri == scheme + "/" + inner;
    DotlessRest(scheme, inner, uri);
    DotlessSplit("", rest, inner);
  }

  /** The text of a source is accepted exactly if it keeps the rules for all schemes. */
  lemma SourceOnly(src: Source)
    requires IsSource(src)
    ensures Accepted(Spelled(src)) <==> IsPlainUri(Spelled(src)) && (src.HuggingFace? ==> !HasTwoDots(Spelled(src)))
  {
    var uri := Spelled(src);
    AcceptedMeans(uri);
    SpelledIsPrinted(src);
    OneScheme(src);
    if Accepted(uri) {
      var other :| IsSource(other) && Spelled(other) == uri && (other.HuggingFace? ==> !HasTwoDots(uri));
      SpelledIsPrinted(other);
      OneScheme(other);
    }
  }

  lemma RegistryPieces(host: string, port: Option<string>, repository: string, version: Version)
    requires IsSource(Registry(host, port, repository, version))
    ensures '/' !in host + Suffix(":", port) && '/' !in VersionText(version)
    ensures IsDots(host + Suffix(":", port)) <==> port.None? && IsDots(host)
  {
    if port.Some? {
      assert (host + Suffix(":", port))[|host|] == ':';
    } else {
      assert host + Suffix(":", port) == host;
    }
  }

  /** A Hugging Face source that fits is accepted unless it has two dots in a row or a later piece of its
      revision is a dot. */
  lemma HuggingFaceAcceptedIff(owner: string, repo: string, revision: Option<string>)
    requires IsSource(HuggingFace(owner, repo, revision))
    ensures var uri := Spelled(HuggingFace(owner, repo, revision));
            Accepted(uri) <==>
              |uri| <= 2048 && !HasTwoDots(uri) && (revision.Some? ==> DotlessBehind(revision.value))
  {
    var src := HuggingFace(owner, repo, revision);
    var text := Suffix("@", revision);
    SpelledIsPrinted(src);
    assert Spelled(src) == "hf://" + (owner + ("/" + (repo + text)));
    RevisionChars(revision);
    HfText(owner, repo, text, Spelled(src));
    RevisionDotless(repo, revision);
    if |Spelled(src)| <= 2048 {
      UriTextIsPlain(Spelled(src));
    }
    SourceOnly(src);
  }

  lemma RevisionChars(revision: Option<string>)
    requires revision.Some? ==> IsRevision(revision.value)
    ensures IsUriText(Suffix("@", revision))
  {
    if revision.Some? {
      var s := revision.value;
      RevisionIff(s);
      forall i | 0 <= i < |s|
        ensures IsLetterOrDigit(s[i]) || s[i] in "._~:/@!$&()*+,;=-"
      {
        RevisionHolds(s, s[i]);
      }
      UriTextJoins("@", s);
    }
  }

  lemma RevisionHolds(s: string, c: char)
    requires Matches(HF_REVISION, s) && c in s
    ensures IsLetterOrDigit(c) || c == '.' || c == '_' || c == '-' || c == '/'
  {
    if !IsLetterOrDigit(c) && c != '.' && c != '_' && c != '-' && c != '/' {
      assert Avoids(Plus(NameChar), c);
      assert Avoids(Cat(Word("/"), Plus(NameChar)), c);
      AvoidsMeans(HF_REVISION, s, c);
    }
  }

  lemma HfText(owner: string, repo: string, text: string, uri: string)
    requires IsHfName(owner) && IsHfName(repo) && IsUriText(text) && uri == "hf://" + (owner + ("/" + (repo + text)))
    ensures IsUriText(uri) && (DotlessBehind(uri) <==> Dotless(repo + text))
  {
    var rest := owner + "/" + (repo + text);
    FourTexts("hf://", owner, repo, text);
    BehindScheme("hf:", rest, uri);
    DotlessSplit(owner, repo + text, rest);
  }

  lemma RevisionDotless(repo: string, revision: Option<string>)
    requires IsHfName(repo)
    ensures Dotless(repo + Suffix("@", revision)) <==> (revision.Some? ==> DotlessBehind(revision.value))
  {
    if revision.None? {
      assert repo + Suffix("@", revision) == repo;
      DotlessOne(repo);
    } else {
      HeadedDotless(repo + "@", revision.value, repo + Suffix("@", revision));
    }
  }

  /** A first piece that begins with head, which ends in an at sign, is no dot segment. */
  lemma HeadedDotless(head: string, t: string, s: string)
    requires '/' !in head && head != "" && head[|head| - 1] == '@' && s == head + t
    ensures Dotless(s) <==> DotlessBehind(t)
  {
    var k := |head|;
    assert forall n | 0 <= n < k :: s[n] == head[n];
    assert forall n | 0 <= n < |t| :: s[k + n] == t[n];
    if Dotless(s) {
      forall i, j | 0 < i <= j <= |t| && IsSegment(t, i, j)
        ensures !IsDots(t[i..j])
      {
        assert s[k + i..k + j] == t[i..j];
        assert IsSegment(s, k + i, k + j);
      }
    }
    if DotlessBehind(t) {
      forall i, j | 0 <= i <= j <= |s| && IsSegment(s, i, j)
        ensures !IsDots(s[i..j])
      {
        HeadedPiece(head, t, s, i, j);
      }
    }
  }

  lemma HeadedPiece(head: string, t: string, s: string, i: nat, j: nat)
    requires '/' !in head && head != "" && head[|head| - 1] == '@' && s == head + t
    requires DotlessBehind(t) && IsSegment(s, i, j)
    ensures !IsDots(s[i..j])
  {
    if i < |head| {
      HeadPiece(head, t, s, i, j);
    } else {
      TailPiece(head, t, s, i, j);
    }
  }

  lemma HeadPiece(head: string, t: string, s: string, i: nat, j: nat)
    requires '/' !in head && head != "" && head[|head| - 1] == '@' && s == head + t
    requires IsSegment(s, i, j) && i < |head|
    ensures j >= |head| && s[i..j][|head| - 1 - i] == '@'
  {
    var k := |head|;
    assert forall n | 0 <= n < k :: s[n] == head[n] && head[n] != '/';
    assert s[i..j][k - 1 - i] == s[k - 1];
  }

  lemma TailPiece(head: string, t: string, s: string, i: nat, j: nat)
    requires head != "" && head[|head| - 1] == '@' && s == head + t
    requires DotlessBehind(t) && IsSegment(s, i, j) && i >= |head|
    ensures !IsDots(s[i..j])
  {
    var k := |head|;
    assert s[k - 1] == '@';
    assert s[k..] == t;
    SlicesAgree(s, k, i - k, j - k);
    assert t[i - k - 1] == s[i - 1];
    assert j < |s| ==> t[j - k] == s[j];
  }

  /** A bucket source that fits, made of URI characters and without encoded dots and slashes, is accepted
      unless its bucket or a piece of its prefix is a dot segment. */
  lemma BucketAcceptedIff(bucket: string, prefix: string)
    requires IsSource(Bucket(bucket, prefix))
    ensures var uri := Spelled(Bucket(bucket, prefix));
            Accepted(uri) <==>
              && |uri| <= 2048 && !IsDots(bucket) && Dotless(prefix)
              && (forall i | 0 <= i < |uri| :: IsLetterOrDigit(uri[i]) || uri[i] in "._~:/@!$&()*+,;=%-")
              && (forall i | 0 <= i < |uri| - 2 && uri[i] == '%' && uri[i + 1] == '2' :: uri[i + 2] !in "eEfF")
  {
    var uri := Spelled(Bucket(bucket, prefix));
    var rest := bucket + "/" + prefix;
    assert uri == "s3:" + "//" + rest;
    BehindScheme("s3:", rest, uri);
    DotlessSplit(bucket, prefix, rest);
    SourceOnly(Bucket(bucket, prefix));
  }

  /* ---- for instance ---- */

  lemma RepositoryOfTwo(a: string, b: string)
    requires IsComponent(a) && IsComponent(b)
    ensures IsRepository(a + "/" + b)
  {
    ComponentIff(a);
    ComponentIff(b);
    ComponentAvoidsSlash();
    AvoidsMeans(COMPONENT, a, '/');
    AvoidsMeans(COMPONENT, b, '/');
    PiecesSplit(COMPONENT, a, b);
    PiecesOfOne(COMPONENT, b);
    PiecesIff(COMPONENT, a + "/" + b);
    RepositoryIff(a + "/" + b);
  }

  /** A host and a tag with dots in them. */
  lemma DottedRegistryIsAccepted(host: string, repository: string, tag: string)
    requires host == "ghcr.io" && repository == "org" + "/" + "model" && tag == "v1.2"
    ensures Accepted("oci://" + host + "/" + repository + ":" + tag)
  {
    RepositoryOfTwo("org", "model");
    var src := Registry(host, None, repository, Tagged(tag));
    assert Spelled(src) == "oci://" + host + "/" + repository + ":" + tag;
    RegistryAcceptedIff(host, None, repository, Tagged(tag));
  }

  lemma HuggingFaceIsAccepted(owner: string, repo: string)
    requires owner == "Qwen" && repo == "Qwen3-8B"
    ensures Accepted("hf://" + owner + "/" + repo)
  {
    var src := HuggingFace(owner, repo, None);
    HuggingFaceAcceptedIff(owner, repo, None);
    NoDotsThere(owner, repo, Spelled(src));
  }

  lemma NoDotsThere(owner: string, repo: string, uri: string)
    requires '.' !in owner && '.' !in repo && uri == "hf://" + owner + "/" + repo
    ensures !HasTwoDots(uri)
  {
    assert '.' !in uri;
  }
}
