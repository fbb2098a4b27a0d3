/** The regular expressions of the URI rules and of the heading scanner, with their meaning as sets of
    strings. */
module Regex {

  predicate Lower(c: char) { 'a' <= c <= 'z' }
  predicate Upper(c: char) { 'A' <= c <= 'Z' }
  predicate Digit(c: char) { '0' <= c <= '9' }
  predicate AlNum(c: char) { Lower(c) || Upper(c) || Digit(c) }

  /** [ \t] */
  predicate Blank(c: char) {
    c == ' ' || c == '\t'
  }

  /** What `.` does not match in JavaScript. */
  predicate Terminator(c: char) {
    c == '\n' || c == '\r' || c == '\U{2028}' || c == '\U{2029}'
  }

  /** What `\s` matches and `trim` removes in JavaScript. */
  predicate Space(c: char) {
    || Blank(c) || Terminator(c) || c == '\U{0B}' || c == '\U{0C}' || c == '\U{A0}' || c == '\U{1680}'
    || '\U{2000}' <= c <= '\U{200A}' || c == '\U{202F}' || c == '\U{205F}' || c == '\U{3000}' || c == '\U{FEFF}'
  }

  /** The bracket expressions and single characters the rules repeat. */
  datatype Class =
    | AnyChar           // .
    | UriChar           // [A-Za-z0-9._~:/@!$&()*+,;=%-]
    | AlphaNum          // [A-Za-z0-9]
    | AlphaNumUnder     // [A-Za-z0-9_]
    | NameChar          // [A-Za-z0-9._-]
    | HostChar          // [A-Za-z0-9.-]
    | LowerNum          // [a-z0-9]
    | HexLower          // [0-9a-f]
    | Digits            // [0-9]
    | Hyphen            // -
    | NotSlash          // [^/]
    | NotDelimiter      // [^/@:]
    | LetterE           // [eEfF]
    | SpaceChar         // a space
    | TabOrSpace        // [ \t]
    | Backtick          // `
    | Tilde             // ~
    | HashSign          // #
    | LineChar          // . in JavaScript
    | IdChar            // [^{}\s] in JavaScript
  {
    predicate Has(c: char) {
      match this
      case AnyChar => c != '\n'
      case UriChar => AlNum(c) || c in "._~:/@!$&()*+,;=%-"
      case AlphaNum => AlNum(c)
      case AlphaNumUnder => AlNum(c) || c == '_'
      case NameChar => AlNum(c) || c in "._-"
      case HostChar => AlNum(c) || c in ".-"
      case LowerNum => Lower(c) || Digit(c)
      case HexLower => Digit(c) || 'a' <= c <= 'f'
      case Digits => Digit(c)
      case Hyphen => c == '-'
      case NotSlash => c != '/'
      case NotDelimiter => c !in "/@:"
      case LetterE => c in "eEfF"
      case SpaceChar => c == ' '
      case TabOrSpace => Blank(c)
      case Backtick => c == '`'
      case Tilde => c == '~'
      case HashSign => c == '#'
      case LineChar => !Terminator(c)
      case IdChar => c != '{' && c != '}' && !Space(c)
    }
  }

  /** Chars repeats one class from lo to hi times, without bound if there is no hi. */
  datatype Bound = AtMost(hi: nat) | Unbounded

  datatype Re =
    | Word(w: string)
    | Chars(cls: Class, lo: nat, bound: Bound)
    | Cat(first: Re, second: Re)
    | Alt(left: Re, right: Re)
    | Star(body: Re)

  /** The whole of s is in the language of r. */
  ghost predicate Matches(r: Re, s: string)
    decreases r, |s|
  {
    match r
    case Word(w) => s == w
    case Chars(cls, lo, bound) =>
      lo <= |s| && (bound.AtMost? ==> |s| <= bound.hi) && forall i | 0 <= i < |s| :: cls.Has(s[i])
    case Cat(a, b) => exists k | 0 <= k <= |s| :: Matches(a, s[..k]) && Matches(b, s[k..])
    case Alt(a, b) => Matches(a, s) || Matches(b, s)
    case Star(a) => s == "" || exists k | 0 < k <= |s| :: Matches(a, s[..k]) && Matches(Star(a), s[k..])
  }

  /** The character does not occur in r. */
  predicate Avoids(r: Re, c: char) {
    match r
    case Word(w) => c !in w
    case Chars(cls, _, _) => !cls.Has(c)
    case Cat(a, b) => Avoids(a, c) && Avoids(b, c)
    case Alt(a, b) => Avoids(a, c) && Avoids(b, c)
    case Star(a) => Avoids(a, c)
  }

  lemma {:induction false} AvoidsMeans(r: Re, s: string, c: char)
    requires Matches(r, s) && Avoids(r, c)
    ensures c !in s
    decreases r, |s|
  {
    match r {
      case Word(_) =>
      case Chars(_, _, _) =>
      case Cat(a, b) =>
        var x, y := Parts(a, b, s);
        AvoidsMeans(a, x, c);
        AvoidsMeans(b, y, c);
      case Alt(a, b) =>
        if Matches(a, s) {
          AvoidsMeans(a, s, c);
        } else {
          AvoidsMeans(b, s, c);
        }
      case Star(a) =>
        if s != "" {
          var k :| 0 < k <= |s| && Matches(a, s[..k]) && Matches(Star(a), s[k..]);
          AvoidsMeans(a, s[..k], c);
          AvoidsMeans(Star(a), s[k..], c);
          assert s == s[..k] + s[k..];
        }
    }
  }

  /** A match of a concatenation falls into two, */
  lemma Parts(a: Re, b: Re, s: string) returns (x: string, y: string)
    requires Matches(Cat(a, b), s)
    ensures s == x + y && Matches(a, x) && Matches(b, y)
  {
    var k :| 0 <= k <= |s| && Matches(a, s[..k]) && Matches(b, s[k..]);
    x, y := s[..k], s[k..];
  }

  /** and two matches make one. */
  lemma Joined(a: Re, b: Re, x: string, y: string)
    requires Matches(a, x) && Matches(b, y)
    ensures Matches(Cat(a, b), x + y)
  {
    assert (x + y)[..|x|] == x && (x + y)[|x|..] == y;
  }

  /** Every match of r has at least one character. */
  predicate NonEmpty(r: Re) {
    match r
    case Word(w) => w != ""
    case Chars(_, lo, _) => lo > 0
    case Cat(a, b) => NonEmpty(a) || NonEmpty(b)
    case Alt(a, b) => NonEmpty(a) && NonEmpty(b)
    case Star(_) => false
  }

  lemma {:induction false} NonEmptyMeans(r: Re, s: string)
    requires Matches(r, s) && NonEmpty(r)
    ensures s != ""
    decreases r
  {
    match r {
      case Word(_) =>
      case Chars(_, _, _) =>
      case Star(_) =>
      case Cat(a, b) =>
        var x, y := Parts(a, b, s);
        if NonEmpty(a) {
          NonEmptyMeans(a, x);
        } else {
          NonEmptyMeans(b, y);
        }
      case Alt(a, b) =>
        if Matches(a, s) {
          NonEmptyMeans(a, s);
        } else {
          NonEmptyMeans(b, s);
        }
    }
  }
}
