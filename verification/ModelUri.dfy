/** The admission rules on the source URI of a Model (api/core/v1alpha1/model_types.go), and the
    grammar they amount to. */
module ModelUri {
  import opened Api
  import opened Text
  import opened Regex

  /* ---- the regular expressions of the rules ---- */

  function Plus(c: Class): Re { Chars(c, 1, Unbounded) }
  function Optional(r: Re): Re { Alt(Word(""), r) }

  /** [A-Za-z0-9]([A-Za-z0-9._-]*[A-Za-z0-9])? */
  const HF_NAME := Cat(Chars(AlphaNum, 1, AtMost(1)), Optional(Cat(Chars(NameChar, 0, Unbounded), Chars(AlphaNum, 1, AtMost(1)))))
  const HF_REVISION := Cat(Plus(NameChar), Star(Cat(Word("/"), Plus(NameChar))))
  const BUCKET := Plus(NotDelimiter)
  const PREFIX := Cat(Plus(NotSlash), Star(Cat(Word("/"), Plus(NotSlash))))
  const HOST := Plus(HostChar)
  const PORT := Plus(Digits)
  /** [a-z0-9]+(([.]|__|_|-+)[a-z0-9]+)* */
  const COMPONENT := Cat(Plus(LowerNum), Star(Cat(Alt(Word("."), Alt(Word("__"), Alt(Word("_"), Plus(Hyphen)))), Plus(LowerNum))))
  const REPOSITORY := Cat(COMPONENT, Star(Cat(Word("/"), COMPONENT)))
  const TAG := Cat(Chars(AlphaNumUnder, 1, AtMost(1)), Chars(NameChar, 0, AtMost(127)))
  const DIGEST := Chars(HexLower, 64, AtMost(64))

  function HfRest(name: Re, revision: Re): Re {
    Cat(name, Cat(Word("/"), Cat(name, Optional(Cat(Word("@"), revision)))))
  }

  function S3Rest(bucket: Re, prefix: Re): Re {
    Cat(bucket, Cat(Word("/"), prefix))
  }

  function OciRest(host: Re, port: Re, repository: Re, tag: Re, digest: Re): Re {
    Cat(host, Cat(Optional(Cat(Word(":"), port)),
      Cat(Word("/"), Cat(repository, Alt(Word(""), Alt(Cat(Word(":"), tag), Cat(Word("@sha256:"), digest)))))))
  }

  const HF := "hf://"
  const S3 := "s3://"
  const OCI := "oci://"

  const HF_URI := Cat(Word(HF), HfRest(HF_NAME, HF_REVISION))
  const S3_URI := Cat(Word(S3), S3Rest(BUCKET, PREFIX))
  const OCI_URI := Cat(Word(OCI), OciRest(HOST, PORT, REPOSITORY, TAG, DIGEST))
  /** ^(hf|s3|oci)://.+$ */
  const SCHEMES := Alt(Word("hf"), Alt(Word("s3"), Word("oci")))
  const SCHEME_URI := Cat(SCHEMES, Cat(Word("://"), Plus(AnyChar)))

  /* ---- the rules ---- */

  predicate EndsWith(s: string, w: string) {
    |w| <= |s| && s[|s| - |w|..] == w
  }

  predicate QueryRule(s: string) {
    !Contains(s, "?") && !Contains(s, "#")
  }

  predicate NoDotSegmentRule(s: string) {
    !Contains(s, "/./") && !Contains(s, "/../") && !EndsWith(s, "/.") && !EndsWith(s, "/..")
  }

  /** Unanchored: %2 followed by one of e, E, f, F, anywhere. */
  predicate PercentRule(s: string) {
    forall i | 0 <= i < |s| - 2 :: !(s[i] == '%' && s[i + 1] == '2' && LetterE.Has(s[i + 2]))
  }

  /** All validation rules on `ModelSource.URI` that look at the new value alone. */
  ghost predicate Accepted(uri: string) {
    && 1 <= |uri| <= 2048
    && Matches(SCHEME_URI, uri)
    && Matches(Plus(UriChar), uri)
    && QueryRule(uri)
    && NoDotSegmentRule(uri)
    && PercentRule(uri)
    && HfRule(uri) && S3Rule(uri) && OciRule(uri)
  }

  ghost predicate HfRule(uri: string) {
    HF <= uri ==> Matches(HF_URI, uri) && !Contains(uri, "..")
  }

  ghost predicate S3Rule(uri: string) {
    S3 <= uri ==> Matches(S3_URI, uri)
  }

  ghost predicate OciRule(uri: string) {
    OCI <= uri ==> Matches(OCI_URI, uri)
  }

  /* ---- the grammar ---- */

  datatype Version = Latest | Tagged(tag: string) | Pinned(digest: string)

  datatype Source =
    | HuggingFace(owner: string, repo: string, revision: Option<string>)
    | Bucket(bucket: string, prefix: string)
    | Registry(host: string, port: Option<string>, repository: string, version: Version)

  function Suffix(sep: string, part: Option<string>): string {
    if part.Some? then sep + part.value else ""
  }

  function VersionText(v: Version): string {
    match v
    case Latest => ""
    case Tagged(t) => ":" + t
    case Pinned(d) => "@sha256:" + d
  }

  function SchemeOf(src: Source): string {
    match src
    case HuggingFace(_, _, _) => HF
    case Bucket(_, _) => S3
    case Registry(_, _, _, _) => OCI
  }

  /** What follows the scheme. */
  function Body(src: Source): string {
    match src
    case HuggingFace(owner, repo, revision) => owner + ("/" + (repo + Suffix("@", revision)))
    case Bucket(bucket, prefix) => bucket + ("/" + prefix)
    case Registry(host, port, repository, version) =>
      host + (Suffix(":", port) + ("/" + (repository + VersionText(version))))
  }

  function Print(src: Source): string {
    SchemeOf(src) + Body(src)
  }

  ghost predicate Fits(part: Option<string>, r: Re) {
    part.Some? ==> Matches(r, part.value)
  }

  ghost predicate WellFormed(src: Source) {
    match src
    case HuggingFace(owner, repo, revision) =>
      Matches(HF_NAME, owner) && Matches(HF_NAME, repo) && Fits(revision, HF_REVISION)
    case Bucket(bucket, prefix) => Matches(BUCKET, bucket) && Matches(PREFIX, prefix)
    case Registry(host, port, repository, version) =>
      && Matches(HOST, host) && Fits(port, PORT) && Matches(REPOSITORY, repository)
      && VersionFits(version, TAG, DIGEST)
  }

  ghost predicate VersionFits(v: Version, tag: Re, digest: Re) {
    match v
    case Latest => true
    case Tagged(t) => Matches(tag, t)
    case Pinned(d) => Matches(digest, d)
  }

  /* ---- each scheme's expression is its grammar ---- */

  lemma OptionalMeans(sep: string, r: Re, s: string) returns (part: Option<string>)
    requires Matches(Optional(Cat(Word(sep), r)), s)
    ensures s == Suffix(sep, part) && Fits(part, r)
  {
    if s == "" && !Matches(Cat(Word(sep), r), s) {
      part := None;
    } else if Matches(Cat(Word(sep), r), s) {
      var x, y := Parts(Word(sep), r, s);
      part := Some(y);
    } else {
      part := None;
    }
  }

  lemma OptionalPrints(sep: string, r: Re, part: Option<string>)
    requires Fits(part, r)
    ensures Matches(Optional(Cat(Word(sep), r)), Suffix(sep, part))
  {
    if part.Some? {
      Joined(Word(sep), r, sep, part.value);
    }
  }

  lemma HfParses(name: Re, revision: Re, s: string) returns (owner: string, repo: string, rev: Option<string>)
    requires Matches(HfRest(name, revision), s)
    ensures Matches(name, owner) && Matches(name, repo) && Fits(rev, revision)
    ensures s == owner + ("/" + (repo + Suffix("@", rev)))
  {
    var tail := Optional(Cat(Word("@"), revision));
    var s1, s2, slash, text: string;
    owner, s1 := Parts(name, Cat(Word("/"), Cat(name, tail)), s);
    slash, s2 := Parts(Word("/"), Cat(name, tail), s1);
    repo, text := Parts(name, tail, s2);
    rev := OptionalMeans("@", revision, text);
  }

  lemma HfPrints(name: Re, revision: Re, owner: string, repo: string, rev: Option<string>)
    requires Matches(name, owner) && Matches(name, repo) && Fits(rev, revision)
    ensures Matches(HfRest(name, revision), owner + ("/" + (repo + Suffix("@", rev))))
  {
    var tail := Optional(Cat(Word("@"), revision));
    OptionalPrints("@", revision, rev);
    Joined(name, tail, repo, Suffix("@", rev));
    Joined(Word("/"), Cat(name, tail), "/", repo + Suffix("@", rev));
    Joined(name, Cat(Word("/"), Cat(name, tail)), owner, "/" + (repo + Suffix("@", rev)));
  }

  lemma S3Parses(bucketRe: Re, prefixRe: Re, s: string) returns (bucket: string, prefix: string)
    requires Matches(S3Rest(bucketRe, prefixRe), s)
    ensures Matches(bucketRe, bucket) && Matches(prefixRe, prefix) && s == bucket + ("/" + prefix)
  {
    var s1, slash: string;
    bucket, s1 := Parts(bucketRe, Cat(Word("/"), prefixRe), s);
    slash, prefix := Parts(Word("/"), prefixRe, s1);
  }

  lemma S3Prints(bucketRe: Re, prefixRe: Re, bucket: string, prefix: string)
    requires Matches(bucketRe, bucket) && Matches(prefixRe, prefix)
    ensures Matches(S3Rest(bucketRe, prefixRe), bucket + ("/" + prefix))
  {
    Joined(Word("/"), prefixRe, "/", prefix);
    Joined(bucketRe, Cat(Word("/"), prefixRe), bucket, "/" + prefix);
  }

  function VersionRe(tag: Re, digest: Re): Re {
    Alt(Word(""), Alt(Cat(Word(":"), tag), Cat(Word("@sha256:"), digest)))
  }

  lemma VersionParses(tag: Re, digest: Re, s: string) returns (v: Version)
    requires Matches(VersionRe(tag, digest), s)
    ensures s == VersionText(v) && VersionFits(v, tag, digest)
  {
    if Matches(Cat(Word(":"), tag), s) {
      var x, y := Parts(Word(":"), tag, s);
      v := Tagged(y);
    } else if Matches(Cat(Word("@sha256:"), digest), s) {
      var x, y := Parts(Word("@sha256:"), digest, s);
      v := Pinned(y);
    } else {
      assert !Matches(Alt(Cat(Word(":"), tag), Cat(Word("@sha256:"), digest)), s);
      v := Latest;
    }
  }

  lemma VersionPrints(tag: Re, digest: Re, v: Version)
    requires VersionFits(v, tag, digest)
    ensures Matches(VersionRe(tag, digest), VersionText(v))
  {
    match v {
      case Latest =>
      case Tagged(t) => Joined(Word(":"), tag, ":", t);
      case Pinned(d) => Joined(Word("@sha256:"), digest, "@sha256:", d);
    }
  }

  lemma OciParses(hostRe: Re, portRe: Re, repoRe: Re, tag: Re, digest: Re, s: string)
    returns (host: string, port: Option<string>, repository: string, v: Version)
    requires Matches(OciRest(hostRe, portRe, repoRe, tag, digest), s)
    ensures Matches(hostRe, host) && Fits(port, portRe) && Matches(repoRe, repository) && VersionFits(v, tag, digest)
    ensures s == host + (Suffix(":", port) + ("/" + (repository + VersionText(v))))
  {
    var version := VersionRe(tag, digest);
    var s1, s2, s3, portText, slash, text: string;
    host, s1 := Parts(hostRe, Cat(Optional(Cat(Word(":"), portRe)), Cat(Word("/"), Cat(repoRe, version))), s);
    portText, s2 := Parts(Optional(Cat(Word(":"), portRe)), Cat(Word("/"), Cat(repoRe, version)), s1);
    port := OptionalMeans(":", portRe, portText);
    slash, s3 := Parts(Word("/"), Cat(repoRe, version), s2);
    repository, text := Parts(repoRe, version, s3);
    v := VersionParses(tag, digest, text);
  }

  lemma OciPrints(hostRe: Re, portRe: Re, repoRe: Re, tag: Re, digest: Re,
                  host: string, port: Option<string>, repository: string, v: Version)
    requires Matches(hostRe, host) && Fits(port, portRe) && Matches(repoRe, repository) && VersionFits(v, tag, digest)
    ensures Matches(OciRest(hostRe, portRe, repoRe, tag, digest),
                    host + (Suffix(":", port) + ("/" + (repository + VersionText(v)))))
  {
    var version := VersionRe(tag, digest);
    VersionPrints(tag, digest, v);
    OptionalPrints(":", portRe, port);
    Joined(repoRe, version, repository, VersionText(v));
    Joined(Word("/"), Cat(repoRe, version), "/", repository + VersionText(v));
    Joined(Optional(Cat(Word(":"), portRe)), Cat(Word("/"), Cat(repoRe, version)),
           Suffix(":", port), "/" + (repository + VersionText(v)));
    Joined(hostRe, Cat(Optional(Cat(Word(":"), portRe)), Cat(Word("/"), Cat(repoRe, version))),
           host, Suffix(":", port) + ("/" + (repository + VersionText(v))));
  }

  /* ---- one scheme, one decomposition ---- */

  /** The scheme of the URI is that of the source, and no other. */
  lemma OneScheme(src: Source)
    ensures HF <= Print(src) <==> src.HuggingFace?
    ensures S3 <= Print(src) <==> src.Bucket?
    ensures OCI <= Print(src) <==> src.Registry?
  {
    var s := Print(src);
    assert s[0] == SchemeOf(src)[0];
  }

  lemma ParseHf(uri: string) returns (src: Source)
    requires Matches(HF_URI, uri)
    ensures WellFormed(src) && Print(src) == uri && src.HuggingFace?
  {
    var hf, s := Parts(Word(HF), HfRest(HF_NAME, HF_REVISION), uri);
    var owner, repo, rev := HfParses(HF_NAME, HF_REVISION, s);
    src := HuggingFace(owner, repo, rev);
  }

  lemma ParseS3(uri: string) returns (src: Source)
    requires Matches(S3_URI, uri)
    ensures WellFormed(src) && Print(src) == uri && src.Bucket?
  {
    var s3, s := Parts(Word(S3), S3Rest(BUCKET, PREFIX), uri);
    var bucket, prefix := S3Parses(BUCKET, PREFIX, s);
    src := Bucket(bucket, prefix);
  }

  lemma ParseOci(uri: string) returns (src: Source)
    requires Matches(OCI_URI, uri)
    ensures WellFormed(src) && Print(src) == uri && src.Registry?
  {
    var oci, s := Parts(Word(OCI), OciRest(HOST, PORT, REPOSITORY, TAG, DIGEST), uri);
    var host, port, repository, v := OciParses(HOST, PORT, REPOSITORY, TAG, DIGEST, s);
    src := Registry(host, port, repository, v);
  }

  lemma HasScheme(uri: string)
    requires Matches(SCHEME_URI, uri)
    ensures HF <= uri || S3 <= uri || OCI <= uri
  {
    var x, s := Parts(SCHEMES, Cat(Word("://"), Plus(AnyChar)), uri);
    var sep, y := Parts(Word("://"), Plus(AnyChar), s);
    OneOfSchemes(x);
    Starts(x, y, uri);
  }

  lemma OneOfSchemes(x: string)
    requires Matches(SCHEMES, x)
    ensures x == "hf" || x == "s3" || x == "oci"
  {
    assert Matches(Alt(Word("s3"), Word("oci")), x) || x == "hf";
  }

  lemma Starts(name: string, rest: string, uri: string)
    requires uri == name + ("://" + rest)
    ensures name + "://" <= uri
  {
    assert uri == name + "://" + rest;
  }

  /** The printed form matches the expression of its scheme. */
  lemma Prints(src: Source)
    requires WellFormed(src)
    ensures src.HuggingFace? ==> Matches(HF_URI, Print(src))
    ensures src.Bucket? ==> Matches(S3_URI, Print(src))
    ensures src.Registry? ==> Matches(OCI_URI, Print(src))
  {
    match src {
      case HuggingFace(owner, repo, rev) =>
        HfPrints(HF_NAME, HF_REVISION, owner, repo, rev);
        Joined(Word(HF), HfRest(HF_NAME, HF_REVISION), HF, owner + ("/" + (repo + Suffix("@", rev))));
      case Bucket(bucket, prefix) =>
        S3Prints(BUCKET, PREFIX, bucket, prefix);
        Joined(Word(S3), S3Rest(BUCKET, PREFIX), S3, bucket + ("/" + prefix));
      case Registry(host, port, repository, v) =>
        OciPrints(HOST, PORT, REPOSITORY, TAG, DIGEST, host, port, repository, v);
        Joined(Word(OCI), OciRest(HOST, PORT, REPOSITORY, TAG, DIGEST), OCI,
               host + (Suffix(":", port) + ("/" + (repository + VersionText(v)))));
    }
  }

  lemma SchemeMatches(name: string, rest: string)
    requires Matches(SCHEMES, name) && Matches(Plus(AnyChar), rest)
    ensures Matches(SCHEME_URI, name + ("://" + rest))
  {
    Joined(Word("://"), Plus(AnyChar), "://", rest);
    Joined(SCHEMES, Cat(Word("://"), Plus(AnyChar)), name, "://" + rest);
  }

  lemma SchemeNames()
    ensures Matches(SCHEMES, "hf") && Matches(SCHEMES, "s3") && Matches(SCHEMES, "oci")
  {
    var others := Alt(Word("s3"), Word("oci"));
    assert Matches(Word("hf"), "hf");
    assert Matches(Word("s3"), "s3") && Matches(others, "s3");
    assert Matches(Word("oci"), "oci") && Matches(others, "oci");
  }

  lemma NoNewline(name: string, rest: string)
    requires Matches(Plus(UriChar), name + ("://" + rest)) && rest != ""
    ensures Matches(Plus(AnyChar), rest)
  {
    var uri, n := name + ("://" + rest), |name| + 3;
    assert !UriChar.Has('\n');
    forall i | 0 <= i < |rest|
      ensures AnyChar.Has(rest[i])
    {
      assert rest[i] == uri[n + i] && UriChar.Has(uri[n + i]);
    }
  }

  lemma PrintsScheme(src: Source)
    requires Matches(Plus(UriChar), Print(src))
    ensures Matches(SCHEME_URI, Print(src))
  {
    var name := match src case HuggingFace(_, _, _) => "hf" case Bucket(_, _) => "s3" case Registry(_, _, _, _) => "oci";
    SchemeNames();
    NameAndBody(name, SchemeOf(src), Body(src));
    NoNewline(name, Body(src));
    SchemeMatches(name, Body(src));
  }

  lemma NameAndBody(name: string, scheme: string, body: string)
    requires scheme == name + "://"
    ensures scheme + body == name + ("://" + body)
  {
  }

  /** The rules that are left once the grammar is known. */
  ghost predicate PlainRules(uri: string) {
    |uri| <= 2048 && Matches(Plus(UriChar), uri) && NoDotSegmentRule(uri) && PercentRule(uri)
  }

  /** The accepted URIs are exactly the printed forms of well-formed sources that pass the remaining
      rules; the scheme rule and the rule on queries and fragments are implied by the others. */
  lemma Grammar(uri: string)
    ensures Accepted(uri) <==>
            PlainRules(uri) && exists src :: WellFormed(src) && Print(src) == uri && (src.HuggingFace? ==> !Contains(uri, ".."))
  {
    if Accepted(uri) {
      var src := Decomposes(uri);
    }
    if PlainRules(uri) {
      if src :| WellFormed(src) && Print(src) == uri && (src.HuggingFace? ==> !Contains(uri, "..")) {
        PrintedIsAccepted(src);
      }
    }
  }

  lemma PrintedKeepsRules(src: Source)
    requires WellFormed(src) && (src.HuggingFace? ==> !Contains(Print(src), ".."))
    ensures HfRule(Print(src)) && S3Rule(Print(src)) && OciRule(Print(src))
  {
    OneScheme(src);
    Prints(src);
  }

  lemma PrintedIsAccepted(src: Source)
    requires WellFormed(src) && PlainRules(Print(src)) && (src.HuggingFace? ==> !Contains(Print(src), ".."))
    ensures Accepted(Print(src))
  {
    var uri := Print(src);
    PrintedKeepsRules(src);
    PrintsScheme(src);
    QueryRuleImplied(uri);
  }

  lemma QueryRuleImplied(uri: string)
    requires Matches(Plus(UriChar), uri)
    ensures QueryRule(uri) && uri != ""
  {
    NoQuery(uri, "?");
    NoQuery(uri, "#");
  }

  lemma NoQuery(uri: string, w: string)
    requires Matches(Plus(UriChar), uri) && |w| == 1 && !UriChar.Has(w[0])
    ensures !Contains(uri, w)
  {
    forall k: nat | OccursAt(uri, w, k)
      ensures uri[k] == w[0]
    {
      OccursHead(uri, w, k);
    }
  }

  lemma OccursHead(s: string, w: string, k: nat)
    requires OccursAt(s, w, k) && w != ""
    ensures s[k] == w[0]
  {
    assert s[k..k + |w|][0] == s[k];
  }

  lemma Decomposes(uri: string) returns (src: Source)
    requires Accepted(uri)
    ensures WellFormed(src) && Print(src) == uri && (src.HuggingFace? ==> !Contains(uri, ".."))
  {
    HasScheme(uri);
    if HF <= uri {
      src := ParseHf(uri);
    } else if S3 <= uri {
      src := ParseS3(uri);
    } else {
      src := ParseOci(uri);
    }
  }

  /** Two splits of one string at the first stop character are the same split. */
  lemma SplitUnique(x: string, y: string, x': string, y': string, stops: string)
    requires x + y == x' + y'
    requires forall c | c in stops :: c !in x && c !in x'
    requires (y == "" || y[0] in stops) && (y' == "" || y'[0] in stops)
    ensures x == x' && y == y'
  {
    StopInside(x, y, x', y', stops);
    StopInside(x', y', x, y, stops);
    assert x == (x + y)[..|x|] == (x' + y')[..|x|] == x';
    assert y == (x + y)[|x|..] == (x' + y')[|x|..] == y';
  }

  lemma StopInside(x: string, y: string, x': string, y': string, stops: string)
    requires x + y == x' + y' && (y == "" || y[0] in stops)
    ensures |x| < |x'| ==> x'[|x|] in stops
  {
    if |x| < |x'| {
      assert (x + y)[|x|] == y[0] && (x' + y')[|x|] == x'[|x|];
    }
  }

  lemma NameAvoids(s: string, c: char)
    requires Matches(HF_NAME, s) && !NameChar.Has(c)
    ensures c !in s && s != ""
  {
    var tail := Cat(Chars(NameChar, 0, Unbounded), Chars(AlphaNum, 1, AtMost(1)));
    assert !AlphaNum.Has(c);
    assert Avoids(Chars(NameChar, 0, Unbounded), c) && Avoids(Chars(AlphaNum, 1, AtMost(1)), c);
    assert Avoids(tail, c);
    assert Avoids(Optional(tail), c);
    AvoidsMeans(HF_NAME, s, c);
    NonEmptyMeans(HF_NAME, s);
  }

  lemma RepositoryAvoids(s: string, c: char)
    requires Matches(REPOSITORY, s) && (c == ':' || c == '@')
    ensures c !in s
  {
    var dashes := Alt(Word("_"), Plus(Hyphen));
    assert Avoids(dashes, c);
    assert Avoids(Alt(Word("__"), dashes), c);
    assert Avoids(Alt(Word("."), Alt(Word("__"), dashes)), c);
    assert Avoids(Cat(Alt(Word("."), Alt(Word("__"), dashes)), Plus(LowerNum)), c);
    assert Avoids(Star(Cat(Alt(Word("."), Alt(Word("__"), dashes)), Plus(LowerNum))), c);
    assert Avoids(COMPONENT, c);
    assert Avoids(Cat(Word("/"), COMPONENT), c);
    assert Avoids(Star(Cat(Word("/"), COMPONENT)), c);
    AvoidsMeans(REPOSITORY, s, c);
  }

  lemma HfUnique(owner: string, repo: string, rev: Option<string>, owner': string, repo': string, rev': Option<string>)
    requires Matches(HF_NAME, owner) && Matches(HF_NAME, repo) && Matches(HF_NAME, owner') && Matches(HF_NAME, repo')
    requires owner + ("/" + (repo + Suffix("@", rev))) == owner' + ("/" + (repo' + Suffix("@", rev')))
    ensures owner == owner' && repo == repo' && rev == rev'
  {
    NameAvoids(owner, '/');
    NameAvoids(owner', '/');
    NameAvoids(repo, '@');
    NameAvoids(repo', '@');
    SplitUnique(owner, "/" + (repo + Suffix("@", rev)), owner', "/" + (repo' + Suffix("@", rev')), "/");
    Tails("/", repo + Suffix("@", rev), repo' + Suffix("@", rev'));
    SplitUnique(repo, Suffix("@", rev), repo', Suffix("@", rev'), "@");
    SuffixUnique("@", rev, rev');
  }

  lemma Tails(w: string, x: string, y: string)
    requires w + x == w + y
    ensures x == y
  {
    assert x == (w + x)[|w|..] == (w + y)[|w|..] == y;
  }

  lemma SuffixUnique(sep: string, a: Option<string>, b: Option<string>)
    requires sep != "" && Suffix(sep, a) == Suffix(sep, b)
    ensures a == b
  {
    if a.Some? && b.Some? {
      Tails(sep, a.value, b.value);
    }
  }

  lemma S3Unique(bucket: string, prefix: string, bucket': string, prefix': string)
    requires Matches(BUCKET, bucket) && Matches(BUCKET, bucket')
    requires bucket + ("/" + prefix) == bucket' + ("/" + prefix')
    ensures bucket == bucket' && prefix == prefix'
  {
    SplitUnique(bucket, "/" + prefix, bucket', "/" + prefix', "/");
    Tails("/", prefix, prefix');
  }

  lemma VersionHead(v: Version)
    ensures VersionText(v) == "" <==> v.Latest?
    ensures v.Tagged? ==> VersionText(v)[0] == ':'
    ensures v.Pinned? ==> VersionText(v)[0] == '@'
  {
  }

  lemma VersionUnique(a: Version, b: Version)
    requires VersionText(a) == VersionText(b)
    ensures a == b
  {
    VersionHead(a);
    VersionHead(b);
    match (a, b) {
      case (Tagged(t), Tagged(u)) => Tails(":", t, u);
      case (Pinned(d), Pinned(e)) => Tails("@sha256:", d, e);
      case _ =>
    }
  }

  lemma OciUnique(host: string, port: Option<string>, repo: string, v: Version,
                  host': string, port': Option<string>, repo': string, v': Version)
    requires WellFormed(Registry(host, port, repo, v)) && WellFormed(Registry(host', port', repo', v'))
    requires host + (Suffix(":", port) + ("/" + (repo + VersionText(v))))
             == host' + (Suffix(":", port') + ("/" + (repo' + VersionText(v'))))
    ensures host == host' && port == port' && repo == repo' && v == v'
  {
    AuthorityAvoids(host, port);
    AuthorityAvoids(host', port');
    AuthorityUnique(host, port, repo + VersionText(v), host', port', repo' + VersionText(v'));
    RepositoryAvoids(repo, ':');
    RepositoryAvoids(repo, '@');
    RepositoryAvoids(repo', ':');
    RepositoryAvoids(repo', '@');
    PathUnique(repo, v, repo', v');
  }

  lemma AuthorityAvoids(host: string, port: Option<string>)
    requires Matches(HOST, host) && Fits(port, PORT)
    ensures ':' !in host && '/' !in host && '/' !in Suffix(":", port)
  {
  }

  /** A host without colons and slashes and a port without slashes can be told from the path. */
  lemma AuthorityUnique(host: string, port: Option<string>, path: string, host': string, port': Option<string>, path': string)
    requires ':' !in host && '/' !in host && '/' !in Suffix(":", port)
    requires ':' !in host' && '/' !in host' && '/' !in Suffix(":", port')
    requires host + (Suffix(":", port) + ("/" + path)) == host' + (Suffix(":", port') + ("/" + path'))
    ensures host == host' && port == port' && path == path'
  {
    SplitUnique(host, Suffix(":", port) + ("/" + path), host', Suffix(":", port') + ("/" + path'), ":/");
    SplitUnique(Suffix(":", port), "/" + path, Suffix(":", port'), "/" + path', "/");
    SuffixUnique(":", port, port');
    Tails("/", path, path');
  }

  lemma PathUnique(repo: string, v: Version, repo': string, v': Version)
    requires repo + VersionText(v) == repo' + VersionText(v')
    requires ':' !in repo && '@' !in repo && ':' !in repo' && '@' !in repo'
    ensures repo == repo' && v == v'
  {
    VersionHead(v);
    VersionHead(v');
    SplitUnique(repo, VersionText(v), repo', VersionText(v'), ":@");
    VersionUnique(v, v');
  }

  /** A source is determined by its printed form. */
  lemma PrintInjective(a: Source, b: Source)
    requires WellFormed(a) && WellFormed(b) && Print(a) == Print(b)
    ensures a == b
  {
    OneScheme(a);
    OneScheme(b);
    match (a, b) {
      case (HuggingFace(o, r, v), HuggingFace(o', r', v')) =>
        Tails(HF, o + ("/" + (r + Suffix("@", v))), o' + ("/" + (r' + Suffix("@", v'))));
        HfUnique(o, r, v, o', r', v');
      case (Bucket(x, p), Bucket(x', p')) =>
        Tails(S3, x + ("/" + p), x' + ("/" + p'));
        S3Unique(x, p, x', p');
      case (Registry(h, p, r, v), Registry(h', p', r', v')) =>
        Tails(OCI, h + (Suffix(":", p) + ("/" + (r + VersionText(v)))), h' + (Suffix(":", p') + ("/" + (r' + VersionText(v')))));
        OciUnique(h, p, r, v, h', p', r', v');
      case _ => assert false;
    }
  }

  /** Every accepted URI has exactly one scheme and decomposes in exactly one way into parts that print
      back to it. */
  lemma UniqueDecomposition(uri: string) returns (src: Source)
    requires Accepted(uri)
    ensures WellFormed(src) && Print(src) == uri
    ensures forall other | WellFormed(other) && Print(other) == uri :: other == src
    ensures (HF <= uri <==> src.HuggingFace?) && (S3 <= uri <==> src.Bucket?) && (OCI <= uri <==> src.Registry?)
  {
    src := Decomposes(uri);
    OneScheme(src);
    forall other | WellFormed(other) && Print(other) == uri
      ensures other == src
    {
      PrintInjective(src, other);
    }
  }

  /* ---- dot segments ---- */

  /** s[i..j] is a maximal run between slashes (RFC 3986, section 3.3). */
  predicate IsSegment(s: string, i: nat, j: nat) {
    && i <= j <= |s| && '/' !in s[i..j]
    && (i == 0 || s[i - 1] == '/') && (j == |s| || s[j] == '/')
  }

  predicate Hex(c: char) {
    Digit(c) || 'a' <= c <= 'f' || 'A' <= c <= 'F'
  }

  function HexValue(c: char): int
    requires Hex(c)
  {
    if Digit(c) then c as int - '0' as int
    else if 'a' <= c <= 'f' then c as int - 'a' as int + 10
    else c as int - 'A' as int + 10
  }

  /** Percent-decoding (RFC 3986, section 2.1). */
  function Decoded(s: string): (d: string)
    ensures d == "" <==> s == ""
  {
    if s == "" then ""
    else if |s| >= 3 && s[0] == '%' && Hex(s[1]) && Hex(s[2])
    then [(16 * HexValue(s[1]) + HexValue(s[2])) as char] + Decoded(s[3..])
    else [s[0]] + Decoded(s[1..])
  }

  /** One step of decoding: the decoded character and the number of characters it took. */
  lemma DecodedHead(s: string) returns (n: nat)
    requires s != "" && PercentRule(s)
    ensures (n == 1 && Decoded(s) == [s[0]] + Decoded(s[1..])) || (n == 3 && |s| >= 3)
    ensures n == 3 ==> exists c: char :: c != '.' && c != '/' && Decoded(s) == [c] + Decoded(s[3..])
  {
    n := 1;
    if |s| >= 3 && s[0] == '%' && Hex(s[1]) && Hex(s[2]) {
      n := 3;
      assert s[1] != '2' || !LetterE.Has(s[2]);
      EncodedCharacter(s[1], s[2]);
    }
  }

  lemma EncodedCharacter(a: char, b: char)
    requires Hex(a) && Hex(b) && !(a == '2' && LetterE.Has(b))
    ensures (16 * HexValue(a) + HexValue(b)) as char != '.' && (16 * HexValue(a) + HexValue(b)) as char != '/'
  {
  }

  lemma PercentRest(s: string, n: nat)
    requires PercentRule(s) && n <= |s|
    ensures PercentRule(s[n..])
  {
    assert forall i | 0 <= i < |s[n..]| :: s[n..][i] == s[n + i];
  }

  /** Without encoded dots and slashes, decoding makes neither. */
  lemma {:induction false} DecodingAddsNone(s: string)
    requires PercentRule(s)
    ensures Decoded(s) == "." ==> s == "."
    ensures Decoded(s) == ".." ==> s == ".."
    ensures '/' in Decoded(s) ==> '/' in s
    decreases |s|
  {
    if s != "" {
      var n := DecodedHead(s);
      PercentRest(s, n);
      DecodingAddsNone(s[n..]);
      if n == 1 {
        OneTaken(s, s[0], s[1..], Decoded(s), Decoded(s[1..]));
      } else {
        var c: char :| c != '.' && c != '/' && Decoded(s) == [c] + Decoded(s[3..]);
        ThreeTaken(s, c, Decoded(s), Decoded(s[3..]));
      }
    }
  }

  /** A first character that stands for itself, */
  lemma OneTaken(s: string, c: char, rest: string, d: string, tail: string)
    requires s != "" && c == s[0] && rest == s[1..] && d == [c] + tail && (tail == "" <==> rest == "")
    requires (tail == "." ==> rest == ".") && ('/' in tail ==> '/' in rest)
    ensures (d == "." ==> s == ".") && (d == ".." ==> s == "..") && ('/' in d ==> '/' in s)
  {
    assert s == [c] + rest;
    assert d[1..] == tail;
  }

  /** and a decoded one that is neither a dot nor a slash. */
  lemma ThreeTaken(s: string, c: char, d: string, tail: string)
    requires |s| >= 3 && c != '.' && c != '/' && d == [c] + tail && ('/' in tail ==> '/' in s[3..])
    ensures d != "." && d != ".." && ('/' in d ==> '/' in s)
  {
    assert d[0] == c;
    assert s == s[..3] + s[3..];
  }

  /** No segment of an accepted URI is "." or "..", literally or after percent-decoding, and decoding
      never produces a further slash. */
  lemma NoDotSegments(uri: string, i: nat, j: nat)
    requires Accepted(uri) && IsSegment(uri, i, j)
    ensures Decoded(uri[i..j]) != "." && Decoded(uri[i..j]) != ".." && '/' !in Decoded(uri[i..j])
    ensures uri[i..j] != "." && uri[i..j] != ".."
  {
    var seg := uri[i..j];
    SegmentRules(uri, i, j, seg);
    DecodingAddsNone(seg);
  }

  lemma SegmentRules(uri: string, i: nat, j: nat, seg: string)
    requires Accepted(uri) && IsSegment(uri, i, j) && seg == uri[i..j]
    ensures seg != "." && seg != ".." && '/' !in seg && PercentRule(seg)
  {
    HasScheme(uri);
    DotsSlashed();
    assert forall k | 0 <= k < |seg| :: seg[k] == uri[i + k];
    NotSegment(uri, i, j, ".", "/.");
    NotSegment(uri, i, j, "..", "/..");
  }

  lemma DotsSlashed()
    ensures "/" + "." == "/." && "/" + ".." == "/.." && "/." + "/" == "/./" && "/.." + "/" == "/../"
  {
  }

  lemma NotSegment(uri: string, i: nat, j: nat, dots: string, slashed: string)
    requires IsSegment(uri, i, j) && dots != "" && slashed == "/" + dots
    requires uri != "" && uri[0] != dots[0]
    requires !Contains(uri, slashed + "/") && !EndsWith(uri, slashed)
    ensures uri[i..j] != dots
  {
    if uri[i..j] == dots {
      SegmentOccurs(uri, i, j, dots, slashed);
    }
  }

  /** A segment that is not the first stands behind a slash, and before one unless it is the last. */
  lemma SegmentOccurs(uri: string, i: nat, j: nat, dots: string, slashed: string)
    requires IsSegment(uri, i, j) && uri[i..j] == dots && dots != "" && slashed == "/" + dots
    requires uri[0] != dots[0]
    ensures EndsWith(uri, slashed) || Contains(uri, slashed + "/")
  {
    assert uri[i] == dots[0];
    assert uri[i - 1..j] == slashed;
    if j < |uri| {
      assert uri[i - 1..j + 1] == slashed + "/";
      assert OccursAt(uri, slashed + "/", i - 1);
    }
  }

  /* ---- the rules can be met ---- */

  /** URI characters other than dots and percent signs. */
  predicate Plain(s: string) {
    forall i | 0 <= i < |s| :: UriChar.Has(s[i]) && s[i] != '.' && s[i] != '%'
  }

  lemma HasDot(uri: string, w: string, j: nat)
    requires Contains(uri, w) && j < |w| && w[j] == '.'
    ensures '.' in uri
  {
    var k: nat :| k <= |uri| && OccursAt(uri, w, k);
    assert uri[k..k + |w|][j] == uri[k + j];
  }

  lemma EndHasDot(uri: string, w: string)
    requires EndsWith(uri, w) && w != "" && w[|w| - 1] == '.'
    ensures '.' in uri
  {
    assert uri[|uri| - |w|..][|w| - 1] == uri[|uri| - 1];
  }

  lemma DotRuleNeedsDots(uri: string)
    ensures NoDotSegmentRule(uri) || '.' in uri
  {
    if Contains(uri, "/./") {
      HasDot(uri, "/./", 1);
    } else if Contains(uri, "/../") {
      HasDot(uri, "/../", 1);
    } else if EndsWith(uri, "/.") {
      EndHasDot(uri, "/.");
    } else if EndsWith(uri, "/..") {
      EndHasDot(uri, "/..");
    }
  }

  lemma PlainPasses(uri: string)
    requires Plain(uri) && 1 <= |uri| <= 2048
    ensures PlainRules(uri)
  {
    DotRuleNeedsDots(uri);
  }

  lemma NoDoubleDot(uri: string)
    requires Plain(uri)
    ensures !Contains(uri, "..")
  {
    if Contains(uri, "..") {
      HasDot(uri, "..", 0);
    }
  }

  /** Every well-formed source that prints without dots and percent signs, and fits, is accepted. */
  lemma PlainSourceIsAccepted(src: Source)
    requires WellFormed(src) && Plain(Print(src)) && |Print(src)| <= 2048
    ensures Accepted(Print(src))
  {
    assert |SchemeOf(src)| >= 5;
    PlainPasses(Print(src));
    NoDoubleDot(Print(src));
    PrintedIsAccepted(src);
  }
}
