/** The pair check of docs/fusioninfer/scripts/check-i18n-content.mjs: a page and its translation must
    have the same explicit heading ids. */
module HeadingPairs {
  import opened Api
  import opened HeadingLines
  import opened Headings

  datatype Error =
    | Unreadable(path: string)
    | MissingId(path: string, line: nat)
    | DuplicateId(path: string, id: string, lines: seq<nat>)
    | SequenceMismatch(index: nat)

  function Ids(headings: seq<Heading>): seq<Option<string>> {
    seq(|headings|, i requires 0 <= i < |headings| => headings[i].id)
  }

  predicate AllExplicit(ids: seq<Option<string>>) {
    forall i | 0 <= i < |ids| :: ids[i].Some?
  }

  predicate NoDuplicates(ids: seq<Option<string>>) {
    forall i, j | 0 <= i < j < |ids| && ids[i].Some? :: ids[i] != ids[j]
  }

  /* ---- comparing two sequences ---- */

  /** Reading past the end gives undefined, as does a missing id. */
  function IdOrUndefined(ids: seq<Option<string>>, i: nat): Option<string> {
    if i < |ids| then ids[i] else None
  }

  /** Both sequences agree up to n, undefined being equal to undefined. */
  predicate AgreeUpTo(left: seq<Option<string>>, right: seq<Option<string>>, n: nat) {
    forall i: nat | i < n :: IdOrUndefined(left, i) == IdOrUndefined(right, i)
  }

  function Longer(left: seq<Option<string>>, right: seq<Option<string>>): nat {
    if |left| >= |right| then |left| else |right|
  }

  method FirstMismatchIndex(left: seq<Option<string>>, right: seq<Option<string>>) returns (r: int)
    ensures -1 <= r < Longer(left, right)
    ensures r == -1 ==> AgreeUpTo(left, right, Longer(left, right))
    ensures r >= 0 ==> AgreeUpTo(left, right, r) && IdOrUndefined(left, r) != IdOrUndefined(right, r)
  {
    var length := Longer(left, right);
    for index := 0 to length
      invariant AgreeUpTo(left, right, index)
    {
      if IdOrUndefined(left, index) != IdOrUndefined(right, index) {
        return index;
      }
    }
    return -1;
  }

  /** What the comparison reports: nothing, or the first index at which the two differ. */
  predicate IsMismatch(left: seq<Option<string>>, right: seq<Option<string>>, reported: seq<Error>) {
    || (reported == [] && AgreeUpTo(left, right, Longer(left, right)))
    || (&& |reported| == 1 && reported[0].SequenceMismatch?
        && AgreeUpTo(left, right, reported[0].index)
        && IdOrUndefined(left, reported[0].index) != IdOrUndefined(right, reported[0].index))
  }

  /** The sequence without the missing ids at its end. */
  function Trimmed(ids: seq<Option<string>>): seq<Option<string>> {
    if ids == [] || ids[|ids| - 1].Some? then ids else Trimmed(ids[..|ids| - 1])
  }

  lemma {:induction false} TrimmedIds(ids: seq<Option<string>>)
    ensures Trimmed(ids) <= ids
    ensures Trimmed(ids) != [] ==> Trimmed(ids)[|Trimmed(ids)| - 1].Some?
    ensures forall i: nat :: IdOrUndefined(Trimmed(ids), i) == IdOrUndefined(ids, i)
  {
    if ids != [] && ids[|ids| - 1].None? {
      TrimmedIds(ids[..|ids| - 1]);
    }
  }

  /** What the comparison alone decides: equality up to missing ids at the ends, */
  lemma AgreeIffTrimmedEqual(left: seq<Option<string>>, right: seq<Option<string>>)
    ensures AgreeUpTo(left, right, Longer(left, right)) <==> Trimmed(left) == Trimmed(right)
  {
    TrimmedIds(left);
    TrimmedIds(right);
    var l, r := Trimmed(left), Trimmed(right);
    if AgreeUpTo(left, right, Longer(left, right)) {
      forall i: nat
        ensures IdOrUndefined(l, i) == IdOrUndefined(r, i)
      {
        if i < Longer(left, right) {
          assert IdOrUndefined(left, i) == IdOrUndefined(right, i);
        }
      }
      assert |l| > |r| ==> IdOrUndefined(l, |l| - 1) == IdOrUndefined(r, |l| - 1);
      assert |r| > |l| ==> IdOrUndefined(r, |r| - 1) == IdOrUndefined(l, |r| - 1);
      assert forall i | 0 <= i < |l| :: l[i] == IdOrUndefined(l, i) && r[i] == IdOrUndefined(r, i);
    }
    if l == r {
      forall i: nat | i < Longer(left, right)
        ensures IdOrUndefined(left, i) == IdOrUndefined(right, i)
      {
        assert IdOrUndefined(l, i) == IdOrUndefined(left, i) && IdOrUndefined(r, i) == IdOrUndefined(right, i);
      }
    }
  }

  /** so it takes a page with one heading without an id for a page with none. */
  lemma TrailingMissingIdsCompareEqual()
    ensures AgreeUpTo([None], [], Longer([None], []))
  {
    assert IdOrUndefined([None], 0) == IdOrUndefined([], 0);
  }

  /** Among fully explicit sequences it decides equality. */
  lemma ExplicitAgree(left: seq<Option<string>>, right: seq<Option<string>>)
    requires AllExplicit(left) && AllExplicit(right)
    ensures AgreeUpTo(left, right, Longer(left, right)) <==> left == right
  {
    AgreeIffTrimmedEqual(left, right);
  }

  /** When it finds no mismatch, the sequences are equal exactly if they are equally long. */
  lemma AgreeEqualIffSameLength(left: seq<Option<string>>, right: seq<Option<string>>)
    requires AgreeUpTo(left, right, Longer(left, right))
    ensures left == right <==> |left| == |right|
  {
    if |left| == |right| {
      assert forall i | 0 <= i < |left| :: left[i] == IdOrUndefined(left, i) && right[i] == IdOrUndefined(right, i);
    }
  }

  /** So it decides equality of two sequences unless they have the same ids and differ in how many
      missing ones follow. */
  lemma DecidesEqualityIff(left: seq<Option<string>>, right: seq<Option<string>>)
    ensures (AgreeUpTo(left, right, Longer(left, right)) <==> left == right)
            <==> (Trimmed(left) == Trimmed(right) ==> |left| == |right|)
  {
    AgreeIffTrimmedEqual(left, right);
    if AgreeUpTo(left, right, Longer(left, right)) {
      AgreeEqualIffSameLength(left, right);
    }
  }

  /* ---- the errors of one file ---- */

  function MissingErrors(path: string, headings: seq<Heading>, n: nat): seq<Error>
    requires n <= |headings|
  {
    if n == 0 then []
    else if headings[n - 1].id.None? then MissingErrors(path, headings, n - 1) + [MissingId(path, headings[n - 1].line)]
    else MissingErrors(path, headings, n - 1)
  }

  /** The lines of the headings with this id, among the first n. */
  function LinesOf(headings: seq<Heading>, id: string, n: nat): seq<nat>
    requires n <= |headings|
  {
    if n == 0 then []
    else if headings[n - 1].id == Some(id) then LinesOf(headings, id, n - 1) + [headings[n - 1].line]
    else LinesOf(headings, id, n - 1)
  }

  /** The explicit ids of the first n headings in order of first occurrence: the keys of the script's map. */
  function KeysOf(headings: seq<Heading>, n: nat): seq<string>
    requires n <= |headings|
  {
    if n == 0 then []
    else
      var keys, h := KeysOf(headings, n - 1), headings[n - 1];
      if h.id.Some? && h.id.value !in keys then keys + [h.id.value] else keys
  }

  /** One error for each of the first n keys that has several lines. */
  function DuplicateErrors(path: string, headings: seq<Heading>, keys: seq<string>, n: nat): seq<Error>
    requires n <= |keys|
  {
    if n == 0 then []
    else DuplicateErrors(path, headings, keys, n - 1) + DuplicateOf(path, headings, keys[n - 1])
  }

  function DuplicateOf(path: string, headings: seq<Heading>, id: string): seq<Error> {
    var lines := LinesOf(headings, id, |headings|);
    if |lines| > 1 then [DuplicateId(path, id, lines)] else []
  }

  function FileErrors(path: string, headings: seq<Heading>): seq<Error> {
    var keys := KeysOf(headings, |headings|);
    MissingErrors(path, headings, |headings|) + DuplicateErrors(path, headings, keys, |keys|)
  }

  /** The map holds the lines of every id seen so far. */
  ghost predicate Collected(m: map<string, seq<nat>>, headings: seq<Heading>, n: nat)
    requires n <= |headings|
  {
    && (forall id | id in m :: m[id] == LinesOf(headings, id, n))
    && (forall id | id !in m :: LinesOf(headings, id, n) == [])
  }

  lemma NextCollected(m: map<string, seq<nat>>, headings: seq<Heading>, n: nat, m': map<string, seq<nat>>)
    requires n < |headings| && Collected(m, headings, n)
    requires var h := headings[n];
             m' == if h.id.None? then m
                   else m[h.id.value := (if h.id.value in m then m[h.id.value] else []) + [h.line]]
    ensures Collected(m', headings, n + 1)
  {
  }

  lemma {:induction false} NoneMissing(path: string, headings: seq<Heading>, n: nat)
    requires n <= |headings|
    ensures MissingErrors(path, headings, n) == [] <==> forall i | 0 <= i < n :: headings[i].id.Some?
  {
    if n > 0 {
      NoneMissing(path, headings, n - 1);
    }
  }

  lemma {:induction false} KeysMean(headings: seq<Heading>, n: nat, id: string)
    requires n <= |headings|
    ensures id in KeysOf(headings, n) <==> exists i :: 0 <= i < n && headings[i].id == Some(id)
  {
    if n > 0 {
      KeysMean(headings, n - 1, id);
    }
  }

  lemma {:induction false} LinesCount(headings: seq<Heading>, id: string, n: nat)
    requires n <= |headings|
    ensures LinesOf(headings, id, n) != [] <==> exists i :: 0 <= i < n && headings[i].id == Some(id)
    ensures |LinesOf(headings, id, n)| > 1
            <==> exists i, j :: 0 <= i < j < n && headings[i].id == Some(id) && headings[j].id == Some(id)
  {
    if n > 0 {
      LinesCount(headings, id, n - 1);
      if headings[n - 1].id == Some(id) && LinesOf(headings, id, n - 1) != [] {
        var i :| 0 <= i < n - 1 && headings[i].id == Some(id);
        assert headings[n - 1].id == Some(id);
      }
    }
  }

  lemma {:induction false} NoneDuplicate(path: string, headings: seq<Heading>, keys: seq<string>, n: nat)
    requires n <= |keys| && forall i | 0 <= i < n :: DuplicateOf(path, headings, keys[i]) == []
    ensures DuplicateErrors(path, headings, keys, n) == []
  {
    if n > 0 {
      NoneDuplicate(path, headings, keys, n - 1);
      assert DuplicateOf(path, headings, keys[n - 1]) == [];
    }
  }

  lemma {:induction false} EachReported(path: string, headings: seq<Heading>, keys: seq<string>, n: nat, i: nat)
    requires i < n <= |keys| && DuplicateOf(path, headings, keys[i]) != []
    ensures DuplicateErrors(path, headings, keys, n) != []
  {
    if i < n - 1 {
      EachReported(path, headings, keys, n - 1, i);
    }
  }

  lemma DuplicateMeans(path: string, headings: seq<Heading>, id: string)
    ensures DuplicateOf(path, headings, id) == []
            <==> !exists i, j :: 0 <= i < j < |headings| && headings[i].id == Some(id) && headings[j].id == Some(id)
  {
    LinesCount(headings, id, |headings|);
  }

  /** A file is reported exactly when some id is missing or duplicated. */
  lemma FileErrorsMean(path: string, headings: seq<Heading>)
    ensures FileErrors(path, headings) == [] <==> AllExplicit(Ids(headings)) && NoDuplicates(Ids(headings))
  {
    var keys := KeysOf(headings, |headings|);
    NoneMissing(path, headings, |headings|);
    ExplicitIds(headings);
    if DuplicateErrors(path, headings, keys, |keys|) == [] {
      forall i, j | 0 <= i < j < |headings| && headings[i].id.Some?
        ensures headings[i].id != headings[j].id
      {
        var id := headings[i].id.value;
        KeysMean(headings, |headings|, id);
        var k :| 0 <= k < |keys| && keys[k] == id;
        DuplicateMeans(path, headings, id);
        if DuplicateOf(path, headings, id) != [] {
          EachReported(path, headings, keys, |keys|, k);
        }
      }
    }
    if NoDuplicates(Ids(headings)) {
      forall k | 0 <= k < |keys|
        ensures DuplicateOf(path, headings, keys[k]) == []
      {
        DuplicateMeans(path, headings, keys[k]);
        NotTwice(headings, keys[k]);
      }
      NoneDuplicate(path, headings, keys, |keys|);
    }
  }

  lemma ExplicitIds(headings: seq<Heading>)
    ensures AllExplicit(Ids(headings)) <==> forall i | 0 <= i < |headings| :: headings[i].id.Some?
  {
    var ids := Ids(headings);
    assert forall i | 0 <= i < |headings| :: ids[i] == headings[i].id;
  }

  lemma NotTwice(headings: seq<Heading>, id: string)
    requires NoDuplicates(Ids(headings))
    ensures !exists i, j :: 0 <= i < j < |headings| && headings[i].id == Some(id) && headings[j].id == Some(id)
  {
    var ids := Ids(headings);
    forall i, j | 0 <= i < j < |headings| && headings[i].id == Some(id)
      ensures headings[j].id != Some(id)
    {
      assert ids[i] == headings[i].id && ids[j] == headings[j].id;
    }
  }

  /* ---- the check ---- */

  class Checker {
    /** The script's global list. */
    var errors: seq<Error>

    constructor ()
      ensures errors == []
    {
      errors := [];
    }

    /** The script's map from ids to lines, with its keys in insertion order. */
    method CollectIds(path: string, headings: seq<Heading>) returns (linesById: map<string, seq<nat>>, keys: seq<string>)
      modifies this
      ensures errors == old(errors) + MissingErrors(path, headings, |headings|)
      ensures keys == KeysOf(headings, |headings|)
      ensures forall id | id in keys :: id in linesById
      ensures Collected(linesById, headings, |headings|)
    {
      linesById, keys := map[], [];
      for n := 0 to |headings|
        invariant errors == old(errors) + MissingErrors(path, headings, n)
        invariant keys == KeysOf(headings, n)
        invariant forall id :: id in linesById <==> id in keys
        invariant Collected(linesById, headings, n)
      {
        var heading := headings[n];
        ghost var before := linesById;
        if heading.id.None? {
          errors := errors + [MissingId(path, heading.line)];
        } else {
          var id := heading.id.value;
          var lines := if id in linesById then linesById[id] else [];
          if id !in linesById {
            keys := keys + [id];
          }
          linesById := linesById[id := lines + [heading.line]];
        }
        NextCollected(before, headings, n, linesById);
      }
    }

    method ReportDuplicates(path: string, ghost headings: seq<Heading>, linesById: map<string, seq<nat>>, keys: seq<string>)
      requires Collected(linesById, headings, |headings|) && forall id | id in keys :: id in linesById
      modifies this
      ensures errors == old(errors) + DuplicateErrors(path, headings, keys, |keys|)
    {
      for n := 0 to |keys|
        invariant errors == old(errors) + DuplicateErrors(path, headings, keys, n)
      {
        var id := keys[n];
        assert id in keys;
        if |linesById[id]| > 1 {
          errors := errors + [DuplicateId(path, id, linesById[id])];
        }
      }
    }

    /** `validateHeadingIds`. */
    method ValidateHeadingIds(path: string, headings: seq<Heading>)
      modifies this
      ensures errors == old(errors) + FileErrors(path, headings)
    {
      var linesById, keys := CollectIds(path, headings);
      ReportDuplicates(path, headings, linesById, keys);
    }

    /** `readMarkdownHeadings`; None is a file that cannot be read. */
    method ReadMarkdownHeadings(path: string, content: Option<string>) returns (headings: Option<seq<Heading>>)
      modifies this
      ensures content.None? ==> headings.None? && errors == old(errors) + [Unreadable(path)]
      ensures content.Some? ==> headings == Some(HeadingList(Split(StripBom(content.value)))) && errors == old(errors)
    {
      if content.None? {
        errors := errors + [Unreadable(path)];
        return None;
      }
      var hs := ExtractMarkdownHeadings(content.value);
      return Some(hs);
    }

    /** `validateMarkdownPair` is sound and complete: it reports nothing exactly when both files can be
        read and their heading ids are all explicit, free of duplicates, and equal one by one. Otherwise it
        reports the unreadable files, or the errors of the page, of the translation and of the pair. */
    method ValidateMarkdownPair(sourcePath: string, translationPath: string, source: Option<string>, translation: Option<string>)
      modifies this
      ensures old(errors) <= errors
      ensures errors == old(errors) <==>
              && source.Some? && translation.Some?
              && var s, t := IdsOfFile(source.value), IdsOfFile(translation.value);
                 AllExplicit(s) && NoDuplicates(s) && t == s
      ensures source.None? || translation.None? ==>
                errors == old(errors) + UnreadableOf(sourcePath, source) + UnreadableOf(translationPath, translation)
      ensures source.Some? && translation.Some? ==>
                var s, t := HeadingsOfFile(source.value), HeadingsOfFile(translation.value);
                var before := old(errors) + FileErrors(sourcePath, s) + FileErrors(translationPath, t);
                before <= errors && IsMismatch(Ids(s), Ids(t), errors[|before|..])
    {
      var sourceHeadings := ReadMarkdownHeadings(sourcePath, source);
      var translatedHeadings := ReadMarkdownHeadings(translationPath, translation);
      if sourceHeadings.None? || translatedHeadings.None? {
        return;
      }
      ValidateHeadingIds(sourcePath, sourceHeadings.value);
      ValidateHeadingIds(translationPath, translatedHeadings.value);
      FileErrorsMean(sourcePath, sourceHeadings.value);
      FileErrorsMean(translationPath, translatedHeadings.value);
      var sourceIds, translatedIds := Ids(sourceHeadings.value), Ids(translatedHeadings.value);
      var mismatchIndex := FirstMismatchIndex(sourceIds, translatedIds);
      if AllExplicit(sourceIds) && AllExplicit(translatedIds) {
        ExplicitAgree(sourceIds, translatedIds);
      }
      if mismatchIndex != -1 {
        errors := errors + [SequenceMismatch(mismatchIndex)];
      }
    }
  }

  ghost function HeadingsOfFile(content: string): seq<Heading> {
    HeadingList(Split(StripBom(content)))
  }

  ghost function IdsOfFile(content: string): seq<Option<string>> {
    Ids(HeadingsOfFile(content))
  }

  function UnreadableOf(path: string, content: Option<string>): seq<Error> {
    if content.None? then [Unreadable(path)] else []
  }
}
