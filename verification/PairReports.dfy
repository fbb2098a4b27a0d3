/** What the pair check reports about one file, in terms of the headings themselves: which are named, on
    which lines, and in which order. */
module PairReports {
  import opened Api
  import opened HeadingLines
  import opened Headings
  import opened HeadingPairs

  predicate Ascending(at: seq<nat>) {
    forall j, k | 0 <= j < k < |at| :: at[j] < at[k]
  }

  predicate HasId(headings: seq<Heading>, i: nat) {
    i < |headings| && headings[i].id.Some?
  }

  /** The first heading of several that share an id. */
  predicate FirstOfSeveral(headings: seq<Heading>, i: nat) {
    && i < |headings| && headings[i].id.Some?
    && (forall j | 0 <= j < i :: headings[j].id != headings[i].id)
    && exists j | i < j < |headings| :: headings[j].id == headings[i].id
  }

  predicate FirstOfItsId(headings: seq<Heading>, i: nat) {
    i < |headings| && headings[i].id.Some? && forall j | 0 <= j < i :: headings[j].id != headings[i].id
  }

  function LinesAt(headings: seq<Heading>, at: seq<nat>): seq<nat>
    requires forall i | i in at :: i < |headings|
  {
    seq<nat>(|at|, k requires 0 <= k < |at| => assert at[k] in at; headings[at[k]].line)
  }

  function MissingAt(path: string, headings: seq<Heading>, at: seq<nat>): seq<Error>
    requires forall i | i in at :: i < |headings|
  {
    seq(|at|, k requires 0 <= k < |at| => assert at[k] in at; MissingId(path, headings[at[k]].line))
  }

  function DuplicateAt(path: string, headings: seq<Heading>, i: nat): Error
    requires HasId(headings, i)
  {
    DuplicateId(path, headings[i].id.value, LinesOf(headings, headings[i].id.value, |headings|))
  }

  function DuplicatesAt(path: string, headings: seq<Heading>, at: seq<nat>): seq<Error>
    requires forall i | i in at :: HasId(headings, i)
  {
    seq(|at|, k requires 0 <= k < |at| => assert HasId(headings, at[k]); DuplicateAt(path, headings, at[k]))
  }

  lemma {:induction false} MissingAre(path: string, headings: seq<Heading>, n: nat) returns (at: seq<nat>)
    requires n <= |headings|
    ensures Ascending(at) && forall i: nat :: i in at <==> i < n && headings[i].id.None?
    ensures MissingErrors(path, headings, n) == MissingAt(path, headings, at)
  {
    at := [];
    if n > 0 {
      var before := MissingAre(path, headings, n - 1);
      at := before;
      if headings[n - 1].id.None? {
        at := Appended(before, n - 1);
        assert MissingAt(path, headings, at) == MissingAt(path, headings, before) + [MissingId(path, headings[n - 1].line)];
      }
    }
  }

  lemma Appended(before: seq<nat>, i: nat) returns (at: seq<nat>)
    requires Ascending(before) && forall j | j in before :: j < i
    ensures at == before + [i] && Ascending(at) && forall j :: j in at <==> j in before || j == i
  {
    at := before + [i];
    forall j, k | 0 <= j < k < |at|
      ensures at[j] < at[k]
    {
      assert at[j] in before;
    }
  }

  /** The lines listed with an id are those of all headings that have it, in order. */
  lemma {:induction false} LinesAre(headings: seq<Heading>, id: string, n: nat) returns (at: seq<nat>)
    requires n <= |headings|
    ensures Ascending(at) && forall i: nat :: i in at <==> i < n && headings[i].id == Some(id)
    ensures LinesOf(headings, id, n) == LinesAt(headings, at)
  {
    at := [];
    if n > 0 {
      var before := LinesAre(headings, id, n - 1);
      at := before;
      if headings[n - 1].id == Some(id) {
        at := Appended(before, n - 1);
        assert LinesAt(headings, at) == LinesAt(headings, before) + [headings[n - 1].line];
      }
    }
  }

  predicate KeysAt(headings: seq<Heading>, keys: seq<string>, first: seq<nat>) {
    |keys| == |first| && forall k | 0 <= k < |first| :: first[k] < |headings| && headings[first[k]].id == Some(keys[k])
  }

  lemma FirstIff(headings: seq<Heading>, n: nat, id: string)
    requires n < |headings| && headings[n].id == Some(id)
    ensures id !in KeysOf(headings, n) <==> FirstOfItsId(headings, n)
  {
    KeysMean(headings, n, id);
  }

  lemma NextKeyAt(headings: seq<Heading>, keys: seq<string>, first: seq<nat>, i: nat, id: string)
    requires KeysAt(headings, keys, first) && i < |headings| && headings[i].id == Some(id)
    ensures KeysAt(headings, keys + [id], first + [i])
  {
  }

  lemma {:induction false} KeysAre(headings: seq<Heading>, n: nat) returns (first: seq<nat>)
    requires n <= |headings|
    ensures Ascending(first) && forall i: nat :: i in first <==> i < n && FirstOfItsId(headings, i)
    ensures KeysAt(headings, KeysOf(headings, n), first)
  {
    first := [];
    if n > 0 {
      first := KeysAre(headings, n - 1);
      var h, keys := headings[n - 1], KeysOf(headings, n - 1);
      if h.id.Some? {
        FirstIff(headings, n - 1, h.id.value);
        if h.id.value !in keys {
          NextKeyAt(headings, keys, first, n - 1, h.id.value);
          first := Appended(first, n - 1);
        }
      }
    }
  }

  /** Of the first n keys those of several headings are reported. */
  lemma {:induction false} DuplicatesAre(path: string, headings: seq<Heading>, keys: seq<string>, first: seq<nat>,
                                         several: set<nat>, n: nat)
      returns (at: seq<nat>)
    requires n <= |keys| && KeysAt(headings, keys, first) && Ascending(first)
    requires forall k | 0 <= k < |keys| :: first[k] in several <==> DuplicateOf(path, headings, keys[k]) != []
    ensures Ascending(at) && (forall i | i in at :: HasId(headings, i))
    ensures forall i :: i in at <==> i in first[..n] && i in several
    ensures DuplicateErrors(path, headings, keys, n) == DuplicatesAt(path, headings, at)
  {
    at := [];
    if n > 0 {
      var before := DuplicatesAre(path, headings, keys, first, several, n - 1);
      var i := first[n - 1];
      NextKey(first, n);
      ReportOfKey(path, headings, keys[n - 1], i);
      at := before;
      if i in several {
        at := Appended(before, i);
      }
      NextReport(path, headings, keys, n, before, i, at);
    }
  }

  lemma NextReport(path: string, headings: seq<Heading>, keys: seq<string>, n: nat, before: seq<nat>, i: nat, at: seq<nat>)
    requires 0 < n <= |keys| && HasId(headings, i) && (forall j | j in before :: HasId(headings, j))
    requires DuplicateErrors(path, headings, keys, n - 1) == DuplicatesAt(path, headings, before)
    requires var d := DuplicateOf(path, headings, keys[n - 1]);
             (d == [] && at == before) || (d == [DuplicateAt(path, headings, i)] && at == before + [i])
    ensures forall j | j in at :: HasId(headings, j)
    ensures DuplicateErrors(path, headings, keys, n) == DuplicatesAt(path, headings, at)
  {
    if at != before {
      DuplicatesAppended(path, headings, before, i, at);
    }
  }

  lemma NextKey(first: seq<nat>, n: nat)
    requires 0 < n <= |first|
    ensures forall i :: i in first[..n] <==> i in first[..n - 1] || i == first[n - 1]
    ensures Ascending(first) ==> forall i: nat {:trigger i in first[..n - 1]} | i in first[..n - 1] :: i < first[n - 1]
  {
    assert first[..n] == first[..n - 1] + [first[n - 1]];
  }

  lemma ReportOfKey(path: string, headings: seq<Heading>, key: string, i: nat)
    requires HasId(headings, i) && headings[i].id == Some(key)
    ensures DuplicateOf(path, headings, key) == [] || DuplicateOf(path, headings, key) == [DuplicateAt(path, headings, i)]
  {
  }

  lemma DuplicatesAppended(path: string, headings: seq<Heading>, before: seq<nat>, i: nat, at: seq<nat>)
    requires (forall j | j in before :: HasId(headings, j)) && HasId(headings, i) && at == before + [i]
    ensures forall j | j in at :: HasId(headings, j)
    ensures DuplicatesAt(path, headings, at) == DuplicatesAt(path, headings, before) + [DuplicateAt(path, headings, i)]
  {
  }

  lemma SeveralMeans(path: string, headings: seq<Heading>, i: nat, id: string)
    requires FirstOfItsId(headings, i) && headings[i].id == Some(id)
    ensures FirstOfSeveral(headings, i) <==> DuplicateOf(path, headings, id) != []
  {
    DuplicateMeans(path, headings, id);
  }

  /** The report on a file: first the headings without an id, then each first heading of several that share
      one, in the order of the file and under the file's own path. */
  lemma FileErrorsAre(path: string, headings: seq<Heading>) returns (missing: seq<nat>, repeated: seq<nat>)
    ensures Ascending(missing) && forall i: nat :: i in missing <==> i < |headings| && headings[i].id.None?
    ensures Ascending(repeated) && forall i: nat :: i in repeated <==> FirstOfSeveral(headings, i)
    ensures forall i | i in repeated :: HasId(headings, i)
    ensures FileErrors(path, headings) == MissingAt(path, headings, missing) + DuplicatesAt(path, headings, repeated)
  {
    missing := MissingAre(path, headings, |headings|);
    var keys := KeysOf(headings, |headings|);
    var first := KeysAre(headings, |headings|);
    var several := set i: nat | i < |headings| && FirstOfSeveral(headings, i);
    forall k | 0 <= k < |keys|
      ensures first[k] in several <==> DuplicateOf(path, headings, keys[k]) != []
    {
      assert first[k] in first;
      SeveralMeans(path, headings, first[k], keys[k]);
    }
    repeated := DuplicatesAre(path, headings, keys, first, several, |keys|);
    assert first[..|keys|] == first;
    forall i: nat
      ensures i in repeated <==> FirstOfSeveral(headings, i)
    {
      assert FirstOfSeveral(headings, i) ==> FirstOfItsId(headings, i);
    }
  }
}
