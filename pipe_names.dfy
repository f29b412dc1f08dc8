/**
 * Names that contain the separator " | " are sent as several names: the
 * handlers split them with Python's `str.split(" | ")`. This module defines
 * that split, its inverse `" | ".join`, and the loop that expands a list of
 * names.
 */
module PipeNames {
  import opened Values

  const Separator: string := " | "

  /** The separator starts at position `j` of `s`. */
  predicate OccursAt(s: string, j: nat)
  {
    j + |Separator| <= |s| && s[j..j + |Separator|] == Separator
  }

  /** Python's `" | " in s`. */
  predicate HasSeparator(s: string)
  {
    exists j: nat | j < |s| :: OccursAt(s, j)
  }

  /** The first occurrence of the separator at or after position `from`. */
  function FindSeparator(s: string, from: nat): (r: Option<nat>)
    ensures r.Some? ==> from <= r.value && OccursAt(s, r.value)
    ensures r.Some? ==> forall j: nat :: from <= j < r.value ==> !OccursAt(s, j)
    ensures r.None? ==> forall j: nat :: from <= j ==> !OccursAt(s, j)
    decreases |s| - from
  {
    if from + |Separator| > |s| then None
    else if s[from..from + |Separator|] == Separator then Some(from)
    else FindSeparator(s, from + 1)
  }

  /** Python's `s.split(" | ")`: cut at every occurrence, scanning left to right. */
  function Split(s: string): (parts: seq<string>)
    ensures |parts| >= 1
    decreases |s|
  {
    match FindSeparator(s, 0)
    case None => [s]
    case Some(k) => [s[..k]] + Split(s[k + |Separator|..])
  }

  /** Python's `" | ".join(parts)`. */
  function Join(parts: seq<string>): string
  {
    if |parts| == 0 then ""
    else if |parts| == 1 then parts[0]
    else parts[0] + Separator + Join(parts[1..])
  }

  /**
   * The names one name is sent as: its parts when it contains the
   * separator, otherwise the name itself.
   */
  function SplitPipes(name: string): seq<string>
  {
    if HasSeparator(name) then Split(name) else [name]
  }

  /** All names of a list expanded in order. */
  function SplitAll(names: seq<string>): seq<string>
  {
    if names == [] then [] else SplitPipes(names[0]) + SplitAll(names[1..])
  }

  // ---------------------------------------------------------------------
  // Properties
  // ---------------------------------------------------------------------

  /** Joining the parts with the separator gives back the name. */
  lemma {:induction false} JoinSplit(s: string)
    ensures Join(Split(s)) == s
    decreases |s|
  {
    match FindSeparator(s, 0)
    case None =>
    case Some(k) =>
      var head, rest := s[..k], s[k + |Separator|..];
      var parts := Split(rest);
      JoinSplit(rest);
      assert Split(s) == [head] + parts;
      assert ([head] + parts)[1..] == parts;
      assert Join([head] + parts) == head + Separator + Join(parts);
      assert s == head + Separator + rest;
  }

  /** No part contains the separator. */
  lemma {:induction false} SplitPartsHaveNoSeparator(s: string)
    ensures forall i :: 0 <= i < |Split(s)| ==> !HasSeparator(Split(s)[i])
    decreases |s|
  {
    match FindSeparator(s, 0)
    case None =>
      assert Split(s) == [s];
    case Some(k) =>
      var rest := s[k + |Separator|..];
      SplitPartsHaveNoSeparator(rest);
      var head := s[..k];
      forall j: nat | OccursAt(head, j)
        ensures false
      {
        assert s[j..j + |Separator|] == head[j..j + |Separator|];
        assert OccursAt(s, j);
      }
      assert Split(s) == [head] + Split(rest);
  }

  /** A name is split into several parts exactly when it contains the separator. */
  lemma SplitIsProperExactlyWithSeparator(s: string)
    ensures |Split(s)| > 1 <==> HasSeparator(s)
  {
    match FindSeparator(s, 0)
    case None =>
    case Some(k) =>
      assert OccursAt(s, k);
  }

  /**
   * What a name is sent as: parts that join back to it and contain no
   * separator; a single entry, the name itself, when it has no separator.
   */
  lemma SplitPipesRoundTrip(name: string)
    ensures Join(SplitPipes(name)) == name
    ensures forall i :: 0 <= i < |SplitPipes(name)| ==> !HasSeparator(SplitPipes(name)[i])
    ensures SplitPipes(name) == Split(name)
    ensures !HasSeparator(name) <==> SplitPipes(name) == [name]
  {
    JoinSplit(name);
    SplitPartsHaveNoSeparator(name);
    SplitIsProperExactlyWithSeparator(name);
  }

  lemma {:induction false} SplitAllAppend(a: seq<string>, b: seq<string>)
    ensures SplitAll(a + b) == SplitAll(a) + SplitAll(b)
    decreases a
  {
    if a == [] {
      assert a + b == b;
    } else {
      assert (a + b)[1..] == a[1..] + b;
      SplitAllAppend(a[1..], b);
    }
  }

  /** Names without the separator pass through unchanged, one entry each. */
  lemma {:induction false} SplitAllWithoutSeparators(names: seq<string>)
    requires forall i :: 0 <= i < |names| ==> !HasSeparator(names[i])
    ensures SplitAll(names) == names
    decreases names
  {
    if names != [] {
      SplitAllWithoutSeparators(names[1..]);
    }
  }

  /** Expanding never loses a name: there are at least as many entries as names. */
  lemma {:induction false} SplitAllLength(names: seq<string>)
    ensures |SplitAll(names)| >= |names|
    decreases names
  {
    if names != [] {
      SplitAllLength(names[1..]);
    }
  }

  /** Joining two non-empty lists is joining each and putting the separator between them. */
  lemma {:induction false} JoinAppend(a: seq<string>, b: seq<string>)
    requires a != [] && b != []
    ensures Join(a + b) == Join(a) + Separator + Join(b)
    decreases |a|
  {
    if |a| == 1 {
      assert (a + b)[1..] == b;
    } else {
      assert (a + b)[1..] == a[1..] + b;
      JoinAppend(a[1..], b);
    }
  }

  /**
   * Expanding a list of names loses no text: joining all the entries with
   * the separator gives the same string as joining the names themselves.
   */
  lemma {:induction false} JoinSplitAll(names: seq<string>)
    ensures Join(SplitAll(names)) == Join(names)
    decreases names
  {
    if names != [] {
      var head, rest := names[0], names[1..];
      SplitPipesRoundTrip(head);
      assert SplitAll(names) == SplitPipes(head) + SplitAll(rest);
      if rest == [] {
        assert SplitAll(names) == SplitPipes(head);
      } else {
        SplitAllLength(rest);
        JoinSplitAll(rest);
        JoinAppend(SplitPipes(head), SplitAll(rest));
        assert names == [head] + rest;
        JoinAppend([head], rest);
      }
    }
  }

  // ---------------------------------------------------------------------
  // The original loop
  // ---------------------------------------------------------------------

  /** The inner loop of `SplitNames`: the parts are appended one at a time, in order. */
  method AppendEach(out: seq<string>, parts: seq<string>) returns (extended: seq<string>)
    ensures extended == out + parts
  {
    extended := out;
    var j := 0;
    while j < |parts|
      invariant 0 <= j <= |parts|
      invariant extended == out + parts[..j]
    {
      assert parts[..j + 1] == parts[..j] + [parts[j]];
      extended := extended + [parts[j]];
      j := j + 1;
    }
    assert parts[..j] == parts;
  }

  /**
   * For each name: append its parts one by one if it contains the
   * separator, otherwise append the name.
   */
  method SplitNames(names: seq<string>) returns (out: seq<string>)
    ensures out == SplitAll(names)
  {
    out := [];
    var i := 0;
    while i < |names|
      invariant 0 <= i <= |names|
      invariant out == SplitAll(names[..i])
    {
      var name := names[i];
      var before := out;
      if HasSeparator(name) {
        out := AppendEach(out, Split(name));
      } else {
        out := out + [name];
      }
      assert out == before + SplitPipes(name);
      assert SplitAll([name]) == SplitPipes(name) by {
        assert [name][1..] == [];
      }
      assert names[..i + 1] == names[..i] + [name];
      SplitAllAppend(names[..i], [name]);
      i := i + 1;
    }
    assert names[..i] == names;
  }
}
