/** llog/logger.go: `FormatError`, which removes repeated segments from a
    wrapped error message. An error is its message, `None` standing for nil. */
module Logger {

  import opened Wrappers
  import opened Text

  const Sep := ": "

  /** `strings.Split(s, ": ")`; the separator cannot overlap itself, so
      taking the leftmost occurrence first is Go's splitting. */
  function Split(s: string): (r: seq<string>)
    ensures |r| >= 1
    decreases |s|
  {
    if |s| < 2 then [s]
    else if s[..2] == Sep then [""] + Split(s[2..])
    else
      var rest := Split(s[1..]);
      [[s[0]] + rest[0]] + rest[1..]
  }

  /** `strings.Join(parts, ": ")`. */
  function Join(parts: seq<string>): string {
    if parts == [] then ""
    else if |parts| == 1 then parts[0]
    else parts[0] + Sep + Join(parts[1..])
  }

  lemma JoinPrepend(c: string, part: string, rest: seq<string>)
    ensures Join([c + part] + rest) == c + Join([part] + rest)
  {
    assert ([c + part] + rest)[1..] == rest;
    assert ([part] + rest)[1..] == rest;
  }

  /** Joining the pieces of a split gives the message back. */
  lemma {:induction false} JoinSplit(s: string)
    ensures Join(Split(s)) == s
    decreases |s|
  {
    if |s| < 2 {
    } else if s[..2] == Sep {
      JoinSplit(s[2..]);
      assert ([""] + Split(s[2..]))[1..] == Split(s[2..]);
      assert s == Sep + s[2..];
    } else {
      var rest := Split(s[1..]);
      JoinSplit(s[1..]);
      JoinPrepend([s[0]], rest[0], rest[1..]);
      assert [rest[0]] + rest[1..] == rest;
      assert s == [s[0]] + s[1..];
    }
  }

  lemma NoSepInTail(c: char, p: string)
    requires !Contains([c] + p, Sep)
    ensures !Contains(p, Sep)
  {
    if Contains(p, Sep) {
      var i :| 0 <= i <= |p| && OccursAt(p, Sep, i);
      assert ([c] + p)[i + 1..i + 1 + |Sep|] == p[i..i + |Sep|];
      assert OccursAt([c] + p, Sep, i + 1);
    }
  }

  /** A part without the separator, followed by the separator, splits off
      as one piece. */
  lemma {:induction false} SplitAfterPart(p: string, rest: string)
    requires !Contains(p, Sep)
    ensures Split(p + Sep + rest) == [p] + Split(rest)
    decreases |p|
  {
    var s := p + Sep + rest;
    if p == [] {
      assert s[..2] == Sep && s[2..] == rest;
    } else {
      var tail := p[1..];
      assert [p[0]] + tail == p;
      NoSepInTail(p[0], tail);
      SplitAfterPart(tail, rest);
      assert s[1..] == tail + Sep + rest;
      if |tail| == 0 {
        assert s[1] == ':';
      } else {
        assert s[..2] == p[..2];
        assert !OccursAt(p, Sep, 0);
      }
    }
  }

  /** A string without the separator is a single piece. */
  lemma {:induction false} SplitNoSep(p: string)
    requires !Contains(p, Sep)
    ensures Split(p) == [p]
    decreases |p|
  {
    if |p| >= 2 {
      assert !OccursAt(p, Sep, 0);
      var tail := p[1..];
      assert [p[0]] + tail == p;
      NoSepInTail(p[0], tail);
      SplitNoSep(tail);
    }
  }

  /** Splitting a join gives the parts back when no part holds the separator. */
  lemma {:induction false} SplitJoin(parts: seq<string>)
    requires |parts| >= 1
    requires forall i :: 0 <= i < |parts| ==> !Contains(parts[i], Sep)
    ensures Split(Join(parts)) == parts
  {
    if |parts| == 1 {
      SplitNoSep(parts[0]);
    } else {
      SplitJoin(parts[1..]);
      SplitAfterPart(parts[0], Join(parts[1..]));
      assert [parts[0]] + parts[1..] == parts;
    }
  }

  /** No piece of a split holds the separator. */
  lemma {:induction false} SplitPiecesClean(s: string)
    ensures forall i :: 0 <= i < |Split(s)| ==> !Contains(Split(s)[i], Sep)
    decreases |s|
  {
    if |s| < 2 {
      assert !OccursAt(s, Sep, 0);
    } else if s[..2] == Sep {
      SplitPiecesClean(s[2..]);
      assert !OccursAt("", Sep, 0);
    } else {
      var rest := Split(s[1..]);
      SplitPiecesClean(s[1..]);
      var head := [s[0]] + rest[0];
      assert !Contains(head, Sep) by {
        if Contains(head, Sep) {
          var i :| 0 <= i <= |head| && OccursAt(head, Sep, i);
          if i != 0 {
            assert rest[0][i - 1..i - 1 + |Sep|] == head[i..i + |Sep|];
            assert OccursAt(rest[0], Sep, i - 1);
          }
        }
      }
    }
  }

  /** The parts with repeated segments removed, keeping first occurrences. */
  function Unique(parts: seq<string>): (r: seq<string>)
    ensures |r| <= |parts|
  {
    if parts == [] then []
    else
      var init := Unique(parts[..|parts| - 1]);
      if parts[|parts| - 1] in parts[..|parts| - 1] then init else init + [parts[|parts| - 1]]
  }

  predicate NoRepeats(ps: seq<string>) {
    forall i, j :: 0 <= i < j < |ps| ==> ps[i] != ps[j]
  }

  /** The index of the first occurrence. */
  function FirstIndex(ps: seq<string>, x: string): (k: nat)
    requires x in ps
    ensures k < |ps| && ps[k] == x && forall j :: 0 <= j < k ==> ps[j] != x
  {
    if ps[0] == x then 0 else 1 + FirstIndex(ps[1..], x)
  }

  lemma FirstIndexPrefix(ps: seq<string>, n: nat, x: string)
    requires n <= |ps| && x in ps[..n]
    ensures x in ps && FirstIndex(ps[..n], x) == FirstIndex(ps, x)
  {
    var k := FirstIndex(ps[..n], x);
    assert ps[k] == x;
    var k' := FirstIndex(ps, x);
  }

  /** Each distinct part appears exactly once, in order of first occurrence. */
  lemma {:induction false} UniqueSpec(parts: seq<string>)
    ensures NoRepeats(Unique(parts))
    ensures forall x :: x in Unique(parts) <==> x in parts
    ensures forall i, j :: 0 <= i < j < |Unique(parts)| ==>
      FirstIndex(parts, Unique(parts)[i]) < FirstIndex(parts, Unique(parts)[j])
  {
    if parts != [] {
      var n := |parts| - 1;
      var init := parts[..n];
      var last := parts[n];
      UniqueSpec(init);
      assert parts == init + [last];
      var u := Unique(init);
      forall i | 0 <= i < |u| ensures FirstIndex(parts, u[i]) == FirstIndex(init, u[i]) {
        FirstIndexPrefix(parts, n, u[i]);
      }
      forall x | x in parts ensures x in init || x == last { }
      if last !in init {
        assert FirstIndex(parts, last) == n;
        forall i | 0 <= i < |u| ensures FirstIndex(parts, u[i]) < n { }
      }
    }
  }

  /** Parts without repeats come back unchanged. */
  lemma {:induction false} UniqueOfNoRepeats(parts: seq<string>)
    requires NoRepeats(parts)
    ensures Unique(parts) == parts
  {
    if parts != [] {
      var n := |parts| - 1;
      UniqueOfNoRepeats(parts[..n]);
      assert parts[..n] + [parts[n]] == parts;
    }
  }

  lemma JoinAppend(ps: seq<string>, x: string)
    requires ps != []
    ensures Join(ps + [x]) == Join(ps) + Sep + x
  {
    if |ps| > 1 {
      assert (ps + [x])[1..] == ps[1..] + [x];
      JoinAppend(ps[1..], x);
    }
  }

  lemma {:induction false} UniqueJoinShorter(parts: seq<string>)
    ensures |Join(Unique(parts))| <= |Join(parts)|
    ensures Unique(parts) == [] <==> parts == []
  {
    if parts != [] {
      var n := |parts| - 1;
      var init := parts[..n];
      UniqueJoinShorter(init);
      assert parts == init + [parts[n]];
      if init != [] {
        JoinAppend(init, parts[n]);
        if parts[n] !in init {
          JoinAppend(Unique(init), parts[n]);
        }
      }
    }
  }

  /** `FormatError` as a function of the message. */
  function Formatted(err: Option<string>): string {
    if err.None? then "" else Join(Unique(Split(err.value)))
  }

  /** The loop of FormatError, with its `seen` map. */
  method FormatError(err: Option<string>) returns (r: string)
    ensures r == Formatted(err)
  {
    if err.None? {
      return "";
    }
    var parts := Split(err.value);
    var seen: map<string, bool> := map[];
    var unique: seq<string> := [];
    for i := 0 to |parts|
      invariant unique == Unique(parts[..i])
      invariant forall x :: x in seen <==> x in parts[..i]
      invariant forall x :: x in seen ==> seen[x]
    {
      assert parts[..i + 1][..i] == parts[..i];
      if !(parts[i] in seen && seen[parts[i]]) {
        seen := seen[parts[i] := true];
        unique := unique + [parts[i]];
      }
    }
    assert parts[..|parts|] == parts;
    return Join(unique);
  }

  /** What FormatError promises: nil gives ""; the segments of the result
      are the distinct segments of the message, each once, in order of first
      occurrence; a message without repeated segments is unchanged; applying
      it twice is applying it once; and it never lengthens the message. */
  lemma FormattedSpec(err: Option<string>)
    ensures err.None? ==> Formatted(err) == ""
    ensures err.Some? ==> Split(Formatted(err)) == Unique(Split(err.value))
    ensures err.Some? ==> NoRepeats(Split(Formatted(err)))
    ensures err.Some? && NoRepeats(Split(err.value)) ==> Formatted(err) == err.value
    ensures err.Some? ==> Formatted(Some(Formatted(err))) == Formatted(err)
    ensures err.Some? ==> |Formatted(err)| <= |err.value|
  {
    if err.Some? {
      var parts := Split(err.value);
      var u := Unique(parts);
      SplitPiecesClean(err.value);
      UniqueSpec(parts);
      UniqueJoinShorter(parts);
      forall i | 0 <= i < |u| ensures !Contains(u[i], Sep) {
        assert u[i] in parts;
      }
      SplitJoin(u);
      UniqueOfNoRepeats(u);
      JoinSplit(err.value);
      if NoRepeats(parts) {
        UniqueOfNoRepeats(parts);
      }
    }
  }
}
