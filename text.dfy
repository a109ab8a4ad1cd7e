/**
 * Text handling of the converter: the substring test that dispatches a line,
 * the bracket extraction `keepUseful` and the tokeniser `split`.
 * Strings are sequences of characters; `atof` is a parameter of the model.
 */
module KalibrText {
  import opened Wrappers

  /** Index of the first occurrence of `c` in `s` (`find`/`find_first_of` with one character); None stands for npos. */
  function Find(s: string, c: char): (r: Option<nat>)
    ensures r.None? <==> c !in s
    ensures r.Some? ==> r.value < |s| && s[r.value] == c && c !in s[..r.value]
  {
    if |s| == 0 then None
    else if s[0] == c then Some(0)
    else
      assert s == [s[0]] + s[1..];
      match Find(s[1..], c)
      case None => None
      case Some(i) =>
        assert s[..i + 1] == [s[0]] + s[1..][..i];
        Some(i + 1)
  }

  /** `p` occurs in `s` starting at index `i`. */
  ghost predicate OccursAt(s: string, p: string, i: int) {
    0 <= i && i + |p| <= |s| && s[i..i + |p|] == p
  }

  /** Occurrences in `s` are the one at index 0 and those in `s[1..]`, shifted by one. */
  lemma OccursShift(s: string, p: string)
    ensures (exists i :: OccursAt(s, p, i)) <==>
      |p| <= |s| && (s[..|p|] == p || (|s| > 0 && exists j :: OccursAt(s[1..], p, j)))
  {
    if |p| <= |s| && |s| > 0 {
      if j :| OccursAt(s[1..], p, j) {
        assert s[j + 1..j + 1 + |p|] == s[1..][j..j + |p|];
        assert OccursAt(s, p, j + 1);
      }
      if i :| OccursAt(s, p, i) && i != 0 {
        assert s[1..][i - 1..i - 1 + |p|] == s[i..i + |p|];
        assert OccursAt(s[1..], p, i - 1);
      }
      if s[..|p|] == p {
        assert OccursAt(s, p, 0);
      }
    } else if |p| <= |s| {
      assert OccursAt(s, p, 0);
    }
  }

  /** The unanchored test `line.find(p) != npos`: `p` occurs somewhere in `s`. */
  predicate Contains(s: string, p: string): (r: bool)
    ensures r <==> exists i :: OccursAt(s, p, i)
    decreases |s|
  {
    OccursShift(s, p);
    |p| <= |s| && (s[..|p|] == p || (|s| > 0 && Contains(s[1..], p)))
  }

  /** `i` is the position of the first '[' of `line`. */
  ghost predicate FirstOpenAt(line: string, i: int) {
    0 <= i < |line| && line[i] == '[' && '[' !in line[..i]
  }

  /** `r` is the text of `t` up to, not including, its first ']' (all of `t` when it has none). */
  ghost predicate UpToClose(t: string, r: string) {
    |r| <= |t| && r == t[..|r|] && ']' !in r && (|r| == |t| || t[|r|] == ']')
  }

  /** `keepUseful`: the text after the first '[' and before the next ']'. */
  function KeepUseful(line: string): (r: string)
    ensures ']' !in r
    ensures '[' in line ==> exists i :: FirstOpenAt(line, i) && UpToClose(line[i + 1..], r)
    ensures '[' !in line ==> UpToClose(line, r)
  {
    var open := Find(line, '[');
    // npos + 1 wraps round to 0, so a line without '[' is kept whole
    var start := if open.Some? then open.value + 1 else 0;
    var rest := line[start..];
    var close := Find(rest, ']');
    var r := if close.Some? then rest[..close.value] else rest;
    assert UpToClose(rest, r);
    assert open.Some? ==> FirstOpenAt(line, open.value);
    r
  }

  lemma UpToCloseUnique(t: string, r1: string, r2: string)
    requires UpToClose(t, r1) && UpToClose(t, r2)
    ensures r1 == r2
  {
    forall k | 0 <= k < |r1| ensures t[k] != ']' {
      assert r1[k] == t[k];
    }
    forall k | 0 <= k < |r2| ensures t[k] != ']' {
      assert r2[k] == t[k];
    }
  }

  lemma FirstOpenUnique(line: string, i: int, j: int)
    requires FirstOpenAt(line, i) && FirstOpenAt(line, j)
    ensures i == j
  {
    forall k | 0 <= k < i ensures line[k] != '[' {
      assert line[..i][k] == line[k];
    }
    forall k | 0 <= k < j ensures line[k] != '[' {
      assert line[..j][k] == line[k];
    }
  }

  /** The contract of KeepUseful determines its result: any string meeting it is KeepUseful(line). */
  lemma KeepUsefulCharacterised(line: string, r: string)
    requires '[' in line ==> exists i :: FirstOpenAt(line, i) && UpToClose(line[i + 1..], r)
    requires '[' !in line ==> UpToClose(line, r)
    ensures r == KeepUseful(line)
  {
    var k := KeepUseful(line);
    if '[' in line {
      var i :| FirstOpenAt(line, i) && UpToClose(line[i + 1..], r);
      var j :| FirstOpenAt(line, j) && UpToClose(line[j + 1..], k);
      FirstOpenUnique(line, i, j);
      UpToCloseUnique(line[i + 1..], r, k);
    } else {
      UpToCloseUnique(line, r, k);
    }
  }

  /** The pieces of `s` between occurrences of `sep`, empty ones included (ordinary splitting). */
  function Pieces(s: string, sep: char): (ps: seq<string>)
    ensures |ps| > 0
    ensures forall k :: 0 <= k < |ps| ==> sep !in ps[k]
    decreases |s|
  {
    match Find(s, sep)
    case None => [s]
    case Some(i) => [s[..i]] + Pieces(s[i + 1..], sep)
  }

  /** The pieces joined back together with `sep` between them. */
  function Join(ps: seq<string>, sep: char): string
    requires |ps| > 0
  {
    if |ps| == 1 then ps[0] else ps[0] + [sep] + Join(ps[1..], sep)
  }

  /** A position holding `c` with no `c` before it is what Find reports. */
  lemma {:induction false} FindFirst(s: string, c: char, i: nat)
    requires i < |s| && s[i] == c && c !in s[..i]
    ensures Find(s, c) == Some(i)
  {
    if i > 0 {
      assert s[..i][0] == s[0];
      assert s[1..][..i - 1] == s[..i][1..];
      FindFirst(s[1..], c, i - 1);
    }
  }

  lemma FindPast(a: string, sep: char, b: string)
    requires sep !in a
    ensures Find(a + [sep] + b, sep) == Some(|a|)
  {
    assert (a + [sep] + b)[..|a|] == a;
    FindFirst(a + [sep] + b, sep, |a|);
  }

  lemma FindExtend(a: string, sep: char, b: string)
    requires sep in a
    ensures Find(a + b, sep) == Find(a, sep)
  {
    var i := Find(a, sep).value;
    assert (a + b)[..i] == a[..i];
    FindFirst(a + b, sep, i);
  }

  /** Splitting undoes joining: every string is the join of its pieces. */
  lemma {:induction false} JoinPieces(s: string, sep: char)
    ensures Join(Pieces(s, sep), sep) == s
    decreases |s|
  {
    match Find(s, sep)
    case None =>
    case Some(i) =>
      JoinPieces(s[i + 1..], sep);
      assert s == s[..i] + [sep] + s[i + 1..];
  }

  /** Joining undoes splitting: separator-free pieces come back from their join. */
  lemma {:induction false} PiecesJoin(ps: seq<string>, sep: char)
    requires |ps| > 0
    requires forall k :: 0 <= k < |ps| ==> sep !in ps[k]
    ensures Pieces(Join(ps, sep), sep) == ps
    decreases |ps|
  {
    if |ps| > 1 {
      var rest := Join(ps[1..], sep);
      var s := ps[0] + [sep] + rest;
      FindPast(ps[0], sep, rest);
      assert s[..|ps[0]|] == ps[0];
      assert s[|ps[0]| + 1..] == rest;
      PiecesJoin(ps[1..], sep);
      assert ps == [ps[0]] + ps[1..];
    } else {
      assert Find(ps[0], sep).None?;
    }
  }

  /** Splitting distributes over one separator. */
  lemma {:induction false} PiecesConcat(a: string, sep: char, b: string)
    ensures Pieces(a + [sep] + b, sep) == Pieces(a, sep) + Pieces(b, sep)
    decreases |a|
  {
    var s := a + [sep] + b;
    match Find(a, sep)
    case None =>
      FindPast(a, sep, b);
      assert s[..|a|] == a;
      assert s[|a| + 1..] == b;
      assert Pieces(s, sep) == [a] + Pieces(b, sep);
    case Some(i) =>
      FindExtend(a, sep, [sep] + b);
      assert a + ([sep] + b) == s;
      assert Find(s, sep) == Some(i);
      assert s[..i] == a[..i];
      assert s[i + 1..] == a[i + 1..] + [sep] + b;
      PiecesConcat(a[i + 1..], sep, b);
      calc {
        Pieces(s, sep);
        [a[..i]] + Pieces(a[i + 1..] + [sep] + b, sep);
        [a[..i]] + (Pieces(a[i + 1..], sep) + Pieces(b, sep));
        ([a[..i]] + Pieces(a[i + 1..], sep)) + Pieces(b, sep);
      }
  }

  /** The pieces that are not empty, in order. */
  function NonEmpty(ps: seq<string>): (r: seq<string>)
    ensures |r| <= |ps|
    ensures forall x :: x in r ==> x in ps && |x| > 0
  {
    if |ps| == 0 then []
    else (if |ps[0]| == 0 then [] else [ps[0]]) + NonEmpty(ps[1..])
  }

  lemma {:induction false} NonEmptyConcat(a: seq<string>, b: seq<string>)
    ensures NonEmpty(a + b) == NonEmpty(a) + NonEmpty(b)
    decreases |a|
  {
    if |a| > 0 {
      assert (a + b)[1..] == a[1..] + b;
      NonEmptyConcat(a[1..], b);
    } else {
      assert a + b == b;
    }
  }

  /** The fields `split` converts: the non-empty pieces of `s`. */
  function Tokens(s: string, sep: char): (ts: seq<string>)
    ensures forall k :: 0 <= k < |ts| ==> |ts[k]| > 0 && sep !in ts[k]
  {
    var ps := Pieces(s, sep);
    assert forall x :: x in ps ==> sep !in x;
    NonEmpty(ps)
  }

  /** Tokenising distributes over one separator; the pieces it yields come in order. */
  lemma TokensConcat(a: string, sep: char, b: string)
    ensures Tokens(a + [sep] + b, sep) == Tokens(a, sep) + Tokens(b, sep)
  {
    PiecesConcat(a, sep, b);
    NonEmptyConcat(Pieces(a, sep), Pieces(b, sep));
  }

  /** A separator-free field is one token; the empty string has none. */
  lemma TokensOfField(s: string, sep: char)
    requires sep !in s
    ensures Tokens(s, sep) == if |s| == 0 then [] else [s]
  {
    assert Pieces(s, sep) == [s];
  }

  /** Runs of separators add no tokens. */
  lemma TokensIgnoreSeparatorRuns(a: string, sep: char, b: string)
    ensures Tokens(a + [sep, sep] + b, sep) == Tokens(a + [sep] + b, sep)
  {
    calc {
      Tokens(a + [sep, sep] + b, sep);
      { assert a + [sep, sep] + b == a + [sep] + ([sep] + b); }
      Tokens(a + [sep] + ([sep] + b), sep);
      { TokensConcat(a, sep, [sep] + b); }
      Tokens(a, sep) + Tokens([sep] + b, sep);
      { TokensIgnoreLeadingSeparator(sep, b); }
      Tokens(a, sep) + Tokens(b, sep);
      { TokensConcat(a, sep, b); }
      Tokens(a + [sep] + b, sep);
    }
  }

  /** A separator in front adds no tokens. */
  lemma TokensIgnoreLeadingSeparator(sep: char, b: string)
    ensures Tokens([sep] + b, sep) == Tokens(b, sep)
  {
    TokensOfField([], sep);
    TokensConcat([], sep, b);
    assert [] + [sep] + b == [sep] + b;
  }

  /** A separator at the end adds no tokens. */
  lemma TokensIgnoreTrailingSeparator(a: string, sep: char)
    ensures Tokens(a + [sep], sep) == Tokens(a, sep)
  {
    TokensOfField([], sep);
    TokensConcat(a, sep, []);
    assert a + [sep] + [] == a + [sep];
  }

  /** `atof` applied to every field. */
  function Convert(ts: seq<string>, atof: string -> real): (vs: seq<real>)
    ensures |vs| == |ts|
    ensures forall k :: 0 <= k < |ts| ==> vs[k] == atof(ts[k])
  {
    seq(|ts|, k requires 0 <= k < |ts| => atof(ts[k]))
  }

  /** What the first loop of `split` collects: nothing for an empty string, else the pieces. */
  ghost function Collected(s: string, sep: char): seq<string> {
    if |s| == 0 then [] else Pieces(s, sep)
  }

  /** One round of the first loop: the piece before the separator, and an empty last piece when the separator ends the string. */
  lemma CollectedStep(acc: seq<string>, s: string, sep: char, i: nat)
    requires |s| > 0 && Find(s, sep) == Some(i)
    ensures i + 1 == |s| ==> acc + Collected(s, sep) == acc + [s[..i]] + [s[i + 1..]] + Collected(s[i + 1..], sep)
    ensures i + 1 < |s| ==> acc + Collected(s, sep) == acc + [s[..i]] + Collected(s[i + 1..], sep)
  {
    if i + 1 == |s| {
      assert s[i + 1..] == [];
      assert Find(s[i + 1..], sep) == None;
      assert Pieces(s[i + 1..], sep) == [[]];
    }
  }

  /** The last round of the first loop: no separator left, the whole rest is one piece. */
  lemma CollectedLast(acc: seq<string>, s: string, sep: char)
    requires |s| > 0 && Find(s, sep).None?
    ensures acc + Collected(s, sep) == acc + [s] + Collected("", sep)
  {
  }

  lemma CollectedTokens(s: string, sep: char)
    ensures NonEmpty(Collected(s, sep)) == Tokens(s, sep)
  {
    if |s| == 0 {
      assert Find(s, sep) == None;
      assert Pieces(s, sep) == [s];
    }
  }

  /** `split`: the non-empty fields of `str` between separators, in order, each converted by `atof`. */
  method Split(str: string, sep: char, atof: string -> real) returns (v: seq<real>)
    ensures |v| == |Tokens(str, sep)|
    ensures forall k :: 0 <= k < |v| ==> v[k] == atof(Tokens(str, sep)[k])
  {
    var vStr := SplitFields(str, sep);
    CollectedTokens(str, sep);
    v := ConvertNonEmpty(vStr, atof);
  }

  /** The second loop of `split`: `atof` of every non-empty string of `vStr`, in order. */
  method ConvertNonEmpty(vStr: seq<string>, atof: string -> real) returns (v: seq<real>)
    ensures |v| == |NonEmpty(vStr)|
    ensures forall k :: 0 <= k < |v| ==> v[k] == atof(NonEmpty(vStr)[k])
  {
    ghost var vStrs: seq<string> := [];
    v := [];
    for j := 0 to |vStr|
      invariant vStrs == NonEmpty(vStr[..j])
      invariant |v| == |vStrs|
      invariant forall k :: 0 <= k < |v| ==> v[k] == atof(vStrs[k])
    {
      NonEmptySnoc(vStr, j);
      if |vStr[j]| > 0 {
        vStrs := vStrs + [vStr[j]];
        v := v + [atof(vStr[j])];
      }
    }
    assert vStr[..|vStr|] == vStr;
  }

  lemma NonEmptySnoc(ps: seq<string>, j: nat)
    requires j < |ps|
    ensures NonEmpty(ps[..j + 1]) == NonEmpty(ps[..j]) + if |ps[j]| > 0 then [ps[j]] else []
  {
    assert ps[..j + 1] == ps[..j] + [ps[j]];
    NonEmptyConcat(ps[..j], [ps[j]]);
    assert NonEmpty([ps[j]]) == (if |ps[j]| > 0 then [ps[j]] else []) + NonEmpty([]);
  }

  /** The first loop of `split`, which cuts `str` into the strings of `v_str`. */
  method SplitFields(str: string, sep: char) returns (vStr: seq<string>)
    ensures vStr == Collected(str, sep)
  {
    var s := str;
    vStr := [];
    while |s| > 0
      invariant vStr + Collected(s, sep) == Collected(str, sep)
      decreases |s|
    {
      var index := Find(s, sep);
      if index.Some? {
        CollectedStep(vStr, s, sep, index.value);
        vStr := vStr + [s[..index.value]];
        s := s[index.value + 1..];
        if |s| == 0 {
          vStr := vStr + [s];
        }
      } else {
        CollectedLast(vStr, s, sep);
        vStr := vStr + [s];
        s := "";
      }
    }
  }
}
