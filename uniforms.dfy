/**
 * The scan with which the program loader discovers a shader's parameters:
 * the global, case-insensitive pattern `uniform +([a-zA-Z0-9]+) +([a-zA-Z0-9]+)`
 * applied left to right to the program text, each match recording
 * `name -> type` (a later declaration of a name replacing an earlier one).
 */
module Uniforms {
  import opened Wrappers

  /** The class `[a-zA-Z0-9]`. */
  predicate IsAlnum(c: char) {
    'a' <= c <= 'z' || 'A' <= c <= 'Z' || '0' <= c <= '9'
  }

  const Keyword: string := "uniform"

  /**
   * `c` equals the lower-case ASCII letter `l` once the pattern's `i` flag
   * has folded case. Without the `u` flag only ASCII letters fold: no other
   * character compares equal to an ASCII letter.
   */
  predicate FoldsTo(c: char, l: char)
    requires 'a' <= l <= 'z'
  {
    c == l || c as int == l as int - 32
  }

  /** The literal `uniform`, in any letter case, occurs at `i`. */
  predicate KeywordAt(s: string, i: nat) {
    && i + |Keyword| <= |s|
    && FoldsTo(s[i], 'u') && FoldsTo(s[i + 1], 'n') && FoldsTo(s[i + 2], 'i') && FoldsTo(s[i + 3], 'f')
    && FoldsTo(s[i + 4], 'o') && FoldsTo(s[i + 5], 'r') && FoldsTo(s[i + 6], 'm')
  }

  predicate AllSpaces(s: string, i: nat, j: nat)
    requires i <= j <= |s|
  {
    forall k :: i <= k < j ==> s[k] == ' '
  }

  predicate AllAlnum(s: string, i: nat, j: nat)
    requires i <= j <= |s|
  {
    forall k :: i <= k < j ==> IsAlnum(s[k])
  }

  /** Where the greedy ` +` starting at `i` stops: the end of the run of spaces. */
  function SpacesEnd(s: string, i: nat): (j: nat)
    requires i <= |s|
    ensures i <= j <= |s|
    decreases |s| - i
  {
    if i == |s| || s[i] != ' ' then i else SpacesEnd(s, i + 1)
  }

  /** Where the greedy `[a-zA-Z0-9]+` starting at `i` stops: the end of the run of letters and digits. */
  function AlnumEnd(s: string, i: nat): (j: nat)
    requires i <= |s|
    ensures i <= j <= |s|
    decreases |s| - i
  {
    if i == |s| || !IsAlnum(s[i]) then i else AlnumEnd(s, i + 1)
  }

  /** `SpacesEnd` stops at the first character that is not a space. */
  lemma {:induction false} SpacesEndRun(s: string, i: nat)
    requires i <= |s|
    ensures AllSpaces(s, i, SpacesEnd(s, i))
    ensures SpacesEnd(s, i) == |s| || s[SpacesEnd(s, i)] != ' '
    decreases |s| - i
  {
    if i < |s| && s[i] == ' ' {
      SpacesEndRun(s, i + 1);
    }
  }

  /** `AlnumEnd` stops at the first character that is not a letter or a digit. */
  lemma {:induction false} AlnumEndRun(s: string, i: nat)
    requires i <= |s|
    ensures AllAlnum(s, i, AlnumEnd(s, i))
    ensures AlnumEnd(s, i) == |s| || !IsAlnum(s[AlnumEnd(s, i)])
    decreases |s| - i
  {
    if i < |s| && IsAlnum(s[i]) {
      AlnumEndRun(s, i + 1);
    }
  }

  /** A maximal run of spaces is determined by where it starts. */
  lemma {:induction false} SpacesEndIs(s: string, i: nat, j: nat)
    requires i <= j <= |s| && AllSpaces(s, i, j) && (j == |s| || s[j] != ' ')
    ensures SpacesEnd(s, i) == j
    decreases j - i
  {
    if i < j {
      SpacesEndIs(s, i + 1, j);
    }
  }

  /** A maximal run of letters and digits is determined by where it starts. */
  lemma {:induction false} AlnumEndIs(s: string, i: nat, j: nat)
    requires i <= j <= |s| && AllAlnum(s, i, j) && (j == |s| || !IsAlnum(s[j]))
    ensures AlnumEnd(s, i) == j
    decreases j - i
  {
    if i < j {
      AlnumEndIs(s, i + 1, j);
    }
  }

  /**
   * One match, as positions in the text: where it starts, the extent
   * `[typeStart, typeEnd)` of the first captured group (the type), the extent
   * `[nameStart, end)` of the second (the name), which ends the match.
   */
  datatype Match = Match(start: nat, typeStart: nat, typeEnd: nat, nameStart: nat, end: nat)

  /** The match lies within a text of length `n`, its parts in order. */
  predicate Spans(m: Match, n: nat) {
    m.start <= m.typeStart <= m.typeEnd <= m.nameStart <= m.end <= n
  }

  /** The first captured group: the declared type. */
  function DeclaredType(s: string, m: Match): string
    requires Spans(m, |s|)
  {
    s[m.typeStart..m.typeEnd]
  }

  /** The second captured group: the parameter's name. */
  function Name(s: string, m: Match): string
    requires Spans(m, |s|)
  {
    s[m.nameStart..m.end]
  }

  /**
   * The match of the pattern that starts at `i`, if there is one: the keyword,
   * then the greedy runs ` +`, `[a-zA-Z0-9]+`, ` +`, `[a-zA-Z0-9]+`, none of
   * which may be empty.
   */
  function MatchAt(s: string, i: nat): (r: Option<Match>)
    requires i <= |s|
    ensures r.Some? ==> r.value.start == i < r.value.end && Spans(r.value, |s|)
  {
    if !KeywordAt(s, i) then None
    else
      var a := SpacesEnd(s, i + |Keyword|);
      var b := AlnumEnd(s, a);
      var c := SpacesEnd(s, b);
      var d := AlnumEnd(s, c);
      if a == i + |Keyword| || b == a || c == b || d == c then None
      else Some(Match(i, a, b, c, d))
  }

  /**
   * The pattern read declaratively: `uniform`, one or more spaces, the type,
   * one or more spaces, the name, and each run as long as it can be.
   */
  ghost predicate DeclarationAt(s: string, m: Match)
  {
    && KeywordAt(s, m.start)
    && m.start + |Keyword| < m.typeStart < m.typeEnd < m.nameStart < m.end <= |s|
    && AllSpaces(s, m.start + |Keyword|, m.typeStart) && AllAlnum(s, m.typeStart, m.typeEnd)
    && AllSpaces(s, m.typeEnd, m.nameStart) && AllAlnum(s, m.nameStart, m.end)
    && !IsAlnum(s[m.typeEnd]) && s[m.nameStart] != ' ' && (m.end == |s| || !IsAlnum(s[m.end]))
  }

  /** Whatever `MatchAt` finds is a declaration. */
  lemma {:induction false} MatchAtDeclares(s: string, i: nat)
    requires i <= |s| && MatchAt(s, i).Some?
    ensures DeclarationAt(s, MatchAt(s, i).value)
  {
    var m := MatchAt(s, i).value;
    SpacesEndRun(s, i + |Keyword|);
    AlnumEndRun(s, m.typeStart);
    SpacesEndRun(s, m.typeEnd);
    AlnumEndRun(s, m.nameStart);
  }

  /** Every declaration is what `MatchAt` finds where it starts. */
  lemma {:induction false} DeclarationMatches(s: string, m: Match)
    requires DeclarationAt(s, m)
    ensures MatchAt(s, m.start) == Some(m)
  {
    SpacesEndIs(s, m.start + |Keyword|, m.typeStart);
    AlnumEndIs(s, m.typeStart, m.typeEnd);
    SpacesEndIs(s, m.typeEnd, m.nameStart);
    AlnumEndIs(s, m.nameStart, m.end);
  }

  /** `MatchAt` finds exactly the declarations the pattern describes, and no other. */
  lemma {:induction false} MatchAtIsDeclaration(s: string, m: Match)
    requires m.start <= |s|
    ensures MatchAt(s, m.start) == Some(m) <==> DeclarationAt(s, m)
  {
    if MatchAt(s, m.start) == Some(m) {
      MatchAtDeclares(s, m.start);
    }
    if DeclarationAt(s, m) {
      DeclarationMatches(s, m);
    }
  }

  /** For each position of a text, the match the pattern makes there, if any. */
  type Table = seq<Option<Match>>

  /** What `MatchAt` guarantees of every entry: the match starts there and lies within the text. */
  predicate Consistent(t: Table) {
    forall p | 0 <= p < |t| && t[p].Some? :: t[p].value.start == p < t[p].value.end && Spans(t[p].value, |t|)
  }

  function TableOf(s: string): (t: Table)
    ensures |t| == |s| && Consistent(t)
  {
    seq(|s|, p requires 0 <= p < |s| => MatchAt(s, p))
  }

  /**
   * The successive results of `exec` with the global flag from `i` on: the
   * match at `i` if there is one, then the scan resumed at its end (the
   * `lastIndex` of the pattern); otherwise the scan from the next character.
   */
  function Scan(t: Table, i: nat): seq<Match>
    requires Consistent(t) && i <= |t|
    decreases |t| - i
  {
    if i == |t| then []
    else match t[i]
      case Some(m) => [m] + Scan(t, m.end)
      case None => Scan(t, i + 1)
  }

  /** The matches the loader's loop visits in a program text, in order. */
  function Matches(s: string): (ms: seq<Match>)
    ensures forall m | m in ms :: Spans(m, |s|)
  {
    ScanSpans(TableOf(s), 0);
    Scan(TableOf(s), 0)
  }

  lemma {:induction false} ScanFound(t: Table, i: nat, m: Match)
    requires Consistent(t) && i < |t| && t[i] == Some(m)
    ensures Scan(t, i) == [m] + Scan(t, m.end)
  {
  }

  lemma {:induction false} ScanSkipped(t: Table, i: nat)
    requires Consistent(t) && i < |t| && t[i].None?
    ensures Scan(t, i) == Scan(t, i + 1)
  {
  }

  /**
   * The recorded matches are entries of the table at or after `i`, in order,
   * and do not overlap.
   */
  lemma {:induction false} ScanOrdered(t: Table, i: nat)
    requires Consistent(t) && i <= |t|
    ensures forall k :: 0 <= k < |Scan(t, i)| ==>
      i <= Scan(t, i)[k].start < |t| && t[Scan(t, i)[k].start] == Some(Scan(t, i)[k])
    ensures forall k :: 0 < k < |Scan(t, i)| ==> Scan(t, i)[k - 1].end <= Scan(t, i)[k].start
    decreases |t| - i
  {
    if i < |t| {
      match t[i]
      case Some(m) =>
        ScanFound(t, i, m);
        ScanOrdered(t, m.end);
        var ms, rest := Scan(t, i), Scan(t, m.end);
        assert forall k :: 0 < k < |ms| ==> ms[k] == rest[k - 1];
      case None =>
        ScanSkipped(t, i);
        ScanOrdered(t, i + 1);
    }
  }

  /** Every recorded match lies within the text. */
  lemma {:induction false} ScanSpans(t: Table, i: nat)
    requires Consistent(t) && i <= |t|
    ensures forall m | m in Scan(t, i) :: Spans(m, |t|)
  {
    ScanOrdered(t, i);
  }

  /**
   * No match is missed: wherever the table holds a match at or after `i`,
   * that position starts a recorded match or lies inside one.
   */
  lemma {:induction false} ScanLeftmost(t: Table, i: nat, p: nat)
    requires Consistent(t) && i <= p < |t| && t[p].Some?
    ensures exists k :: 0 <= k < |Scan(t, i)| && Scan(t, i)[k].start <= p < Scan(t, i)[k].end
    decreases |t| - i
  {
    var ms := Scan(t, i);
    match t[i]
    case Some(m) =>
      var rest := Scan(t, m.end);
      ScanFound(t, i, m);
      if p < m.end {
        assert ms[0].start <= p < ms[0].end;
      } else {
        ScanLeftmost(t, m.end, p);
        var k :| 0 <= k < |rest| && rest[k].start <= p < rest[k].end;
        assert ms[k + 1] == rest[k];
      }
    case None =>
      ScanSkipped(t, i);
      ScanLeftmost(t, i + 1, p);
  }

  /** Every recorded match is a declaration, they come in order, and they do not overlap. */
  lemma {:induction false} MatchesSound(s: string)
    ensures forall k :: 0 <= k < |Matches(s)| ==> DeclarationAt(s, Matches(s)[k])
    ensures forall k :: 0 < k < |Matches(s)| ==> Matches(s)[k - 1].end <= Matches(s)[k].start
  {
    var t, ms := TableOf(s), Matches(s);
    ScanOrdered(t, 0);
    forall k | 0 <= k < |ms| ensures DeclarationAt(s, ms[k]) {
      assert t[ms[k].start] == MatchAt(s, ms[k].start);
      MatchAtDeclares(s, ms[k].start);
    }
  }

  /** Every declaration in the text starts a recorded match or lies inside one. */
  lemma {:induction false} MatchesLeftmost(s: string, m: Match)
    requires DeclarationAt(s, m)
    ensures exists k :: 0 <= k < |Matches(s)| && Matches(s)[k].start <= m.start < Matches(s)[k].end
  {
    var t, ms := TableOf(s), Matches(s);
    DeclarationMatches(s, m);
    assert t[m.start] == MatchAt(s, m.start);
    ScanLeftmost(t, 0, m.start);
    var k :| 0 <= k < |Scan(t, 0)| && Scan(t, 0)[k].start <= m.start < Scan(t, 0)[k].end;
    assert ms[k] == Scan(t, 0)[k];
  }

  /** The dictionary the loop fills: `params[name] = {type}` for each match in order. */
  function Collect(s: string, ms: seq<Match>, acc: map<string, string>): map<string, string>
    requires forall m | m in ms :: Spans(m, |s|)
    decreases |ms|
  {
    if ms == [] then acc else Collect(s, ms[1..], acc[Name(s, ms[0]) := DeclaredType(s, ms[0])])
  }

  /** The parameters a program text declares. */
  function Params(s: string): map<string, string> {
    Collect(s, Matches(s), map[])
  }

  /**
   * A name is in the dictionary exactly when it was there before or some match
   * declares it; its type is the one of the last match that declares it.
   */
  lemma {:induction false} CollectLastWins(s: string, ms: seq<Match>, acc: map<string, string>, name: string)
    requires forall m | m in ms :: Spans(m, |s|)
    ensures name in Collect(s, ms, acc) <==> name in acc || exists k :: 0 <= k < |ms| && Name(s, ms[k]) == name
    ensures forall k :: 0 <= k < |ms| && Name(s, ms[k]) == name && (forall j :: k < j < |ms| ==> Name(s, ms[j]) != name)
              ==> Collect(s, ms, acc)[name] == DeclaredType(s, ms[k])
    ensures (forall k :: 0 <= k < |ms| ==> Name(s, ms[k]) != name) && name in acc ==> Collect(s, ms, acc)[name] == acc[name]
    decreases |ms|
  {
    if ms != [] {
      var acc' := acc[Name(s, ms[0]) := DeclaredType(s, ms[0])];
      CollectLastWins(s, ms[1..], acc', name);
      assert forall k :: 0 < k < |ms| ==> ms[k] == ms[1..][k - 1];
      if exists k :: 0 <= k < |ms[1..]| && Name(s, ms[1..][k]) == name {
        var k :| 0 <= k < |ms[1..]| && Name(s, ms[1..][k]) == name;
        assert Name(s, ms[k + 1]) == name;
      }
    }
  }

  lemma {:induction false} CollectAppend(s: string, xs: seq<Match>, ys: seq<Match>, acc: map<string, string>)
    requires forall m | m in xs + ys :: Spans(m, |s|)
    ensures Collect(s, xs + ys, acc) == Collect(s, ys, Collect(s, xs, acc))
    decreases |xs|
  {
    if xs == [] {
      assert xs + ys == ys;
    } else {
      assert (xs + ys)[0] == xs[0];
      assert (xs + ys)[1..] == xs[1..] + ys;
      CollectAppend(s, xs[1..], ys, acc[Name(s, xs[0]) := DeclaredType(s, xs[0])]);
    }
  }

  /** A match moved `n` characters to the right. */
  function Moved(m: Match, n: nat): Match {
    Match(m.start + n, m.typeStart + n, m.typeEnd + n, m.nameStart + n, m.end + n)
  }

  function MovedOption(r: Option<Match>, n: nat): Option<Match> {
    match r
    case None => None
    case Some(m) => Some(Moved(m, n))
  }

  /** Matches moved `n` characters to the right. */
  function Shift(ms: seq<Match>, n: nat): seq<Match>
    decreases |ms|
  {
    if ms == [] then [] else [Moved(ms[0], n)] + Shift(ms[1..], n)
  }

  lemma {:induction false} ShiftCons(m: Match, ms: seq<Match>, n: nat)
    ensures Shift([m] + ms, n) == [Moved(m, n)] + Shift(ms, n)
  {
    assert ([m] + ms)[1..] == ms;
  }

  lemma {:induction false} SliceShift(A: string, B: string, x: nat, y: nat)
    requires x <= y <= |B|
    ensures (A + B)[|A| + x..|A| + y] == B[x..y]
  {
    assert (A + B)[|A|..] == B;
    assert (A + B)[|A| + x..|A| + y] == (A + B)[|A|..][x..y];
  }

  lemma {:induction false} SlicePrefix(A: string, B: string, x: nat, y: nat)
    requires x <= y <= |A|
    ensures (A + B)[x..y] == A[x..y]
  {
    assert (A + B)[..|A|] == A;
    assert (A + B)[x..y] == (A + B)[..|A|][x..y];
  }

  /** Reading moved matches from `A + B` records what reading them from `B` does. */
  lemma {:induction false} CollectShift(A: string, B: string, ms: seq<Match>, acc: map<string, string>)
    requires forall m | m in ms :: Spans(m, |B|)
    ensures forall m | m in Shift(ms, |A|) :: Spans(m, |A + B|)
    ensures Collect(A + B, Shift(ms, |A|), acc) == Collect(B, ms, acc)
    decreases |ms|
  {
    if ms != [] {
      var m := ms[0];
      assert m in ms && forall m' | m' in ms[1..] :: m' in ms;
      ShiftCons(m, ms[1..], |A|);
      assert [m] + ms[1..] == ms;
      SliceShift(A, B, m.typeStart, m.typeEnd);
      SliceShift(A, B, m.nameStart, m.end);
      CollectShift(A, B, ms[1..], acc[Name(B, m) := DeclaredType(B, m)]);
    }
  }

  /** Matches within `A` read the same from `A + B`. */
  lemma {:induction false} CollectPrefix(A: string, B: string, ms: seq<Match>, acc: map<string, string>)
    requires forall m | m in ms :: Spans(m, |A|)
    ensures forall m | m in ms :: Spans(m, |A + B|)
    ensures Collect(A + B, ms, acc) == Collect(A, ms, acc)
    decreases |ms|
  {
    if ms != [] {
      var m := ms[0];
      assert m in ms && forall m' | m' in ms[1..] :: m' in ms;
      SlicePrefix(A, B, m.typeStart, m.typeEnd);
      SlicePrefix(A, B, m.nameStart, m.end);
      CollectPrefix(A, B, ms[1..], acc[Name(A, m) := DeclaredType(A, m)]);
    }
  }

  /** Scanning, from inside `v`, a table that is `v` moved `n` to the right. */
  lemma {:induction false} ScanShift(t: Table, v: Table, n: nat, j: nat)
    requires Consistent(t) && Consistent(v) && |t| == n + |v| && j <= |v|
    requires forall p :: 0 <= p < |v| ==> t[n + p] == MovedOption(v[p], n)
    ensures Scan(t, n + j) == Shift(Scan(v, j), n)
    decreases |v| - j
  {
    if j < |v| {
      assert t[n + j] == MovedOption(v[j], n);
      match v[j]
      case Some(m) =>
        ScanShift(t, v, n, m.end);
        ScanFound(t, n + j, Moved(m, n));
        ScanFound(v, j, m);
        ShiftCons(m, Scan(v, m.end), n);
      case None =>
        ScanShift(t, v, n, j + 1);
        ScanSkipped(t, n + j);
        ScanSkipped(v, j);
    }
  }

  /** A table made of `u`, whose matches stay inside it, followed by `v` moved `|u|` to the right. */
  predicate Joined(t: Table, u: Table, v: Table) {
    && Consistent(t) && Consistent(u) && Consistent(v) && |t| == |u| + |v|
    && (forall p :: 0 <= p < |u| ==> t[p] == u[p])
    && (forall p :: 0 <= p < |v| ==> t[|u| + p] == MovedOption(v[p], |u|))
  }

  lemma {:induction false} ScanAppendStep(t: Table, u: Table, v: Table, i: nat, next: nat)
    requires Joined(t, u, v) && i < |u|
    requires next == (if u[i].Some? then u[i].value.end else i + 1)
    requires Scan(t, next) == Scan(u, next) + Shift(Scan(v, 0), |u|)
    ensures Scan(t, i) == Scan(u, i) + Shift(Scan(v, 0), |u|)
  {
    assert t[i] == u[i];
    if u[i].Some? {
      var m, rest := u[i].value, Shift(Scan(v, 0), |u|);
      ScanFound(t, i, m);
      ScanFound(u, i, m);
      assert [m] + (Scan(u, m.end) + rest) == ([m] + Scan(u, m.end)) + rest;
    } else {
      ScanSkipped(t, i);
      ScanSkipped(u, i);
    }
  }

  /**
   * Scanning a table made of `u`, whose matches stay inside it, followed by
   * `v` moved `|u|` to the right, finds `u`'s matches and then `v`'s.
   */
  lemma {:induction false} ScanAppend(t: Table, u: Table, v: Table, i: nat)
    requires Joined(t, u, v) && i <= |u|
    ensures Scan(t, i) == Scan(u, i) + Shift(Scan(v, 0), |u|)
    decreases |u| - i
  {
    if i == |u| {
      ScanShift(t, v, |u|, 0);
    } else {
      var next := if u[i].Some? then u[i].value.end else i + 1;
      ScanAppend(t, u, v, next);
      ScanAppendStep(t, u, v, i, next);
    }
  }

  /** `s` holds `B` from position `n` to its end. */
  predicate EndsWith(s: string, B: string, n: nat) {
    |s| == n + |B| && forall k :: 0 <= k < |B| ==> s[n + k] == B[k]
  }

  lemma {:induction false} KeywordShift(s: string, B: string, n: nat, j: nat)
    requires EndsWith(s, B, n) && j <= |B|
    ensures KeywordAt(s, n + j) == KeywordAt(B, j)
  {
  }

  lemma {:induction false} SpacesEndShift(s: string, B: string, n: nat, x: nat)
    requires EndsWith(s, B, n) && x <= |B|
    ensures SpacesEnd(s, n + x) == n + SpacesEnd(B, x)
  {
    var j := SpacesEnd(B, x);
    SpacesEndRun(B, x);
    assert forall k :: n + x <= k < n + j ==> s[k] == B[k - n];
    SpacesEndIs(s, n + x, n + j);
  }

  lemma {:induction false} AlnumEndShift(s: string, B: string, n: nat, x: nat)
    requires EndsWith(s, B, n) && x <= |B|
    ensures AlnumEnd(s, n + x) == n + AlnumEnd(B, x)
  {
    var j := AlnumEnd(B, x);
    AlnumEndRun(B, x);
    assert forall k :: n + x <= k < n + j ==> s[k] == B[k - n];
    AlnumEndIs(s, n + x, n + j);
  }

  /** A match in `B` is the same match, moved, in a text that ends with `B`. */
  lemma {:induction false} MatchAtSuffix(s: string, B: string, n: nat, j: nat)
    requires EndsWith(s, B, n) && j <= |B|
    ensures MatchAt(s, n + j) == MovedOption(MatchAt(B, j), n)
  {
    KeywordShift(s, B, n, j);
    if KeywordAt(B, j) {
      var a := SpacesEnd(B, j + |Keyword|);
      SpacesEndShift(s, B, n, j + |Keyword|);
      var b := AlnumEnd(B, a);
      AlnumEndShift(s, B, n, a);
      var c := SpacesEnd(B, b);
      SpacesEndShift(s, B, n, b);
      AlnumEndShift(s, B, n, c);
    }
  }

  /** The last character of `s` can belong to no match: neither a letter, a digit nor a space. */
  predicate EndsWithDelimiter(s: string) {
    |s| > 0 && !IsAlnum(s[|s| - 1]) && s[|s| - 1] != ' '
  }

  /** `s` starts with `A`, and `A` ends in a delimiter. */
  predicate StartsWith(s: string, A: string) {
    EndsWithDelimiter(A) && |A| <= |s| && forall k :: 0 <= k < |A| ==> s[k] == A[k]
  }

  /** A run of spaces before a delimiter ends before it, whatever follows. */
  lemma {:induction false} SpacesEndPrefix(s: string, A: string, i: nat)
    requires StartsWith(s, A) && i < |A|
    ensures SpacesEnd(A, i) < |A| && SpacesEnd(s, i) == SpacesEnd(A, i)
  {
    SpacesEndRun(A, i);
    SpacesEndIs(s, i, SpacesEnd(A, i));
  }

  /** A run of letters and digits before a delimiter ends before it, whatever follows. */
  lemma {:induction false} AlnumEndPrefix(s: string, A: string, i: nat)
    requires StartsWith(s, A) && i < |A|
    ensures AlnumEnd(A, i) < |A| && AlnumEnd(s, i) == AlnumEnd(A, i)
  {
    AlnumEndRun(A, i);
    AlnumEndIs(s, i, AlnumEnd(A, i));
  }

  /** Before a delimiter, matching in a text that starts with `A` is matching in `A`. */
  lemma {:induction false} MatchAtPrefix(s: string, A: string, i: nat)
    requires StartsWith(s, A) && i < |A|
    ensures MatchAt(s, i) == MatchAt(A, i)
  {
    if KeywordAt(A, i) {
      var a := SpacesEnd(A, i + |Keyword|);
      SpacesEndPrefix(s, A, i + |Keyword|);
      var b := AlnumEnd(A, a);
      AlnumEndPrefix(s, A, a);
      var c := SpacesEnd(A, b);
      SpacesEndPrefix(s, A, b);
      AlnumEndPrefix(s, A, c);
    } else if i + |Keyword| <= |A| {
      assert !KeywordAt(s, i);
    } else {
      assert s[|A| - 1] == A[|A| - 1];
    }
  }

  /** The match table of `A + B` is `A`'s followed by `B`'s, moved. */
  lemma {:induction false} TableAppend(A: string, B: string)
    requires EndsWithDelimiter(A)
    ensures forall p :: 0 <= p < |A| ==> TableOf(A + B)[p] == TableOf(A)[p]
    ensures forall p :: 0 <= p < |B| ==> TableOf(A + B)[|A| + p] == MovedOption(TableOf(B)[p], |A|)
  {
    var s, t := A + B, TableOf(A + B);
    assert StartsWith(s, A);
    assert EndsWith(s, B, |A|);
    forall p | 0 <= p < |A| ensures t[p] == TableOf(A)[p] {
      MatchAtPrefix(s, A, p);
    }
    forall p | 0 <= p < |B| ensures t[|A| + p] == MovedOption(TableOf(B)[p], |A|) {
      MatchAtSuffix(s, B, |A|, p);
    }
  }

  /** Scanning `A + B`, where `A` ends in a delimiter, finds `A`'s matches and then `B`'s. */
  lemma {:induction false} MatchesAppend(A: string, B: string)
    requires EndsWithDelimiter(A)
    ensures Matches(A + B) == Matches(A) + Shift(Matches(B), |A|)
  {
    TableAppend(A, B);
    assert Joined(TableOf(A + B), TableOf(A), TableOf(B));
    ScanAppend(TableOf(A + B), TableOf(A), TableOf(B), 0);
  }

  /**
   * Scanning `A + B`, where `A` ends in a delimiter, records the declarations
   * of `A` and then those of `B`: a name `B` declares gets `B`'s type.
   */
  lemma {:induction false} ParamsAppend(A: string, B: string)
    requires EndsWithDelimiter(A)
    ensures Params(A + B) == Collect(B, Matches(B), Params(A))
  {
    var xs, ys := Matches(A), Matches(B);
    MatchesAppend(A, B);
    CollectShift(A, B, ys, Params(A));
    CollectAppend(A + B, xs, Shift(ys, |A|), map[]);
    CollectPrefix(A, B, xs, map[]);
  }
}
