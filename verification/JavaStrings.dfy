/** The string operations the address normalizer is built from: trim, the two splits, join,
    blankness, and upper-casing by an arbitrary character mapping. */
module JavaStrings {

  /** What `trim` strips. */
  predicate Trimmable(c: char) { c as int <= 0x20 }

  /** What the pattern \s matches. */
  predicate Space(c: char) { 0x09 <= c as int <= 0x0D || c as int == 0x20 }

  /** What `isBlank` takes for white space. */
  predicate Blank(c: char) {
    var u := c as int;
    || 0x09 <= u <= 0x0D
    || 0x1C <= u <= 0x20
    || u == 0x1680
    || 0x2000 <= u <= 0x2006
    || 0x2008 <= u <= 0x200A
    || u == 0x2028 || u == 0x2029 || u == 0x205F || u == 0x3000
  }

  /** How the three classes overlap: the separators of words are trimmed and blank; the other
      control characters are trimmed, of which four are blank; beyond them blank means the
      Unicode spaces but the non-breaking ones. */
  lemma {:induction false} ClassesCompared(c: char)
    ensures Space(c) <==> c in "\t\n\U{00000B}\U{00000C}\r "
    ensures Trimmable(c) && !Space(c) <==> c as int < 0x09 || 0x0E <= c as int < 0x20
    ensures Blank(c) && Trimmable(c) && !Space(c) <==> 0x1C <= c as int <= 0x1F
    ensures Blank(c) && !Trimmable(c) <==>
              c as int == 0x1680 || (0x2000 <= c as int <= 0x200A && c as int != 0x2007)
              || c as int in {0x2028, 0x2029, 0x205F, 0x3000}
    ensures Space(c) ==> Trimmable(c) && Blank(c)
  {
  }

  predicate IsBlank(s: string) { forall i :: 0 <= i < |s| ==> Blank(s[i]) }

  predicate AllTrimmable(s: string) { forall i :: 0 <= i < |s| ==> Trimmable(s[i]) }

  predicate Spaceless(s: string) { forall i :: 0 <= i < |s| ==> !Space(s[i]) }

  predicate Commaless(s: string) { forall i :: 0 <= i < |s| ==> s[i] != ',' }

  function TrimLeft(s: string): string {
    if s != [] && Trimmable(s[0]) then TrimLeft(s[1..]) else s
  }

  function TrimRight(s: string): string {
    if s != [] && Trimmable(s[|s| - 1]) then TrimRight(s[..|s| - 1]) else s
  }

  function Trim(s: string): string { TrimRight(TrimLeft(s)) }

  /** No character is left to trim. */
  predicate Trimmed(s: string) {
    s == [] || (!Trimmable(s[0]) && !Trimmable(s[|s| - 1]))
  }

  /** The pieces between the commas; always at least one. */
  function Pieces(s: string): (ps: seq<string>)
    ensures |ps| >= 1
  {
    if s == [] then [[]]
    else
      var rest := Pieces(s[1..]);
      if s[0] == ',' then [[]] + rest else [[s[0]] + rest[0]] + rest[1..]
  }

  /** The pieces between the runs of white space; a leading run leaves an empty first piece. */
  function Words(s: string): (ws: seq<string>)
    ensures |ws| >= 1
  {
    if s == [] then [[]]
    else
      var rest := Words(s[1..]);
      if !Space(s[0]) then [[s[0]] + rest[0]] + rest[1..]
      else if |s| > 1 && Space(s[1]) then rest
      else [[]] + rest
  }

  function DropTrailingEmpty(ps: seq<string>): seq<string> {
    if ps != [] && ps[|ps| - 1] == [] then DropTrailingEmpty(ps[..|ps| - 1]) else ps
  }

  /** Splitting at commas: no match leaves the whole string, and trailing empty pieces go. */
  function SplitCommas(s: string): seq<string> {
    if Commaless(s) then [s] else DropTrailingEmpty(Pieces(s))
  }

  /** Splitting at runs of white space, likewise. */
  function SplitSpaces(s: string): seq<string> {
    if Spaceless(s) then [s] else DropTrailingEmpty(Words(s))
  }

  function Join(sep: string, parts: seq<string>): string {
    if parts == [] then []
    else if |parts| == 1 then parts[0]
    else parts[0] + sep + Join(sep, parts[1..])
  }

  /** A character that upper-casing leaves alone and never produces from another. */
  predicate Special(c: char) { c == ',' || Trimmable(c) || Blank(c) }

  /** An upper-casing of characters, possibly to several: it is idempotent and keeps commas
      and white space apart from everything else. */
  ghost predicate CaseMapping(up: char -> string) {
    && (forall c :: up(c) != [])
    && (forall c, i :: 0 <= i < |up(c)| ==> up(up(c)[i]) == [up(c)[i]])
    && (forall c :: Special(c) ==> up(c) == [c])
    && (forall c, i :: !Special(c) && 0 <= i < |up(c)| ==> !Special(up(c)[i]))
  }

  function Upper(up: char -> string, s: string): string {
    if s == [] then [] else up(s[0]) + Upper(up, s[1..])
  }

  function UpperAll(up: char -> string, parts: seq<string>): (r: seq<string>)
    ensures |r| == |parts|
    ensures forall i :: 0 <= i < |parts| ==> r[i] == Upper(up, parts[i])
  {
    if parts == [] then [] else [Upper(up, parts[0])] + UpperAll(up, parts[1..])
  }

  // ---- trimming ----

  lemma {:induction false} TrimLeftAppend(a: string, b: string)
    ensures TrimLeft(a + b) == if AllTrimmable(a) then TrimLeft(b) else TrimLeft(a) + b
  {
    if a == [] {
      assert a + b == b;
    } else {
      assert (a + b)[1..] == a[1..] + b;
      assert a == [a[0]] + a[1..];
      TrimLeftAppend(a[1..], b);
    }
  }

  lemma {:induction false} TrimRightAppend(a: string, b: string)
    ensures TrimRight(a + b) == if AllTrimmable(b) then TrimRight(a) else a + TrimRight(b)
  {
    if b == [] {
      assert a + b == a;
    } else {
      assert (a + b)[..|a + b| - 1] == a + b[..|b| - 1];
      assert b == b[..|b| - 1] + [b[|b| - 1]];
      TrimRightAppend(a, b[..|b| - 1]);
    }
  }

  lemma {:induction false} TrimLeftShape(s: string)
    ensures TrimLeft(s) == [] <==> AllTrimmable(s)
    ensures TrimLeft(s) != [] ==> !Trimmable(TrimLeft(s)[0])
    ensures |TrimLeft(s)| <= |s| && TrimLeft(s) == s[|s| - |TrimLeft(s)|..]
  {
    if s != [] {
      assert s == [s[0]] + s[1..];
      if Trimmable(s[0]) {
        TrimLeftShape(s[1..]);
      }
    }
  }

  lemma {:induction false} TrimRightShape(s: string)
    ensures TrimRight(s) == [] <==> AllTrimmable(s)
    ensures TrimRight(s) != [] ==> !Trimmable(TrimRight(s)[|TrimRight(s)| - 1])
    ensures TrimRight(s) <= s
  {
    if s != [] && Trimmable(s[|s| - 1]) {
      TrimRightShape(s[..|s| - 1]);
    }
  }

  lemma {:induction false} TrimShape(s: string)
    ensures Trimmed(Trim(s))
    ensures Trim(s) == [] <==> AllTrimmable(s)
    ensures Commaless(s) ==> Commaless(Trim(s))
  {
    TrimLeftShape(s);
    TrimRightShape(TrimLeft(s));
  }

  lemma {:induction false} TrimFixed(s: string)
    requires Trimmed(s)
    ensures Trim(s) == s
  {
  }

  /** Padding at either end does not matter. */
  lemma {:induction false} TrimPadding(a: string, s: string, b: string)
    requires AllTrimmable(a) && AllTrimmable(b)
    ensures Trim(a + s + b) == Trim(s)
  {
    TrimLeftAppend(a + s, b);
    TrimLeftAppend(a, s);
    TrimLeftShape(b);
    TrimLeftShape(s);
    if AllTrimmable(s) {
      assert AllTrimmable(a + s);
    } else {
      var i :| 0 <= i < |s| && !Trimmable(s[i]);
      assert (a + s)[|a| + i] == s[i];
      TrimLeftAppend(a, s);
      TrimRightAppend(TrimLeft(s), b);
    }
  }

  // ---- pieces and words of a concatenation ----

  /** The last piece of `p` runs on into the first of `q`. */
  function Glue(p: seq<string>, q: seq<string>): (r: seq<string>)
    requires p != [] && q != []
    ensures |r| == |p| + |q| - 1
  {
    p[..|p| - 1] + [p[|p| - 1] + q[0]] + q[1..]
  }

  lemma {:induction false} GlueNewPiece(p: seq<string>, q: seq<string>)
    requires p != [] && q != []
    ensures Glue([[]] + p, q) == [[]] + Glue(p, q)
  {
    assert ([[]] + p)[..|p|] == [[]] + p[..|p| - 1];
  }

  lemma {:induction false} GlueChar(c: char, p: seq<string>, q: seq<string>)
    requires p != [] && q != []
    ensures Glue([[c] + p[0]] + p[1..], q) == [[c] + Glue(p, q)[0]] + Glue(p, q)[1..]
  {
    var longer := [[c] + p[0]] + p[1..];
    if |p| == 1 {
      assert [c] + (p[0] + q[0]) == longer[0] + q[0];
      assert Glue(p, q)[1..] == q[1..];
    } else {
      assert longer[..|p| - 1] == [[c] + p[0]] + p[1..|p| - 1];
      assert Glue(p, q)[1..] == p[1..|p| - 1] + [p[|p| - 1] + q[0]] + q[1..];
    }
  }

  lemma {:induction false} PiecesAppend(a: string, b: string)
    ensures Pieces(a + b) == Glue(Pieces(a), Pieces(b))
  {
    var q := Pieces(b);
    if a == [] {
      assert a + b == b;
      assert [] + q[0] == q[0];
    } else {
      assert (a + b)[1..] == a[1..] + b;
      PiecesAppend(a[1..], b);
      GlueNewPiece(Pieces(a[1..]), q);
      GlueChar(a[0], Pieces(a[1..]), q);
    }
  }

  lemma {:induction false} PiecesCommaless(s: string)
    requires Commaless(s)
    ensures Pieces(s) == [s]
  {
    if s != [] {
      PiecesCommaless(s[1..]);
      assert [s[0]] + s[1..] == s;
    }
  }

  lemma {:induction false} PiecesPrepend(a: string, b: string)
    requires Commaless(a)
    ensures Pieces(a + b) == [a + Pieces(b)[0]] + Pieces(b)[1..]
  {
    var first := Pieces(b)[0];
    if a == [] {
      assert a + b == b && a + first == first;
    } else {
      assert (a + b)[1..] == a[1..] + b;
      PiecesPrepend(a[1..], b);
      assert [a[0]] + (a[1..] + first) == a + first;
    }
  }

  lemma {:induction false} PiecesAreCommaless(s: string)
    ensures forall i :: 0 <= i < |Pieces(s)| ==> Commaless(Pieces(s)[i])
  {
    if s != [] {
      PiecesAreCommaless(s[1..]);
    }
  }

  /** A comma separates the pieces before it from those after it. */
  lemma {:induction false} PiecesComma(a: string, b: string)
    ensures Pieces(a + "," + b) == Pieces(a) + Pieces(b)
  {
    var p, q := Pieces(a), Pieces(b);
    assert a + "," + b == a + ("," + b);
    PiecesAppend(a, "," + b);
    assert ("," + b)[1..] == b;
    assert p[|p| - 1] + [] == p[|p| - 1];
    assert p[..|p| - 1] + [p[|p| - 1]] == p;
  }

  lemma {:induction false} WordsSpaceless(s: string)
    requires Spaceless(s)
    ensures Words(s) == [s]
  {
    if s != [] {
      WordsSpaceless(s[1..]);
      assert [s[0]] + s[1..] == s;
    }
  }

  lemma {:induction false} WordsPrepend(a: string, b: string)
    requires Spaceless(a)
    ensures Words(a + b) == [a + Words(b)[0]] + Words(b)[1..]
  {
    var first := Words(b)[0];
    if a == [] {
      assert a + b == b && a + first == first;
    } else {
      assert (a + b)[1..] == a[1..] + b;
      WordsPrepend(a[1..], b);
      assert [a[0]] + (a[1..] + first) == a + first;
    }
  }

  /** The words of a string: none contains a space, and only the first and the last can be
      empty, the first if the string starts with a space, the last if it ends with one. */
  lemma {:induction false} WordsShape(s: string)
    ensures forall i :: 0 <= i < |Words(s)| ==> Spaceless(Words(s)[i])
    ensures forall i :: 0 < i < |Words(s)| - 1 ==> Words(s)[i] != []
    ensures s != [] && !Space(s[0]) ==> Words(s)[0] != [] && Words(s)[0][0] == s[0]
    ensures s != [] && !Space(s[|s| - 1]) ==>
              var last := Words(s)[|Words(s)| - 1]; last != [] && last[|last| - 1] == s[|s| - 1]
  {
    if s != [] {
      WordsShape(s[1..]);
    }
  }

  // ---- upper-casing ----

  /** Upper-casing goes character by character. */
  lemma {:induction false} UpperAppend(up: char -> string, a: string, b: string)
    ensures Upper(up, a + b) == Upper(up, a) + Upper(up, b)
    ensures |a| == 1 ==> Upper(up, a) == up(a[0])
  {
    if a == [] {
      assert a + b == b;
    } else {
      assert (a + b)[1..] == a[1..] + b;
      UpperAppend(up, a[1..], b);
    }
  }

  lemma {:induction false} UpperSpecial(up: char -> string, s: string)
    requires CaseMapping(up)
    requires forall i :: 0 <= i < |s| ==> up(s[i]) == [s[i]]
    ensures Upper(up, s) == s
  {
    if s != [] {
      UpperSpecial(up, s[1..]);
    }
  }

  lemma {:induction false} UpperIdempotent(up: char -> string, s: string)
    requires CaseMapping(up)
    ensures Upper(up, Upper(up, s)) == Upper(up, s)
  {
    if s != [] {
      UpperIdempotent(up, s[1..]);
      UpperAppend(up, up(s[0]), Upper(up, s[1..]));
      UpperSpecial(up, up(s[0]));
    }
  }

  lemma {:induction false} ClassesAppend(a: string, b: string)
    ensures AllTrimmable(a + b) <==> AllTrimmable(a) && AllTrimmable(b)
    ensures IsBlank(a + b) <==> IsBlank(a) && IsBlank(b)
    ensures Commaless(a + b) <==> Commaless(a) && Commaless(b)
    ensures Spaceless(a + b) <==> Spaceless(a) && Spaceless(b)
  {
    assert forall i :: 0 <= i < |a| ==> (a + b)[i] == a[i];
    assert forall i :: 0 <= i < |b| ==> (a + b)[|a| + i] == b[i];
  }

  lemma {:induction false} CharKeepsClasses(up: char -> string, c: char)
    requires CaseMapping(up)
    ensures AllTrimmable(up(c)) <==> AllTrimmable([c])
    ensures IsBlank(up(c)) <==> IsBlank([c])
    ensures Commaless(up(c)) <==> Commaless([c])
    ensures Spaceless(up(c)) <==> Spaceless([c])
  {
    assert [c][0] == c;
    assert !Special(c) ==> !Special(up(c)[0]);
  }

  lemma {:induction false} UpperKeepsClasses(up: char -> string, s: string)
    requires CaseMapping(up)
    ensures AllTrimmable(Upper(up, s)) <==> AllTrimmable(s)
    ensures IsBlank(Upper(up, s)) <==> IsBlank(s)
    ensures Commaless(Upper(up, s)) <==> Commaless(s)
    ensures Spaceless(Upper(up, s)) <==> Spaceless(s)
  {
    if s != [] {
      UpperKeepsClasses(up, s[1..]);
      CharKeepsClasses(up, s[0]);
      ClassesAppend(up(s[0]), Upper(up, s[1..]));
      ClassesAppend([s[0]], s[1..]);
      assert s == [s[0]] + s[1..];
    }
  }

  lemma {:induction false} UpperTrimLeft(up: char -> string, s: string)
    requires CaseMapping(up)
    ensures TrimLeft(Upper(up, s)) == Upper(up, TrimLeft(s))
  {
    if s != [] {
      UpperTrimLeft(up, s[1..]);
      TrimLeftAppend(up(s[0]), Upper(up, s[1..]));
      if !Trimmable(s[0]) {
        assert !Trimmable(up(s[0])[0]);
      }
    }
  }

  lemma {:induction false} UpperTrimRight(up: char -> string, s: string)
    requires CaseMapping(up)
    ensures TrimRight(Upper(up, s)) == Upper(up, TrimRight(s))
  {
    if s != [] {
      var init, last := s[..|s| - 1], s[|s| - 1];
      assert s == init + [last];
      UpperAppend(up, init, [last]);
      assert Upper(up, [last]) == up(last) + [];
      TrimRightAppend(Upper(up, init), up(last));
      if Trimmable(last) {
        UpperTrimRight(up, init);
      } else {
        assert !Trimmable(up(last)[|up(last)| - 1]);
      }
    }
  }

  lemma {:induction false} UpperTrim(up: char -> string, s: string)
    requires CaseMapping(up)
    ensures Trim(Upper(up, s)) == Upper(up, Trim(s))
  {
    UpperTrimLeft(up, s);
    UpperTrimRight(up, TrimLeft(s));
  }

  lemma {:induction false} UpperPieces(up: char -> string, s: string)
    requires CaseMapping(up)
    ensures Pieces(Upper(up, s)) == UpperAll(up, Pieces(s))
  {
    if s != [] {
      var u, rest := up(s[0]), Upper(up, s[1..]);
      UpperPieces(up, s[1..]);
      if s[0] == ',' {
        assert Special(s[0]);
        assert u + rest == [','] + rest;
        assert ([','] + rest)[1..] == rest;
      } else {
        assert Commaless(u);
        PiecesPrepend(u, rest);
      }
    }
  }

  lemma {:induction false} UpperWords(up: char -> string, s: string)
    requires CaseMapping(up)
    ensures Words(Upper(up, s)) == UpperAll(up, Words(s))
  {
    if s != [] {
      var u, rest := up(s[0]), Upper(up, s[1..]);
      UpperWords(up, s[1..]);
      if Space(s[0]) {
        assert u + rest == [s[0]] + rest;
        assert ([s[0]] + rest)[1..] == rest;
        UpperFirst(up, s[1..]);
      } else {
        assert Spaceless(u);
        WordsPrepend(u, rest);
      }
    }
  }

  lemma {:induction false} UpperFirst(up: char -> string, s: string)
    requires CaseMapping(up)
    ensures Upper(up, s) == [] <==> s == []
    ensures s != [] ==> (Space(Upper(up, s)[0]) <==> Space(s[0]))
  {
    if s != [] {
      assert Upper(up, s)[0] == up(s[0])[0];
    }
  }

  // ---- joining ----

  lemma {:induction false} UpperJoin(up: char -> string, sep: string, parts: seq<string>)
    requires Upper(up, sep) == sep
    ensures Upper(up, Join(sep, parts)) == Join(sep, UpperAll(up, parts))
  {
    if |parts| > 1 {
      UpperJoin(up, sep, parts[1..]);
      assert UpperAll(up, parts)[1..] == UpperAll(up, parts[1..]);
      UpperAppend(up, parts[0] + sep, Join(sep, parts[1..]));
      UpperAppend(up, parts[0], sep);
    }
  }

  lemma {:induction false} JoinSnoc(sep: string, parts: seq<string>, last: string)
    requires parts != []
    ensures Join(sep, parts + [last]) == Join(sep, parts) + sep + last
  {
    if |parts| > 1 {
      JoinSnoc(sep, parts[1..], last);
      assert (parts + [last])[1..] == parts[1..] + [last];
    }
  }

  /** Words joined by single spaces split back into the same words. */
  lemma {:induction false} WordsJoin(ws: seq<string>)
    requires ws != []
    requires forall i :: 0 <= i < |ws| ==> Spaceless(ws[i]) && ws[i] != []
    ensures Words(Join(" ", ws)) == ws
    ensures Join(" ", ws) != [] && Join(" ", ws)[0] == ws[0][0]
  {
    if |ws| == 1 {
      WordsSpaceless(ws[0]);
    } else {
      var tail := Join(" ", ws[1..]);
      WordsJoin(ws[1..]);
      var spaced := " " + tail;
      assert ws[0] + " " + tail == ws[0] + spaced;
      assert spaced[1..] == tail && spaced[1] == tail[0] && spaced[0] == ' ';
      assert tail[0] == ws[1][0];
      assert Words(spaced) == [[]] + Words(tail);
      WordsPrepend(ws[0], spaced);
      assert ws[0] + [] == ws[0];
      assert [ws[0]] + ws[1..] == ws;
    }
  }
}
