/** The surface forms of an address that the normalizer does not distinguish. */
module AddressForms {
  import opened JavaStrings
  import opened Addresses

  /** Some piece from the third on holds more than padding. */
  predicate HasLater(ps: seq<string>) {
    exists i :: 2 <= i < |ps| && !AllTrimmable(ps[i])
  }

  /** The inputs whose form does not matter: something stands in the third part or later; or
      there is no comma, and the trimmed text is empty or not blank; or there is one comma
      with nothing but padding around it. */
  predicate FormFree(raw: string) {
    var ps := Pieces(raw);
    || HasLater(ps)
    || (|ps| == 1 && (AllTrimmable(raw) || !IsBlank(Trim(raw))))
    || (|ps| == 2 && AllTrimmable(ps[0]) && AllTrimmable(ps[1]))
  }

  /** Same letters up to case. */
  predicate Recased(up: char -> string, r: string, s: string) {
    Upper(up, r) == Upper(up, s)
  }

  /** `c` is padding inserted next to a comma or at an end. */
  predicate PadsAt(x: string, c: char, y: string) {
    && Trimmable(c)
    && (x == [] || x[|x| - 1] == ',' || y == [] || y[0] == ',')
  }

  /** `c` lengthens a run of white space after exactly two commas. */
  predicate WidensAt(x: string, d: char, c: char) {
    Space(d) && Space(c) && |Pieces(x)| == 3
  }

  /** One elementary change of form. */
  ghost predicate Edited(up: char -> string, r: string, s: string) {
    || Recased(up, r, s)
    || (exists x, c, y :: PadsAt(x, c, y) && r == x + y && s == x + [c] + y)
    || (exists x, d, c, y :: WidensAt(x, d, c) && r == x + [d] + y && s == x + [d, c] + y)
  }

  /** Each form is one change away, in either direction, from the one before it. */
  ghost predicate Forms(up: char -> string, chain: seq<string>) {
    forall i :: 0 <= i < |chain| - 1 ==> Edited(up, chain[i], chain[i + 1]) || Edited(up, chain[i + 1], chain[i])
  }

  /** `s` is a form of `r`: a chain of changes leads from one to the other. */
  ghost predicate FormOf(up: char -> string, r: string, s: string) {
    exists chain :: Links(up, chain, r, s)
  }

  ghost predicate Links(up: char -> string, chain: seq<string>, r: string, s: string) {
    chain != [] && chain[0] == r && chain[|chain| - 1] == s && Forms(up, chain)
  }

  /** The record of three or more pieces. */
  function Parsed(up: char -> string, ps: seq<string>): Address
    requires |ps| >= 3
  {
    Compose(up, Trim(ps[0]), Trim(ps[1]), SplitSpaces(Trim(ps[2])))
  }

  /** What two forms of an input have in common, piece by piece. */
  ghost predicate SamePieces(up: char -> string, r: string, s: string) {
    var p, q := Pieces(r), Pieces(s);
    && |p| == |q|
    && (forall i :: 0 <= i < |p| ==> (AllTrimmable(p[i]) <==> AllTrimmable(q[i])))
    && (|p| == 1 ==> Upper(up, Trim(r)) == Upper(up, Trim(s)))
    && (|p| >= 3 ==> Parsed(up, p) == Parsed(up, q))
  }

  // ---- what the pieces determine ----

  lemma {:induction false} OnePiece(raw: string)
    ensures |Pieces(raw)| == 1 <==> Commaless(raw)
    ensures Commaless(raw) ==> Pieces(raw) == [raw]
    ensures !Commaless(raw) ==> !IsBlank(raw) && !AllTrimmable(raw)
  {
    if Commaless(raw) {
      PiecesCommaless(raw);
    } else {
      var i :| 0 <= i < |raw| && raw[i] == ',';
      SomeComma(raw, i);
    }
  }

  lemma {:induction false} SomeComma(raw: string, i: nat)
    requires i < |raw| && raw[i] == ','
    ensures |Pieces(raw)| >= 2 && !IsBlank(raw) && !AllTrimmable(raw)
  {
    assert raw == raw[..i] + "," + raw[i + 1..];
    PiecesComma(raw[..i], raw[i + 1..]);
    assert !Blank(raw[i]) && !Trimmable(raw[i]);
  }

  /** With something in the third part or later, only the first three pieces count. */
  lemma {:induction false} OnlyThreePiecesCount(up: char -> string, raw: string)
    requires HasLater(Pieces(raw))
    ensures Normalized(up, raw) == Parsed(up, Pieces(raw))
  {
    OnePiece(raw);
    var i :| 2 <= i < |Pieces(raw)| && !AllTrimmable(Pieces(raw)[i]);
    DropTrailingPrefix(Pieces(raw));
  }

  /** Without a comma the trimmed text is the record. */
  lemma {:induction false} CommalessRecord(up: char -> string, raw: string)
    requires Commaless(raw) && (AllTrimmable(raw) || !IsBlank(Trim(raw)))
    ensures var t := Upper(up, Trim(raw)); Normalized(up, raw) == Address(t, t, "", "", "", "", false)
  {
    TrimShape(raw);
    if IsBlank(raw) {
      BlankTrim(raw);
    }
  }

  /** Trimming a blank string leaves a blank string. */
  lemma {:induction false} BlankTrim(s: string)
    requires IsBlank(s)
    ensures IsBlank(Trim(s))
  {
    TrimLeftShape(s);
    TrimRightShape(TrimLeft(s));
  }

  /** A comma stops the trimming from either side. */
  lemma {:induction false} TrimComma(a: string, b: string)
    ensures Trim(a + "," + b) == TrimLeft(a) + "," + TrimRight(b)
  {
    TrimLeftAppend(a + ",", b);
    TrimLeftAppend(a, ",");
    TrimLeftShape(a);
    assert !AllTrimmable(a + ",") by { assert (a + ",")[|a|] == ','; }
    assert TrimLeft(a + ",") == TrimLeft(a) + ",";
    TrimRightComma(TrimLeft(a), b);
  }

  lemma {:induction false} TrimRightComma(a: string, b: string)
    ensures TrimRight(a + "," + b) == a + "," + TrimRight(b)
  {
    TrimRightAppend(a + ",", b);
    TrimRightShape(b);
  }

  /** Two pieces are the text before and after the only comma. */
  lemma {:induction false} TwoPieces(raw: string)
    requires |Pieces(raw)| == 2
    ensures raw == Pieces(raw)[0] + "," + Pieces(raw)[1]
  {
    if raw[0] == ',' {
      OnePiece(raw[1..]);
      assert raw == "" + "," + raw[1..];
    } else {
      TwoPieces(raw[1..]);
      var p := Pieces(raw[1..]);
      assert [raw[0]] + (p[0] + "," + p[1]) == ([raw[0]] + p[0]) + "," + p[1];
    }
  }

  /** With at most two pieces and a comma the whole trimmed text is the record. */
  lemma {:induction false} TwoPiecesRecord(up: char -> string, raw: string)
    requires |Pieces(raw)| == 2
    ensures
      var t := Upper(up, TrimLeft(Pieces(raw)[0]) + "," + TrimRight(Pieces(raw)[1]));
      Normalized(up, raw) == Address(t, t, "", "", "", "", false)
  {
    OnePiece(raw);
    TwoPieces(raw);
    TrimComma(Pieces(raw)[0], Pieces(raw)[1]);
    DropTrailingPrefix(Pieces(raw));
  }

  /** Inputs with the same pieces are form-free together, and then have the same record. */
  lemma {:induction false} SamePiecesSameRecord(up: char -> string, r: string, s: string)
    requires CaseMapping(up) && SamePieces(up, r, s)
    ensures FormFree(r) <==> FormFree(s)
    ensures FormFree(r) ==> Normalized(up, r) == Normalized(up, s)
  {
    var p, q := Pieces(r), Pieces(s);
    OnePiece(r);
    OnePiece(s);
    if |p| == 1 {
      UpperKeepsClasses(up, Trim(r));
      UpperKeepsClasses(up, Trim(s));
      if FormFree(r) {
        CommalessRecord(up, r);
        CommalessRecord(up, s);
      }
    } else if |p| == 2 {
      if FormFree(r) {
        TwoPiecesRecord(up, r);
        TwoPiecesRecord(up, s);
        TrimLeftShape(p[0]);
        TrimLeftShape(q[0]);
        TrimRightShape(p[1]);
        TrimRightShape(q[1]);
      }
    } else {
      LaterAlike(p, q);
      if HasLater(p) {
        OnlyThreePiecesCount(up, r);
        OnlyThreePiecesCount(up, s);
      }
    }
  }

  lemma {:induction false} LaterAlike(p: seq<string>, q: seq<string>)
    requires |p| == |q| && forall i :: 0 <= i < |p| ==> (AllTrimmable(p[i]) <==> AllTrimmable(q[i]))
    ensures HasLater(p) <==> HasLater(q)
  {
    if HasLater(p) {
      var i :| 2 <= i < |p| && !AllTrimmable(p[i]);
      assert !AllTrimmable(q[i]);
    }
    if HasLater(q) {
      var i :| 2 <= i < |q| && !AllTrimmable(q[i]);
      assert !AllTrimmable(p[i]);
    }
  }

  // ---- case ----

  lemma {:induction false} UpperParsed(up: char -> string, ps: seq<string>)
    requires CaseMapping(up) && |ps| >= 3
    ensures Parsed(up, UpperAll(up, ps)) == Parsed(up, ps)
  {
    UpperTrim(up, ps[0]);
    UpperTrim(up, ps[1]);
    UpperSplit(up, ps[2]);
    ComposeUpper(up, Trim(ps[0]), Trim(ps[1]), SplitSpaces(Trim(ps[2])));
  }

  /** The upper-cased input has the same pieces. */
  lemma {:induction false} UpperSamePieces(up: char -> string, r: string)
    requires CaseMapping(up)
    ensures SamePieces(up, r, Upper(up, r))
  {
    var ps := Pieces(r);
    UpperPieces(up, r);
    forall i | 0 <= i < |ps|
      ensures AllTrimmable(UpperAll(up, ps)[i]) <==> AllTrimmable(ps[i])
    {
      UpperKeepsClasses(up, ps[i]);
    }
    UpperTrim(up, r);
    UpperIdempotent(up, Trim(r));
    if |ps| >= 3 {
      UpperParsed(up, ps);
    }
  }

  lemma {:induction false} UpperSplit(up: char -> string, s: string)
    requires CaseMapping(up)
    ensures SplitSpaces(Trim(Upper(up, s))) == UpperAll(up, SplitSpaces(Trim(s)))
  {
    UpperTrim(up, s);
    TrimShape(s);
    TrimShape(Upper(up, s));
    SplitTrimmed(Trim(s));
    SplitTrimmed(Trim(Upper(up, s)));
    UpperWords(up, Trim(s));
  }

  lemma {:induction false} RecasedSamePieces(up: char -> string, r: string, s: string)
    requires CaseMapping(up) && Recased(up, r, s)
    ensures SamePieces(up, r, s)
  {
    UpperSamePieces(up, r);
    UpperSamePieces(up, s);
  }

  // ---- padding ----

  lemma {:induction false} EndPieces(x: string)
    ensures x != [] && x[0] == ',' ==> Pieces(x)[0] == []
    ensures x == [] || x[|x| - 1] == ',' ==> Pieces(x)[|Pieces(x)| - 1] == []
  {
    if |x| > 1 {
      EndPieces(x[1..]);
    }
  }

  lemma {:induction false} PadsSamePieces(up: char -> string, x: string, c: char, y: string)
    requires PadsAt(x, c, y)
    ensures SamePieces(up, x + y, x + [c] + y)
  {
    EndPieces(x);
    EndPieces(y);
    PiecesAppend(x, y);
    InsertIntoPiece(x, [c], y);
    PadGlue(Pieces(x), c, Pieces(y));
    TrimmedSamePieces(up, x + y, x + [c] + y);
  }

  /** Piece by piece the same but for padding at the ends. */
  predicate PadTrimmed(p: seq<string>, q: seq<string>) {
    |p| == |q| && forall i :: 0 <= i < |p| ==> Trim(p[i]) == Trim(q[i])
  }

  lemma {:induction false} PadGlue(p: seq<string>, c: char, q: seq<string>)
    requires p != [] && q != [] && Trimmable(c) && (p[|p| - 1] == [] || q[0] == [])
    ensures PadTrimmed(Glue(p, q), p[..|p| - 1] + [p[|p| - 1] + [c] + q[0]] + q[1..])
  {
    PadTrims(p[|p| - 1], c, q[0]);
  }

  lemma {:induction false} TrimmedSamePieces(up: char -> string, r: string, s: string)
    requires PadTrimmed(Pieces(r), Pieces(s))
    ensures SamePieces(up, r, s)
  {
    var p, q := Pieces(r), Pieces(s);
    forall i | 0 <= i < |p|
      ensures AllTrimmable(p[i]) <==> AllTrimmable(q[i])
    {
      TrimShape(p[i]);
      TrimShape(q[i]);
    }
    OnePiece(r);
    OnePiece(s);
    if |p| == 1 {
      assert Trim(p[0]) == Trim(q[0]);
    }
  }

  /** Text without commas goes into the piece where it is inserted. */
  lemma {:induction false} InsertIntoPiece(x: string, m: string, y: string)
    requires Commaless(m)
    ensures
      var p, q := Pieces(x), Pieces(y);
      Pieces(x + m + y) == p[..|p| - 1] + [p[|p| - 1] + m + q[0]] + q[1..]
  {
    PiecesCommaless(m);
    PiecesAppend(x, m);
    PiecesAppend(x + m, y);
    assert [m][1..] == [];
  }

  /** Padding at an end of a piece. */
  lemma {:induction false} PadTrims(a: string, c: char, b: string)
    requires Trimmable(c) && (a == [] || b == [])
    ensures Trim(a + [c] + b) == Trim(a + b)
    ensures AllTrimmable(a + [c] + b) <==> AllTrimmable(a + b)
  {
    ClassesAppend(a + [c], b);
    ClassesAppend(a, [c]);
    ClassesAppend(a, b);
    if a == [] {
      TrimPadding([c], b, []);
      assert a + [c] + b == [c] + b + [] && a + b == b;
    } else {
      TrimPadding([], a, [c]);
      assert a + [c] + b == [] + a + [c] && a + b == a;
    }
  }

  // ---- white space between words ----

  lemma {:induction false} WordsWiden(a: string, d: char, c: char, b: string)
    requires Space(c) && Space(d)
    ensures Words(a + [d, c] + b) == Words(a + [d] + b)
  {
    if a == [] {
      var r, s := [d, c] + b, [d] + b;
      assert a + [d, c] + b == r && a + [d] + b == s;
      assert r[1..] == [c] + b && ([c] + b)[1..] == b && s[1..] == b;
      assert b != [] ==> r[2] == b[0] && s[1] == b[0];
    } else {
      assert (a + [d, c] + b)[1..] == a[1..] + [d, c] + b;
      assert (a + [d] + b)[1..] == a[1..] + [d] + b;
      WordsWiden(a[1..], d, c, b);
      assert |a| > 1 ==> (a + [d, c] + b)[1] == a[1] == (a + [d] + b)[1];
    }
  }

  /** Trimming around a stretch of white space. */
  lemma {:induction false} TrimAround(a: string, m: string, b: string)
    requires AllTrimmable(m)
    ensures
      Trim(a + m + b) ==
      if AllTrimmable(a) then Trim(b)
      else if AllTrimmable(b) then Trim(a)
      else TrimLeft(a) + m + TrimRight(b)
  {
    if AllTrimmable(a) {
      ClassesAppend(a, m);
      TrimPadding(a + m, b, []);
      assert a + m + b == a + m + b + [];
    } else if AllTrimmable(b) {
      ClassesAppend(m, b);
      TrimPadding([], a, m + b);
      assert a + m + b == [] + a + (m + b);
    } else {
      assert a + m + b == a + (m + b);
      TrimLeftAppend(a, m + b);
      assert TrimLeft(a) + (m + b) == TrimLeft(a) + m + b;
      TrimRightAppend(TrimLeft(a) + m, b);
    }
  }

  lemma {:induction false} WidenSplits(a: string, d: char, c: char, b: string)
    requires Space(c) && Space(d)
    ensures SplitSpaces(Trim(a + [d, c] + b)) == SplitSpaces(Trim(a + [d] + b))
    ensures AllTrimmable(a + [d, c] + b) <==> AllTrimmable(a + [d] + b)
  {
    var r, s := a + [d, c] + b, a + [d] + b;
    ClassesAppend(a + [d, c], b);
    ClassesAppend(a, [d, c]);
    ClassesAppend(a + [d], b);
    ClassesAppend(a, [d]);
    TrimAround(a, [d, c], b);
    TrimAround(a, [d], b);
    WordsWiden(TrimLeft(a), d, c, TrimRight(b));
    TrimShape(r);
    TrimShape(s);
    SplitTrimmed(Trim(r));
    SplitTrimmed(Trim(s));
  }

  lemma {:induction false} WidensSamePieces(up: char -> string, x: string, d: char, c: char, y: string)
    requires WidensAt(x, d, c)
    ensures SamePieces(up, x + [d] + y, x + [d, c] + y)
  {
    InsertIntoPiece(x, [d], y);
    InsertIntoPiece(x, [d, c], y);
    WidenThird(up, Pieces(x), d, c, Pieces(y));
  }

  lemma {:induction false} WidenThird(up: char -> string, p: seq<string>, d: char, c: char, q: seq<string>)
    requires |p| == 3 && q != [] && Space(d) && Space(c)
    ensures
      var r, s := p[..2] + [p[2] + [d] + q[0]] + q[1..], p[..2] + [p[2] + [d, c] + q[0]] + q[1..];
      && (forall i :: 0 <= i < |r| ==> (AllTrimmable(r[i]) <==> AllTrimmable(s[i])))
      && Parsed(up, r) == Parsed(up, s)
  {
    WidenSplits(p[2], d, c, q[0]);
  }

  // ---- all forms ----

  lemma {:induction false} EditSamePieces(up: char -> string, r: string, s: string)
    requires CaseMapping(up) && Edited(up, r, s)
    ensures SamePieces(up, r, s)
  {
    if Recased(up, r, s) {
      RecasedSamePieces(up, r, s);
    } else if exists x, c, y :: PadsAt(x, c, y) && r == x + y && s == x + [c] + y {
      var x, c, y :| PadsAt(x, c, y) && r == x + y && s == x + [c] + y;
      PadsSamePieces(up, x, c, y);
    } else {
      var x, d, c, y :| WidensAt(x, d, c) && r == x + [d] + y && s == x + [d, c] + y;
      WidensSamePieces(up, x, d, c, y);
    }
  }

  /** Surface-form insensitivity: however many changes of letter case, of padding around the
      commas, and of the amount of white space between the words of the third part lie
      between two inputs, they normalize to the same record if the first is form-free. */
  lemma {:induction false} FormsNormalizeAlike(up: char -> string, chain: seq<string>)
    requires CaseMapping(up) && chain != [] && Forms(up, chain) && FormFree(chain[0])
    ensures FormFree(chain[|chain| - 1])
    ensures Normalized(up, chain[|chain| - 1]) == Normalized(up, chain[0])
  {
    if |chain| > 1 {
      if Edited(up, chain[0], chain[1]) {
        EditSamePieces(up, chain[0], chain[1]);
        SamePiecesSameRecord(up, chain[0], chain[1]);
      } else {
        EditSamePieces(up, chain[1], chain[0]);
        SamePiecesSameRecord(up, chain[1], chain[0]);
      }
      FormsTail(up, chain);
      FormsNormalizeAlike(up, chain[1..]);
    }
  }

  lemma {:induction false} FormsTail(up: char -> string, chain: seq<string>)
    requires |chain| > 1 && Forms(up, chain)
    ensures Forms(up, chain[1..])
  {
    var tail := chain[1..];
    forall i | 0 <= i < |tail| - 1
      ensures Edited(up, tail[i], tail[i + 1]) || Edited(up, tail[i + 1], tail[i])
    {
      var j := i + 1;
      assert Edited(up, chain[j], chain[j + 1]) || Edited(up, chain[j + 1], chain[j]);
    }
  }

  // ---- building forms ----

  lemma {:induction false} SelfForm(up: char -> string, r: string)
    ensures FormOf(up, r, r)
  {
    assert Links(up, [r], r, r);
  }

  /** One more change, in either direction. */
  lemma {:induction false} NextForm(up: char -> string, r: string, s: string, t: string)
    requires FormOf(up, r, s) && (Edited(up, s, t) || Edited(up, t, s))
    ensures FormOf(up, r, t)
  {
    var chain :| Links(up, chain, r, s);
    var longer := chain + [t];
    forall i | 0 <= i < |longer| - 1
      ensures Edited(up, longer[i], longer[i + 1]) || Edited(up, longer[i + 1], longer[i])
    {
      if i < |chain| - 1 {
        assert Edited(up, chain[i], chain[i + 1]) || Edited(up, chain[i + 1], chain[i]);
      }
    }
    assert Links(up, longer, r, t);
  }

  lemma {:induction false} PadForm(up: char -> string, r: string, x: string, c: char, y: string)
    requires PadsAt(x, c, y)
    ensures FormOf(up, r, x + y) <==> FormOf(up, r, x + [c] + y)
  {
    assert Edited(up, x + y, x + [c] + y);
    if FormOf(up, r, x + y) {
      NextForm(up, r, x + y, x + [c] + y);
    }
    if FormOf(up, r, x + [c] + y) {
      NextForm(up, r, x + [c] + y, x + y);
    }
  }

  /** The input without its padding at the left end, and at the right, is a form of it. */
  lemma {:induction false} TrimLeftForm(up: char -> string, r: string, s: string)
    requires FormOf(up, r, s)
    ensures FormOf(up, r, TrimLeft(s))
  {
    if s != [] && Trimmable(s[0]) {
      assert [] + s[1..] == s[1..] && [] + [s[0]] + s[1..] == s;
      PadForm(up, r, [], s[0], s[1..]);
      TrimLeftForm(up, r, s[1..]);
    }
  }

  lemma {:induction false} TrimRightForm(up: char -> string, r: string, s: string)
    requires FormOf(up, r, s)
    ensures FormOf(up, r, TrimRight(s))
  {
    if s != [] && Trimmable(s[|s| - 1]) {
      var init, last := s[..|s| - 1], s[|s| - 1];
      assert init + [] == init && init + [last] + [] == s;
      PadForm(up, r, init, last, []);
      TrimRightForm(up, r, init);
    }
  }

  // ---- where the form matters ----

  const NUL := 0 as char

  /** A blank text that is not all padding reads as no address, until a control character
      pads it. */
  lemma {:induction false} BlankTextMatters(up: char -> string, raw: string) returns (s: string, t: string)
    requires CaseMapping(up) && Commaless(raw) && !FormFree(raw)
    ensures FormOf(up, raw, s) && FormOf(up, raw, t) && Normalized(up, s) != Normalized(up, t)
  {
    OnePiece(raw);
    s := Trim(raw);
    SelfForm(up, raw);
    TrimLeftForm(up, raw, raw);
    TrimRightForm(up, raw, TrimLeft(raw));
    t := s + [NUL];
    assert s + [] == s && s + [NUL] + [] == t;
    PadForm(up, raw, s, NUL, []);
    TrimShape(raw);
    assert t[|s|] == NUL && !Blank(NUL);
    ClassesAppend(s, [NUL]);
    TrimPadding([], s, [NUL]);
    assert [] + s + [NUL] == t;
    TrimFixed(s);
    UpperKeepsClasses(up, s);
    PiecesCommaless(t);
  }

  /** With one comma, a space beside it stays inside the trimmed text. */
  lemma {:induction false} OneCommaMatters(up: char -> string, raw: string) returns (s: string)
    requires CaseMapping(up) && |Pieces(raw)| == 2 && !FormFree(raw)
    ensures FormOf(up, raw, s) && Normalized(up, raw) != Normalized(up, s)
  {
    var a, b := Pieces(raw)[0], Pieces(raw)[1];
    TwoPieces(raw);
    PiecesAreCommaless(raw);
    SelfForm(up, raw);
    CommaTexts(up, a, b);
    if !AllTrimmable(a) {
      s := (a + " ") + "," + b;
      SpaceBeforeComma(up, raw, a, b);
      CommaTexts(up, a + " ", b);
      LongerBefore(up, a, b);
    } else {
      s := a + "," + (" " + b);
      SpaceAfterComma(up, raw, a, b);
      CommaTexts(up, a, " " + b);
      LongerAfter(up, a, b);
    }
  }

  lemma {:induction false} LongerBefore(up: char -> string, a: string, b: string)
    requires CaseMapping(up) && !AllTrimmable(a)
    ensures Upper(up, TrimLeft(a) + "," + TrimRight(b)) != Upper(up, TrimLeft(a + " ") + "," + TrimRight(b))
  {
    var front, back := TrimLeft(a), "," + TrimRight(b);
    TrimLeftAppend(a, " ");
    LongerUpper(up, front, back);
    assert front + "," + TrimRight(b) == front + back;
    assert (front + " ") + "," + TrimRight(b) == front + " " + back;
  }

  lemma {:induction false} LongerAfter(up: char -> string, a: string, b: string)
    requires CaseMapping(up) && !AllTrimmable(b)
    ensures Upper(up, TrimLeft(a) + "," + TrimRight(b)) != Upper(up, TrimLeft(a) + "," + TrimRight(" " + b))
  {
    var front, back := TrimLeft(a) + ",", TrimRight(b);
    TrimRightAppend(" ", b);
    LongerUpper(up, front, back);
    assert front + (" " + back) == front + " " + back;
  }

  lemma {:induction false} SpaceBeforeComma(up: char -> string, raw: string, a: string, b: string)
    requires FormOf(up, raw, a + "," + b)
    ensures FormOf(up, raw, (a + " ") + "," + b)
  {
    assert a + "," + b == a + ("," + b);
    assert (a + " ") + "," + b == a + [' '] + ("," + b);
    PadForm(up, raw, a, ' ', "," + b);
  }

  lemma {:induction false} SpaceAfterComma(up: char -> string, raw: string, a: string, b: string)
    requires FormOf(up, raw, a + "," + b)
    ensures FormOf(up, raw, a + "," + (" " + b))
  {
    assert a + "," + (" " + b) == (a + ",") + [' '] + b;
    PadForm(up, raw, a + ",", ' ', b);
  }

  /** The record of two given pieces. */
  lemma {:induction false} CommaTexts(up: char -> string, a: string, b: string)
    requires Commaless(a) && Commaless(b)
    ensures
      var t := Upper(up, TrimLeft(a) + "," + TrimRight(b));
      Normalized(up, a + "," + b) == Address(t, t, "", "", "", "", false)
  {
    PiecesCommaless(a);
    PiecesCommaless(b);
    PiecesComma(a, b);
    TwoPiecesRecord(up, a + "," + b);
  }

  /** A space more in the middle makes another text, also in upper case. */
  lemma {:induction false} LongerUpper(up: char -> string, a: string, b: string)
    requires CaseMapping(up)
    ensures Upper(up, a + b) != Upper(up, a + " " + b)
  {
    UpperAppend(up, a, b);
    UpperAppend(up, a + " ", b);
    UpperAppend(up, a, " ");
    UpperSpecial(up, " ");
  }

  /** Commas and padding only. */
  predicate CommasAndPadding(t: string) {
    forall i :: 0 <= i < |t| ==> t[i] == ',' || Trimmable(t[i])
  }

  function OnlyCommas(t: string): string {
    if t == [] then [] else (if t[0] == ',' then [','] else []) + OnlyCommas(t[1..])
  }

  lemma {:induction false} OnlyCommasShape(t: string)
    ensures forall i :: 0 <= i < |OnlyCommas(t)| ==> OnlyCommas(t)[i] == ','
    ensures |Pieces(OnlyCommas(t))| == |Pieces(t)|
    ensures forall i :: 0 <= i < |Pieces(OnlyCommas(t))| ==> Pieces(OnlyCommas(t))[i] == []
  {
    if t != [] {
      OnlyCommasShape(t[1..]);
      if t[0] == ',' {
        assert OnlyCommas(t)[1..] == OnlyCommas(t[1..]);
      } else {
        assert [] + OnlyCommas(t[1..]) == OnlyCommas(t[1..]);
      }
    }
  }

  /** The padding at the end of an input can be removed from between its commas. */
  lemma {:induction false} OnlyCommasForm(up: char -> string, r: string, x: string, t: string)
    requires FormOf(up, r, x + t) && CommasAndPadding(t)
    ensures FormOf(up, r, x + OnlyCommas(t))
    decreases t
  {
    if t == [] {
      assert x + OnlyCommas(t) == x + t;
    } else {
      var c, rest := t[0], t[1..];
      assert x + t == x + [c] + rest;
      OnlyCommasForm(up, r, x + [c], rest);
      OnlyCommasShape(rest);
      if c == ',' {
        assert x + [c] + OnlyCommas(rest) == x + OnlyCommas(t);
      } else {
        PadForm(up, r, x, c, OnlyCommas(rest));
        assert x + OnlyCommas(t) == x + OnlyCommas(rest);
      }
    }
  }

  /** An input of three or more pieces is its first two and the rest. */
  lemma {:induction false} SplitAfterTwo(raw: string) returns (t: string)
    requires |Pieces(raw)| >= 3
    ensures raw == Pieces(raw)[0] + "," + Pieces(raw)[1] + "," + t
    ensures Pieces(t) == Pieces(raw)[2..]
  {
    var a, s := SplitAfterOne(raw);
    var b, u := SplitAfterOne(s);
    t := u;
    assert raw == a + "," + (b + "," + u);
  }

  lemma {:induction false} SplitAfterOne(raw: string) returns (a: string, t: string)
    requires |Pieces(raw)| >= 2
    ensures a == Pieces(raw)[0] && raw == a + "," + t && Pieces(t) == Pieces(raw)[1..]
  {
    if raw[0] == ',' {
      a, t := [], raw[1..];
    } else {
      var b, u := SplitAfterOne(raw[1..]);
      a, t := [raw[0]] + b, u;
      assert raw == [raw[0]] + (b + "," + u);
    }
  }

  lemma {:induction false} PaddedPieces(t: string)
    requires forall i :: 0 <= i < |Pieces(t)| ==> AllTrimmable(Pieces(t)[i])
    ensures CommasAndPadding(t)
  {
    if t != [] {
      var rest := Pieces(t[1..]);
      forall i | 0 <= i < |rest|
        ensures AllTrimmable(rest[i])
      {
        if t[0] == ',' {
          assert Pieces(t)[i + 1] == rest[i];
        } else if i > 0 {
          assert Pieces(t)[i] == rest[i];
        } else {
          assert Pieces(t)[0][1..] == rest[0];
        }
      }
      PaddedPieces(t[1..]);
      assert t[0] != ',' ==> Pieces(t)[0][0] == t[0];
    }
  }

  /** With two commas or more and only padding after the second, that padding decides whether
      there is a third part. */
  lemma {:induction false} EmptyTailMatters(up: char -> string, raw: string) returns (s: string, t: string)
    requires CaseMapping(up) && |Pieces(raw)| >= 3 && !FormFree(raw)
    ensures FormOf(up, raw, s) && FormOf(up, raw, t) && Normalized(up, s) != Normalized(up, t)
  {
    var ps := Pieces(raw);
    var tail := SplitAfterTwo(raw);
    forall i | 0 <= i < |Pieces(tail)|
      ensures AllTrimmable(Pieces(tail)[i])
    {
      assert Pieces(tail)[i] == ps[i + 2];
    }
    PaddedPieces(tail);
    var x := ps[0] + "," + ps[1] + ",";
    SelfForm(up, raw);
    assert raw == x + tail;
    OnlyCommasForm(up, raw, x, tail);
    OnlyCommasShape(tail);
    s := x + OnlyCommas(tail);
    t := s + " ";
    assert s + [] == s && s + [' '] + [] == t;
    PadForm(up, raw, s, ' ', []);
    PiecesAreCommaless(raw);
    TailPieces(ps[0], ps[1], OnlyCommas(tail));
    NoThirdPart(up, s);
    PiecesAppend(s, " ");
    ThirdPart(up, t);
  }

  lemma {:induction false} TailPieces(a: string, b: string, t: string)
    requires Commaless(a) && Commaless(b)
    ensures Pieces(a + "," + b + "," + t) == [a, b] + Pieces(t)
  {
    PiecesCommaless(a);
    PiecesCommaless(b);
    PiecesComma(a, b);
    PiecesComma(a + "," + b, t);
  }

  /** Empty pieces at the end are dropped. */
  lemma {:induction false} DropsEmpty(ps: seq<string>, n: nat)
    requires n <= |ps| && forall i :: n <= i < |ps| ==> ps[i] == []
    ensures |DropTrailingEmpty(ps)| <= n
    decreases |ps|
  {
    DropTrailingPrefix(ps);
    if |ps| > n {
      DropsEmpty(ps[..|ps| - 1], n);
    }
  }

  lemma {:induction false} NoThirdPart(up: char -> string, raw: string)
    requires |Pieces(raw)| >= 3 && forall i :: 2 <= i < |Pieces(raw)| ==> Pieces(raw)[i] == []
    ensures Normalized(up, raw).country == ""
  {
    OnePiece(raw);
    DropsEmpty(Pieces(raw), 2);
  }

  lemma {:induction false} ThirdPart(up: char -> string, raw: string)
    requires |Pieces(raw)| >= 3 && Pieces(raw)[|Pieces(raw)| - 1] != []
    ensures Normalized(up, raw).country == DEFAULT_COUNTRY
  {
    OnePiece(raw);
    DropTrailingPrefix(Pieces(raw));
  }

  /** Outside the form-free inputs the form alone can change the record. */
  lemma {:induction false} FormCanMatter(up: char -> string, raw: string) returns (s: string, t: string)
    requires CaseMapping(up) && !FormFree(raw)
    ensures FormOf(up, raw, s) && FormOf(up, raw, t) && Normalized(up, s) != Normalized(up, t)
  {
    OnePiece(raw);
    if |Pieces(raw)| == 1 {
      s, t := BlankTextMatters(up, raw);
    } else if |Pieces(raw)| == 2 {
      s := raw;
      SelfForm(up, raw);
      t := OneCommaMatters(up, raw);
    } else {
      s, t := EmptyTailMatters(up, raw);
    }
  }

  /** All forms of an input normalize to one record exactly when the input is form-free. */
  lemma {:induction false} FormsAgreeExactly(up: char -> string, raw: string)
    requires CaseMapping(up)
    ensures (forall s :: FormOf(up, raw, s) ==> Normalized(up, s) == Normalized(up, raw)) <==> FormFree(raw)
  {
    if FormFree(raw) {
      forall s | FormOf(up, raw, s)
        ensures Normalized(up, s) == Normalized(up, raw)
      {
        var chain :| Links(up, chain, raw, s);
        FormsNormalizeAlike(up, chain);
      }
    } else {
      var s, t := FormCanMatter(up, raw);
    }
  }
}
