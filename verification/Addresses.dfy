/** The address normalizer: a parser of "line1, city, state postal" and a printer of what it
    found, and the laws that tie the two together. */
module Addresses {
  import opened Downstream
  import opened JavaStrings

  datatype Address = Address(
    normalizedAddress: string,
    line1: string,
    city: string,
    state: string,
    postalCode: string,
    country: string,
    valid: bool)

  const DEFAULT_COUNTRY := "US"

  /** What is printed: a blank state or postal code is left out. */
  function Fields(line1: string, city: string, state: string, postalCode: string): seq<string> {
    [line1, city]
    + (if IsBlank(state) then [] else [state])
    + (if IsBlank(postalCode) then [] else [postalCode])
    + [DEFAULT_COUNTRY]
  }

  /** The record of a trimmed first line, a trimmed city, and the words of the third part. */
  function Compose(up: char -> string, first: string, second: string, words: seq<string>): Address {
    var line1, city := Upper(up, first), Upper(up, second);
    var postalCode := if |words| > 0 then Upper(up, words[|words| - 1]) else "";
    var state := if |words| > 1 then Upper(up, Join(" ", words[..|words| - 1])) else "";
    Address(
      Join(", ", Fields(line1, city, state, postalCode)),
      line1, city, state, postalCode, DEFAULT_COUNTRY,
      !IsBlank(line1) && !IsBlank(city) && !IsBlank(state) && !IsBlank(postalCode))
  }

  function Normalized(up: char -> string, raw: string): Address {
    if IsBlank(raw) then Address("", "", "", "", "", "", false)
    else
      var parts := SplitCommas(raw);
      if |parts| < 3 then
        var cleaned := Upper(up, Trim(raw));
        Address(cleaned, cleaned, "", "", "", "", false)
      else Compose(up, Trim(parts[0]), Trim(parts[1]), SplitSpaces(Trim(parts[2])))
  }

  /** `None` is the null reference. */
  method Normalize(up: char -> string, rawAddress: Option<string>) returns (a: Address)
    ensures a == Normalized(up, if rawAddress.Some? then rawAddress.value else "")
  {
    if rawAddress.None? || IsBlank(rawAddress.value) {
      return Address("", "", "", "", "", "", false);
    }
    var parts := SplitCommas(rawAddress.value);
    if |parts| < 3 {
      var cleaned := Upper(up, Trim(rawAddress.value));
      return Address(cleaned, cleaned, "", "", "", "", false);
    }
    var line1 := Upper(up, Trim(parts[0]));
    var city := Upper(up, Trim(parts[1]));
    var stateZip := SplitSpaces(Trim(parts[2]));
    var postalCode := if |stateZip| > 0 then Upper(up, stateZip[|stateZip| - 1]) else "";
    var state := if |stateZip| > 1 then Upper(up, Join(" ", stateZip[..|stateZip| - 1])) else "";

    var fields := [line1];
    fields := fields + [city];
    if !IsBlank(state) {
      fields := fields + [state];
    }
    if !IsBlank(postalCode) {
      fields := fields + [postalCode];
    }
    fields := fields + [DEFAULT_COUNTRY];
    assert fields == Fields(line1, city, state, postalCode);

    var normalizedAddress := Join(", ", fields);
    var valid := !IsBlank(line1) && !IsBlank(city) && !IsBlank(state) && !IsBlank(postalCode);
    a := Address(normalizedAddress, line1, city, state, postalCode, DEFAULT_COUNTRY, valid);
  }

  // ---- the third part ----

  /** A trimmed string splits into its words, none of them empty unless it is. */
  lemma {:induction false} SplitTrimmed(t: string)
    requires Trimmed(t)
    ensures SplitSpaces(t) == Words(t)
    ensures forall i :: 0 <= i < |Words(t)| ==> Spaceless(Words(t)[i]) && (t != [] ==> Words(t)[i] != [])
  {
    WordsShape(t);
    if Spaceless(t) {
      WordsSpaceless(t);
    }
  }

  /** The words of a trimmed string, joined by single spaces, are trimmed again. */
  lemma {:induction false} JoinTrimmed(t: string)
    requires Trimmed(t) && t != []
    ensures Trimmed(Join(" ", Words(t)))
  {
    var ws := Words(t);
    WordsShape(t);
    SplitTrimmed(t);
    WordsJoin(ws);
    JoinEnds(ws);
  }

  lemma {:induction false} JoinEnds(ws: seq<string>)
    requires ws != [] && ws[|ws| - 1] != []
    ensures var j, last := Join(" ", ws), ws[|ws| - 1]; j != [] && j[|j| - 1] == last[|last| - 1]
  {
    if |ws| > 1 {
      JoinEnds(ws[1..]);
    }
  }

  // ---- letter case ----

  lemma {:induction false} ComposeUpper(up: char -> string, first: string, second: string, words: seq<string>)
    requires CaseMapping(up)
    ensures Compose(up, Upper(up, first), Upper(up, second), UpperAll(up, words)) == Compose(up, first, second, words)
  {
    UpperIdempotent(up, first);
    UpperIdempotent(up, second);
    if |words| > 0 {
      UpperIdempotent(up, words[|words| - 1]);
    }
    if |words| > 1 {
      var init := words[..|words| - 1];
      assert UpperAll(up, words)[..|words| - 1] == UpperAll(up, init);
      UpperSpecial(up, " ");
      UpperJoin(up, " ", init);
      UpperIdempotent(up, Join(" ", init));
    }
  }

  // ---- reparsing ----

  /** A record in the form the parser reads. */
  function Reprint(a: Address): string {
    a.line1 + ", " + a.city + ", " + a.state + " " + a.postalCode
  }

  /** Three comma-free parts, the third not empty, are read back as such. */
  lemma {:induction false} ThreeParts(up: char -> string, p0: string, p1: string, p2: string)
    requires Commaless(p0) && Commaless(p1) && Commaless(p2) && p2 != []
    ensures Normalized(up, p0 + "," + p1 + "," + p2) == Compose(up, Trim(p0), Trim(p1), SplitSpaces(Trim(p2)))
  {
    var raw := p0 + "," + p1 + "," + p2;
    PiecesComma(p0 + "," + p1, p2);
    PiecesComma(p0, p1);
    PiecesCommaless(p0);
    PiecesCommaless(p1);
    PiecesCommaless(p2);
    assert Pieces(raw) == [p0, p1, p2];
    assert raw[|p0|] == ',';
  }

  lemma {:induction false} UpperTrimmed(up: char -> string, s: string)
    requires CaseMapping(up) && Trimmed(s)
    ensures Trim(Upper(up, s)) == Upper(up, s)
    ensures Trim(" " + Upper(up, s)) == Upper(up, s)
  {
    TrimFixed(s);
    UpperTrim(up, s);
    TrimPadding(" ", Upper(up, s), "");
    assert " " + Upper(up, s) + "" == " " + Upper(up, s);
  }

  /** The upper-cased words of a trimmed string, joined and split again. */
  lemma {:induction false} UpperWordsSplitBack(up: char -> string, t: string)
    requires CaseMapping(up) && Trimmed(t) && t != []
    ensures
      var again := Upper(up, Join(" ", Words(t)));
      && again == Join(" ", UpperAll(up, Words(t)))
      && again != []
      && Trim(" " + again) == again
      && SplitSpaces(again) == UpperAll(up, Words(t))
  {
    var ws := Words(t);
    SplitTrimmed(t);
    JoinTrimmed(t);
    UpperSpecial(up, " ");
    UpperJoin(up, " ", ws);
    UpperTrimmed(up, Join(" ", ws));
    forall i | 0 <= i < |ws|
      ensures Spaceless(UpperAll(up, ws)[i]) && UpperAll(up, ws)[i] != []
    {
      UpperKeepsClasses(up, ws[i]);
      UpperFirst(up, ws[i]);
    }
    WordsJoin(UpperAll(up, ws));
    TrimShape(" " + Upper(up, Join(" ", ws)));
    SplitTrimmed(Upper(up, Join(" ", ws)));
  }

  lemma {:induction false} CommalessParts(up: char -> string, raw: string)
    requires CaseMapping(up)
    ensures forall i :: 0 <= i < |SplitCommas(raw)| ==>
              Trimmed(Trim(SplitCommas(raw)[i])) && Commaless(Upper(up, Trim(SplitCommas(raw)[i])))
  {
    PiecesAreCommaless(raw);
    DropTrailingPrefix(Pieces(raw));
    forall i | 0 <= i < |SplitCommas(raw)|
      ensures Trimmed(Trim(SplitCommas(raw)[i])) && Commaless(Upper(up, Trim(SplitCommas(raw)[i])))
    {
      TrimShape(SplitCommas(raw)[i]);
      UpperKeepsClasses(up, Trim(SplitCommas(raw)[i]));
    }
  }

  lemma {:induction false} DropTrailingPrefix(ps: seq<string>)
    ensures DropTrailingEmpty(ps) <= ps
    ensures forall i :: 0 <= i < |ps| && ps[i] != [] ==> i < |DropTrailingEmpty(ps)|
  {
    if ps != [] && ps[|ps| - 1] == [] {
      DropTrailingPrefix(ps[..|ps| - 1]);
      forall i | 0 <= i < |ps| && ps[i] != []
        ensures i < |DropTrailingEmpty(ps)|
      {
        assert ps[..|ps| - 1][i] == ps[i];
      }
    }
  }

  lemma {:induction false} WordsCommaless(s: string)
    requires Commaless(s)
    ensures Commaless(Join(" ", Words(s)))
    ensures forall i :: 0 <= i < |Words(s)| ==> Commaless(Words(s)[i])
  {
    WordsOfCommaless(s);
    JoinCommaless(Words(s));
  }

  lemma {:induction false} WordsOfCommaless(s: string)
    requires Commaless(s)
    ensures forall i :: 0 <= i < |Words(s)| ==> Commaless(Words(s)[i])
  {
    if s != [] {
      WordsOfCommaless(s[1..]);
    }
  }

  lemma {:induction false} JoinCommaless(ws: seq<string>)
    requires forall i :: 0 <= i < |ws| ==> Commaless(ws[i])
    ensures Commaless(Join(" ", ws))
  {
    if |ws| > 1 {
      JoinCommaless(ws[1..]);
      ClassesAppend(ws[0], " ");
      ClassesAppend(ws[0] + " ", Join(" ", ws[1..]));
    }
  }

  /** The state and the postal code, with a space between, are the third part's words again. */
  lemma {:induction false} StateAndPostal(up: char -> string, words: seq<string>)
    requires CaseMapping(up) && |words| > 1
    ensures
      Upper(up, Join(" ", words[..|words| - 1])) + " " + Upper(up, words[|words| - 1]) == Upper(up, Join(" ", words))
  {
    var init, last := words[..|words| - 1], words[|words| - 1];
    assert words == init + [last];
    JoinSnoc(" ", init, last);
    UpperSpecial(up, " ");
    UpperAppend(up, Join(" ", init) + " ", last);
    UpperAppend(up, Join(" ", init), " ");
  }

  /** The three parts of a reprinted record, none of which contains a comma. */
  lemma {:induction false} ReprintCompose(up: char -> string, first: string, second: string, t: string)
    requires CaseMapping(up) && |Words(t)| > 1
    requires Commaless(Upper(up, first)) && Commaless(Upper(up, second)) && Commaless(Upper(up, t))
    ensures
      var p1, p2 := " " + Upper(up, second), " " + Upper(up, Join(" ", Words(t)));
      && Reprint(Compose(up, first, second, Words(t))) == Upper(up, first) + "," + p1 + "," + p2
      && Commaless(p1) && Commaless(p2)
  {
    var a, again := Compose(up, first, second, Words(t)), Upper(up, Join(" ", Words(t)));
    StateAndPostal(up, Words(t));
    ReprintParts(a.line1, a.city, a.state, a.postalCode);
    UpperKeepsClasses(up, t);
    WordsCommaless(t);
    UpperKeepsClasses(up, Join(" ", Words(t)));
    ClassesAppend(" ", Upper(up, second));
    ClassesAppend(" ", again);
  }

  lemma {:induction false} ComposeReparses(up: char -> string, first: string, second: string, t: string)
    requires CaseMapping(up) && Trimmed(first) && Trimmed(second) && Trimmed(t) && |Words(t)| > 1
    requires Commaless(Upper(up, first)) && Commaless(Upper(up, second)) && Commaless(Upper(up, t))
    ensures
      var a := Compose(up, first, second, Words(t));
      Normalized(up, Reprint(a)) == a
  {
    var p0, p1, p2 := Upper(up, first), " " + Upper(up, second), " " + Upper(up, Join(" ", Words(t)));
    ReprintCompose(up, first, second, t);
    ThreeParts(up, p0, p1, p2);
    UpperWordsSplitBack(up, t);
    UpperTrimmed(up, first);
    UpperTrimmed(up, second);
    ComposeUpper(up, first, second, Words(t));
  }

  lemma {:induction false} ReprintParts(line1: string, city: string, state: string, postalCode: string)
    ensures line1 + ", " + city + ", " + state + " " + postalCode ==
            line1 + "," + (" " + city) + "," + (" " + (state + " " + postalCode))
  {
    assert ", " == "," + " ";
  }

  /** The reparse round trip: the parts of every valid record, printed in the input's form,
      normalize to the same record, multi-word states included. */
  lemma {:induction false} ReparseRoundTrip(up: char -> string, raw: string)
    requires CaseMapping(up) && Normalized(up, raw).valid
    ensures Normalized(up, Reprint(Normalized(up, raw))) == Normalized(up, raw)
  {
    var parts := SplitCommas(raw);
    CommalessParts(up, raw);
    SplitTrimmed(Trim(parts[2]));
    ComposeReparses(up, Trim(parts[0]), Trim(parts[1]), Trim(parts[2]));
  }

  // ---- printing ----

  /** Each piece after the first without its separator space. */
  function DropSpaces(ps: seq<string>): seq<string> {
    seq(|ps|, i requires 0 <= i < |ps| => if i == 0 || ps[i] == [] then ps[i] else ps[i][1..])
  }

  lemma {:induction false} PiecesOfPrintedPair(first: string, rest: string)
    requires Commaless(first)
    ensures Pieces(first + ", " + rest) == [first] + [" " + Pieces(rest)[0]] + Pieces(rest)[1..]
  {
    var spaced := " " + rest;
    assert first + ", " + rest == first + "," + spaced;
    PiecesCommaless(first);
    PiecesComma(first, spaced);
    PiecesPrepend(" ", rest);
  }

  /** The pieces of a printed list: the first, and the others behind a space. */
  lemma {:induction false} PiecesOfPrinted(fields: seq<string>)
    requires fields != []
    requires forall i :: 0 <= i < |fields| ==> Commaless(fields[i])
    ensures |Pieces(Join(", ", fields))| == |fields|
    ensures forall i :: 0 <= i < |fields| ==>
              Pieces(Join(", ", fields))[i] == if i == 0 then fields[0] else " " + fields[i]
  {
    PiecesCommaless(fields[0]);
    if |fields| > 1 {
      var tail := fields[1..];
      PiecesOfPrinted(tail);
      PiecesOfPrintedPair(fields[0], Join(", ", tail));
      forall i | 0 < i < |fields|
        ensures Pieces(Join(", ", fields))[i] == " " + tail[i - 1]
      {
        assert i > 1 ==> Pieces(Join(", ", fields))[i] == Pieces(Join(", ", tail))[i - 1];
      }
    }
  }

  /** Splitting a printed list at its commas and dropping the space after each gives it back. */
  lemma {:induction false} PrintedListSplitsBack(fields: seq<string>)
    requires |fields| > 1 && fields[|fields| - 1] != []
    requires forall i :: 0 <= i < |fields| ==> Commaless(fields[i])
    ensures DropSpaces(SplitCommas(Join(", ", fields))) == fields
  {
    var printed := Join(", ", fields);
    PiecesOfPrinted(fields);
    assert printed[|fields[0]|] == ',';
    assert SplitCommas(printed) == Pieces(printed);
    forall i | 0 < i < |fields|
      ensures (" " + fields[i])[1..] == fields[i]
    {
    }
  }

  /** The printed address, literally. */
  lemma {:induction false} PrintedText(up: char -> string, raw: string)
    requires !IsBlank(raw) && |SplitCommas(raw)| >= 3
    ensures
      var a := Normalized(up, raw);
      a.normalizedAddress ==
      a.line1 + ", " + a.city
      + (if IsBlank(a.state) then "" else ", " + a.state)
      + (if IsBlank(a.postalCode) then "" else ", " + a.postalCode)
      + ", US"
  {
    var a := Normalized(up, raw);
    PrintedFields(a.line1, a.city, a.state, a.postalCode);
  }

  lemma {:induction false} PrintedFields(line1: string, city: string, state: string, postalCode: string)
    ensures Join(", ", Fields(line1, city, state, postalCode)) ==
            line1 + ", " + city
            + (if IsBlank(state) then "" else ", " + state)
            + (if IsBlank(postalCode) then "" else ", " + postalCode)
            + ", US"
  {
    var stated := [line1, city] + if IsBlank(state) then [] else [state];
    var coded := stated + if IsBlank(postalCode) then [] else [postalCode];
    JoinMore([line1, city], state, IsBlank(state));
    JoinMore(stated, postalCode, IsBlank(postalCode));
    JoinSnoc(", ", coded, "US");
    assert [line1, city][1..] == [city];
    assert Fields(line1, city, state, postalCode) == coded + ["US"];
  }

  lemma {:induction false} JoinMore(fields: seq<string>, field: string, skip: bool)
    requires fields != []
    ensures Join(", ", fields + if skip then [] else [field]) ==
            Join(", ", fields) + if skip then "" else ", " + field
  {
    if skip {
      assert fields + [] == fields;
    } else {
      JoinSnoc(", ", fields, field);
      assert Join(", ", fields) + ", " + field == Join(", ", fields) + (", " + field);
    }
  }

  /** The record in its three cases: nothing at all for a blank input; the whole trimmed text
      with fewer than three parts; else the first two parts, with the last word of the third
      as postal code and the words before it as state. */
  lemma {:induction false} RecordOf(up: char -> string, raw: string)
    ensures IsBlank(raw) ==> Normalized(up, raw) == Address("", "", "", "", "", "", false)
    ensures
      var text := Upper(up, Trim(raw));
      !IsBlank(raw) && |SplitCommas(raw)| < 3 ==> Normalized(up, raw) == Address(text, text, "", "", "", "", false)
    ensures
      !IsBlank(raw) && |SplitCommas(raw)| >= 3 ==>
        var a, parts := Normalized(up, raw), SplitCommas(raw);
        var words := Words(Trim(parts[2]));
        && a.line1 == Upper(up, Trim(parts[0])) && a.city == Upper(up, Trim(parts[1])) && a.country == "US"
        && a.postalCode == Upper(up, words[|words| - 1])
        && a.state == if |words| == 1 then "" else Upper(up, Join(" ", words[..|words| - 1]))
  {
    if |SplitCommas(raw)| >= 3 {
      TrimShape(SplitCommas(raw)[2]);
      SplitTrimmed(Trim(SplitCommas(raw)[2]));
    }
  }

  /** Two parts and some words, printed with commas and spaces, are read as first line, city,
      state and postal code. */
  lemma {:induction false} WordsAreRead(up: char -> string, first: string, second: string, words: seq<string>)
    requires Commaless(first) && Commaless(second) && words != []
    requires forall i :: 0 <= i < |words| ==>
               words[i] != [] && Spaceless(words[i]) && AllGraphic(words[i]) && Commaless(words[i])
    ensures
      var a := Normalized(up, first + "," + second + "," + Join(" ", words));
      && a.line1 == Upper(up, Trim(first)) && a.city == Upper(up, Trim(second)) && a.country == "US"
      && a.postalCode == Upper(up, words[|words| - 1])
      && a.state == if |words| == 1 then "" else Upper(up, Join(" ", words[..|words| - 1]))
  {
    var third := Join(" ", words);
    WordsJoin(words);
    JoinEnds(words);
    JoinCommaless(words);
    TrimFixed(third);
    SplitTrimmed(third);
    ThreeParts(up, first, second, third);
  }

  /** Nothing in the word can be trimmed. */
  predicate AllGraphic(word: string) { forall i :: 0 <= i < |word| ==> !Trimmable(word[i]) }

  lemma {:induction false} StateCommaless(up: char -> string, t: string)
    requires CaseMapping(up) && Commaless(Upper(up, t))
    ensures
      var words := Words(t);
      Commaless(Upper(up, words[|words| - 1])) && Commaless(Upper(up, Join(" ", words[..|words| - 1])))
  {
    var words := Words(t);
    var init, last := words[..|words| - 1], words[|words| - 1];
    assert Commaless(t) by { UpperKeepsClasses(up, t); }
    assert forall i :: 0 <= i < |words| ==> Commaless(words[i]) by { WordsOfCommaless(t); }
    JoinCommaless(init);
    UpperKeepsClasses(up, last);
    UpperKeepsClasses(up, Join(" ", init));
  }

  lemma {:induction false} ComposeCommaless(up: char -> string, first: string, second: string, t: string)
    requires CaseMapping(up)
    requires Commaless(Upper(up, first)) && Commaless(Upper(up, second)) && Commaless(Upper(up, t))
    ensures
      var a := Compose(up, first, second, Words(t));
      Commaless(a.line1) && Commaless(a.city) && Commaless(a.state) && Commaless(a.postalCode)
  {
    StateCommaless(up, t);
  }

  lemma {:induction false} FieldsSplitBack(line1: string, city: string, state: string, postalCode: string)
    requires Commaless(line1) && Commaless(city) && Commaless(state) && Commaless(postalCode)
    ensures DropSpaces(SplitCommas(Join(", ", Fields(line1, city, state, postalCode)))) ==
            Fields(line1, city, state, postalCode)
    ensures |Fields(line1, city, state, postalCode)| == 5 <==> !IsBlank(state) && !IsBlank(postalCode)
  {
    PrintedListSplitsBack(Fields(line1, city, state, postalCode));
  }

  /** For every non-blank input of at least three parts, the printed address splits back into
      the fields of the record, and the record is valid exactly when there are five of them,
      the first two not blank. */
  lemma {:induction false} PrintedAddressSplitsBack(up: char -> string, raw: string)
    requires CaseMapping(up) && !IsBlank(raw) && |SplitCommas(raw)| >= 3
    ensures
      var a := Normalized(up, raw);
      var fields := DropSpaces(SplitCommas(a.normalizedAddress));
      && fields == Fields(a.line1, a.city, a.state, a.postalCode)
      && |fields| == 3 + (if IsBlank(a.state) then 0 else 1) + (if IsBlank(a.postalCode) then 0 else 1)
      && fields[0] == a.line1 && fields[1] == a.city && fields[|fields| - 1] == "US"
      && (!IsBlank(a.state) ==> fields[2] == a.state)
      && (!IsBlank(a.postalCode) ==> fields[|fields| - 2] == a.postalCode)
      && (a.valid <==> |fields| == 5 && !IsBlank(fields[0]) && !IsBlank(fields[1]))
  {
    var a := Normalized(up, raw);
    var parts := SplitCommas(raw);
    CommalessParts(up, raw);
    SplitTrimmed(Trim(parts[2]));
    ComposeCommaless(up, Trim(parts[0]), Trim(parts[1]), Trim(parts[2]));
    FieldsSplitBack(a.line1, a.city, a.state, a.postalCode);
  }
}
