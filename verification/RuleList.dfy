/** The parser of a subscriber's rule list: lines `name TAB rest LF`, where a rest of 19 characters
    is the time at which the list has to be refreshed. */
module RuleList {
  import opened Common

  const TAB := 9 as char
  const LF := 10 as char
  const DATE_LENGTH := 19

  /** Position of the first `c` at or after `from`. */
  function Find(s: string, c: char, from: nat): (r: Option<nat>)
    requires from <= |s|
    ensures r.Some? ==> from <= r.value < |s| && s[r.value] == c && c !in s[from..r.value]
    ensures r.None? ==> c !in s[from..]
    decreases |s| - from
  {
    if from == |s| then None
    else if s[from] == c then Some(from)
    else
      var r := Find(s, c, from + 1);
      assert s[from..] == [s[from]] + s[from + 1..];
      assert r.Some? ==> s[from..r.value] == [s[from]] + s[from + 1..r.value];
      r
  }

  /** What a list text yields: the rule names, and the refresh times still as text. */
  datatype Parsed = Parsed(names: seq<string>, dates: seq<string>)

  const NOTHING := Parsed([], [])

  function Append(a: Parsed, b: Parsed): Parsed {
    Parsed(a.names + b.names, a.dates + b.dates)
  }

  function RowResult(row: string): Parsed {
    match Find(row, TAB, 0)
    case None => NOTHING
    case Some(end) =>
      if end == 0 then NOTHING
      else Parsed([row[..end]], if |row| - (end + 1) == DATE_LENGTH then [row[end + 1..]] else [])
  }

  function RowsResult(rows: seq<string>): Parsed {
    if rows == [] then NOTHING else Append(RowResult(rows[0]), RowsResult(rows[1..]))
  }

  /** The terminated lines of a text; whatever follows the last LF is not one. */
  function Lines(text: string): seq<string>
    decreases |text|
  {
    match Find(text, LF, 0)
    case None => []
    case Some(end) => [text[..end]] + Lines(text[end + 1..])
  }

  method ParseRow(row: string, acc: Parsed) returns (r: Parsed)
    ensures r == Append(acc, RowResult(row))
  {
    var end := Find(row, TAB, 0);
    if end.None? || end.value == 0 {
      assert acc.names + [] == acc.names && acc.dates + [] == acc.dates;
      return acc;
    }
    r := acc.(names := acc.names + [row[..end.value]]);
    if |row| - (end.value + 1) == DATE_LENGTH {
      r := r.(dates := r.dates + [row[end.value + 1..]]);
    } else {
      assert acc.dates + [] == acc.dates;
    }
  }

  method ParseList(text: string, acc: Parsed) returns (r: Parsed)
    ensures r == Append(acc, RowsResult(Lines(text)))
  {
    hide Append, RowsResult, Lines;
    r := acc;
    var begin := 0;
    var end := Find(text, LF, begin);
    assert text[0..] == text;
    while end.Some?
      invariant begin <= |text|
      invariant end == Find(text, LF, begin)
      invariant Append(r, RowsResult(Lines(text[begin..]))) == Append(acc, RowsResult(Lines(text)))
      decreases |text| - begin
    {
      LineStep(text, begin);
      TakeRow(r, text[begin..end.value], Lines(text[end.value + 1..]));
      r := ParseRow(text[begin..end.value], r);
      begin := end.value + 1;
      end := Find(text, LF, begin);
    }
    NoLine(text, begin);
    TakeNothing(r);
  }

  lemma TakeRow(acc: Parsed, row: string, rows: seq<string>)
    ensures Append(acc, RowsResult([row] + rows)) == Append(Append(acc, RowResult(row)), RowsResult(rows))
  {
    assert ([row] + rows)[1..] == rows;
    AppendAssociates(acc, RowResult(row), RowsResult(rows));
  }

  lemma TakeNothing(acc: Parsed)
    ensures Append(acc, RowsResult([])) == acc
  {
  }

  lemma AppendAssociates(a: Parsed, b: Parsed, c: Parsed)
    ensures Append(Append(a, b), c) == Append(a, Append(b, c))
  {
  }

  lemma {:induction false} FindShift(s: string, c: char, from: nat, k: nat)
    requires from + k <= |s|
    ensures Find(s[from..], c, k) == (match Find(s, c, from + k)
                                      case None => None
                                      case Some(i) => Some(i - from))
    decreases |s| - from - k
  {
    if from + k == |s| || s[from + k] == c {
    } else {
      FindShift(s, c, from, k + 1);
    }
  }

  lemma LineStep(text: string, begin: nat)
    requires begin <= |text| && Find(text, LF, begin).Some?
    ensures var end := Find(text, LF, begin).value;
            Lines(text[begin..]) == [text[begin..end]] + Lines(text[end + 1..])
  {
    FindShift(text, LF, begin, 0);
    var end := Find(text, LF, begin).value;
    assert text[begin..][..end - begin] == text[begin..end];
    assert text[begin..][end - begin + 1..] == text[end + 1..];
  }

  lemma NoLine(text: string, begin: nat)
    requires begin <= |text| && Find(text, LF, begin).None?
    ensures Lines(text[begin..]) == []
  {
    FindShift(text, LF, begin, 0);
  }

  // ----- What the parser accepts

  ghost predicate NameOk(name: string) {
    name != "" && '\t' !in name
  }

  lemma FindFirst(s: string, c: char, i: nat)
    requires i < |s| && s[i] == c && c !in s[..i]
    ensures Find(s, c, 0) == Some(i)
  {
    assert s[0..] == s;
  }

  /** A row yields a name exactly when it starts with that name, non-empty and without TAB, and a
      TAB; it yields a refresh time exactly when 19 characters follow. */
  lemma RowAccepted(row: string, name: string)
    ensures RowResult(row).names == [name] <==>
            NameOk(name) && |row| > |name| && row[..|name|] == name && row[|name|] == '\t'
    ensures RowResult(row).names == [name] ==>
            RowResult(row).dates == if |row| == |name| + 1 + 19 then [row[|name| + 1..]] else []
    ensures |RowResult(row).names| <= 1
    ensures RowResult(row).names == [] ==> RowResult(row).dates == []
  {
    if NameOk(name) && |row| > |name| && row[..|name|] == name && row[|name|] == TAB {
      FindFirst(row, TAB, |name|);
    }
    var end := Find(row, TAB, 0);
    if end.Some? {
      assert row[0..end.value] == row[..end.value];
    }
  }

  /** No text yields an empty name. */
  lemma {:induction false} NamesAreNotEmpty(rows: seq<string>)
    ensures "" !in RowsResult(rows).names
  {
    if rows == [] {
    } else {
      NamesAreNotEmpty(rows[1..]);
      var end := Find(rows[0], TAB, 0);
      assert end.Some? && end.value > 0 ==> rows[0][..end.value] != "";
    }
  }

  // ----- Texts made of rows

  function Join(rows: seq<string>): string {
    if rows == [] then "" else rows[0] + "\n" + Join(rows[1..])
  }

  ghost predicate LineFree(s: string) {
    '\n' !in s
  }

  /** Splitting undoes joining, whatever unterminated tail follows. */
  lemma {:induction false} LinesOfJoin(rows: seq<string>, tail: string)
    requires (forall r | r in rows :: LineFree(r)) && LineFree(tail)
    ensures Lines(Join(rows) + tail) == rows
  {
    var text := Join(rows) + tail;
    if rows == [] {
      assert text == tail;
      assert text[0..] == text;
    } else {
      var n := |rows[0]|;
      assert text == rows[0] + ([LF] + Join(rows[1..]) + tail);
      assert text[..n] == rows[0] && rows[0] in rows;
      FindFirst(text, LF, n);
      assert text[n + 1..] == Join(rows[1..]) + tail;
      LinesOfJoin(rows[1..], tail);
    }
  }

  /** What follows the last LF. */
  function Tail(text: string): string
    decreases |text|
  {
    match Find(text, LF, 0)
    case None => text
    case Some(end) => Tail(text[end + 1..])
  }

  /** Every text is its terminated lines and an unterminated tail, so the lemmas about joined rows
      cover all inputs. */
  lemma {:induction false} JoinOfLines(text: string)
    ensures LineFree(Tail(text)) && text == Join(Lines(text)) + Tail(text)
    ensures forall r | r in Lines(text) :: LineFree(r)
    decreases |text|
  {
    match Find(text, LF, 0)
    case None =>
      assert text[0..] == text;
    case Some(end) =>
      JoinOfLines(text[end + 1..]);
      assert text[0..end] == text[..end];
      CutAtLine(text, end, Join(Lines(text[end + 1..])), Tail(text));
      assert Lines(text)[1..] == Lines(text[end + 1..]);
  }

  lemma CutAtLine(text: string, end: nat, joined: string, tail: string)
    requires end < |text| && text[end] == LF && text[end + 1..] == joined + tail
    ensures text == text[..end] + [LF] + joined + tail
  {
    assert text == text[..end] + ([LF] + text[end + 1..]);
  }

  datatype Row = Row(name: string, rest: string)

  function RowText(r: Row): string {
    r.name + "\t" + r.rest
  }

  function Texts(rows: seq<Row>): seq<string> {
    seq(|rows|, i requires 0 <= i < |rows| => RowText(rows[i]))
  }

  function NamesOf(rows: seq<Row>): seq<string> {
    seq(|rows|, i requires 0 <= i < |rows| => rows[i].name)
  }

  function DatesOf(rows: seq<Row>): seq<string> {
    if rows == [] then []
    else (if |rows[0].rest| == 19 then [rows[0].rest] else []) + DatesOf(rows[1..])
  }

  lemma {:induction false} ResultOfRows(rows: seq<Row>)
    requires forall r | r in rows :: NameOk(r.name)
    ensures RowsResult(Texts(rows)) == Parsed(NamesOf(rows), DatesOf(rows))
  {
    if rows == [] {
    } else {
      var text := RowText(rows[0]);
      RowAccepted(text, rows[0].name);
      assert text[|rows[0].name| + 1..] == rows[0].rest;
      assert Texts(rows)[1..] == Texts(rows[1..]);
      ResultOfRows(rows[1..]);
      assert NamesOf(rows) == [rows[0].name] + NamesOf(rows[1..]);
    }
  }

  /** Round trip: rendering well-formed rows and parsing the text gives back exactly the names and
      the refresh times, in order, and an unterminated tail changes nothing. */
  lemma ParseOfRender(rows: seq<Row>, tail: string)
    requires forall r | r in rows :: NameOk(r.name) && LineFree(r.name) && LineFree(r.rest)
    requires LineFree(tail)
    ensures RowsResult(Lines(Join(Texts(rows)) + tail)) == Parsed(NamesOf(rows), DatesOf(rows))
  {
    forall r | r in Texts(rows) ensures LineFree(r) {
      var i :| 0 <= i < |rows| && r == RowText(rows[i]);
      assert rows[i] in rows;
    }
    LinesOfJoin(Texts(rows), tail);
    ResultOfRows(rows);
  }

  lemma {:induction false} RowsResultConcat(a: seq<string>, b: seq<string>)
    ensures RowsResult(a + b) == Append(RowsResult(a), RowsResult(b))
  {
    if a == [] {
      assert a + b == b;
    } else {
      assert (a + b)[1..] == a[1..] + b;
      RowsResultConcat(a[1..], b);
      AppendAssociates(RowResult(a[0]), RowsResult(a[1..]), RowsResult(b));
    }
  }

  /** A malformed row is skipped without disturbing the rows around it. */
  lemma MalformedRowIsSkipped(before: seq<string>, bad: string, after: seq<string>, tail: string)
    requires (forall r | r in before + [bad] + after :: LineFree(r)) && LineFree(tail)
    requires '\t' !in bad || bad[0] == '\t'
    ensures RowsResult(Lines(Join(before + [bad] + after) + tail))
         == RowsResult(Lines(Join(before + after) + tail))
  {
    LinesOfJoin(before + [bad] + after, tail);
    LinesOfJoin(before + after, tail);
    RowsResultConcat(before + [bad], after);
    RowsResultConcat(before, [bad]);
    RowsResultConcat(before, after);
    assert bad[0..] == bad;
    if TAB in bad {
      FindFirst(bad, TAB, 0);
    }
    assert RowsResult([bad]) == NOTHING;
    assert Append(RowsResult(before), NOTHING) == RowsResult(before);
  }
}
