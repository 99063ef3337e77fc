/**
 * CSV ingestion of the flood-control dataset (`fetchCsvProjects` in
 * src/services/sumbong.js): the character-level CSV parser, header-name
 * lookup, the row-to-record mapping with its fallbacks, and the six-hour
 * cache test.
 */
module Sumbong {
  import opened Wrappers
  import opened Text
  import opened Seqs

  type Row = seq<string>

  /** The parser's local variables between two characters: `rows`, `cur`, `cell`, `inQuotes`. */
  datatype Scan = Scan(rows: seq<Row>, cur: Row, cell: string, inQuotes: bool)

  const Start := Scan([], [], "", false)

  /** A line break outside quotes: a row with content is pushed; an empty one is dropped. */
  function EndRow(st: Scan): Scan {
    if st.cell != "" || |st.cur| > 0
    then st.(rows := st.rows + [st.cur + [st.cell]], cur := [], cell := "")
    else st
  }

  /**
   * The parser's loop run over the remaining text `s` from state `st`.
   * A quote inside quotes followed by a quote is one literal quote; any other
   * quote toggles quoting; outside quotes a comma ends the cell and CR, LF or
   * CRLF end the row; everything else is appended to the cell.
   */
  function Feed(s: string, st: Scan): Scan
    decreases |s|
  {
    if s == [] then st
    else if s[0] == '"' then
      if st.inQuotes && |s| > 1 && s[1] == '"' then Feed(s[2..], st.(cell := st.cell + ['"']))
      else Feed(s[1..], st.(inQuotes := !st.inQuotes))
    else if s[0] == ',' && !st.inQuotes then
      Feed(s[1..], st.(cur := st.cur + [st.cell], cell := ""))
    else if (s[0] == '\n' || s[0] == '\r') && !st.inQuotes then
      if s[0] == '\r' && |s| > 1 && s[1] == '\n' then Feed(s[2..], EndRow(st)) else Feed(s[1..], EndRow(st))
    else
      Feed(s[1..], st.(cell := st.cell + [s[0]]))
  }

  /** After the last character: trailing content becomes a final row. */
  function Flush(st: Scan): seq<Row> {
    if st.cell != "" || |st.cur| > 0 then st.rows + [st.cur + [st.cell]] else st.rows
  }

  /** What `parseCsv(t)` returns. */
  function ParseRows(t: string): seq<Row> {
    Flush(Feed(t, Start))
  }

  /** `parseCsv`: the index loop with its one-character look-ahead skips. */
  method ParseCsv(t: string) returns (rows: seq<Row>)
    ensures rows == ParseRows(t)
    ensures forall r :: r in rows ==> |r| >= 1
  {
    rows := [];
    var cur: Row := [];
    var cell: string := "";
    var inQuotes := false;
    var i := 0;
    while i < |t|
      invariant 0 <= i <= |t|
      invariant Flush(Feed(t[i..], Scan(rows, cur, cell, inQuotes))) == ParseRows(t)
    {
      ghost var s := t[i..];
      ghost var st := Scan(rows, cur, cell, inQuotes);
      assert s[0] == t[i] && s[1..] == t[i + 1..];
      assert |s| > 1 ==> s[1] == t[i + 1] && s[2..] == t[i + 2..];
      var ch := t[i];
      if ch == '"' {
        if inQuotes && i + 1 < |t| && t[i + 1] == '"' {
          cell := cell + ['"'];
          i := i + 1;
        } else {
          inQuotes := !inQuotes;
        }
      } else if ch == ',' && !inQuotes {
        cur := cur + [cell];
        cell := "";
      } else if (ch == '\n' || ch == '\r') && !inQuotes {
        if cell != "" || |cur| > 0 {
          cur := cur + [cell];
          rows := rows + [cur];
          cur := [];
          cell := "";
        }
        if ch == '\r' && i + 1 < |t| && t[i + 1] == '\n' {
          i := i + 1;
        }
      } else {
        cell := cell + [ch];
      }
      i := i + 1;
    }
    if cell != "" || |cur| > 0 {
      cur := cur + [cell];
      rows := rows + [cur];
    }
    ParsedRowsNonEmpty(t);
  }

  /** No emitted row is empty: the states the loop goes through keep every row non-empty. */
  lemma {:induction false} FeedRowsNonEmpty(s: string, st: Scan)
    requires forall r :: r in st.rows ==> |r| >= 1
    ensures forall r :: r in Feed(s, st).rows ==> |r| >= 1
    decreases |s|
  {
    if s == [] {
    } else if s[0] == '"' {
      if st.inQuotes && |s| > 1 && s[1] == '"' {
        FeedRowsNonEmpty(s[2..], st.(cell := st.cell + ['"']));
      } else {
        FeedRowsNonEmpty(s[1..], st.(inQuotes := !st.inQuotes));
      }
    } else if s[0] == ',' && !st.inQuotes {
      FeedRowsNonEmpty(s[1..], st.(cur := st.cur + [st.cell], cell := ""));
    } else if (s[0] == '\n' || s[0] == '\r') && !st.inQuotes {
      var st' := EndRow(st);
      if s[0] == '\r' && |s| > 1 && s[1] == '\n' {
        FeedRowsNonEmpty(s[2..], st');
      } else {
        FeedRowsNonEmpty(s[1..], st');
      }
    } else {
      FeedRowsNonEmpty(s[1..], st.(cell := st.cell + [s[0]]));
    }
  }

  /** Every row `parseCsv` returns has at least one cell. */
  lemma ParsedRowsNonEmpty(t: string)
    ensures forall r :: r in ParseRows(t) ==> |r| >= 1
  {
    FeedRowsNonEmpty(t, Start);
  }

  /** Empty text gives no rows. */
  lemma ParseEmpty()
    ensures ParseRows("") == []
  {
  }

  /** Outside quotes, CRLF is one line break, exactly like LF. */
  lemma CrLfIsOneBreak(s: string, st: Scan)
    requires !st.inQuotes
    ensures Feed("\r\n" + s, st) == Feed("\n" + s, st)
  {
    assert ("\r\n" + s)[2..] == s;
    assert ("\n" + s)[1..] == s;
  }

  /** A line break where the row has no content is skipped: blank lines produce no row. */
  lemma BlankLineSkipped(s: string, rows: seq<Row>)
    ensures Feed("\n" + s, Scan(rows, [], "", false)) == Feed(s, Scan(rows, [], "", false))
  {
    assert ("\n" + s)[1..] == s;
  }

  // ---------------------------------------------------------------------------
  // Round trip: text written with RFC 4180 quoting reads back as the same rows.

  /** Inside a quoted field a quote is written twice. */
  function Escape(f: string): (e: string)
    ensures |e| >= |f|
  {
    if f == [] then []
    else (if f[0] == '"' then "\"\"" else [f[0]]) + Escape(f[1..])
  }

  /** A field wrapped in quotes, with its own quotes doubled. */
  function Quote(f: string): string {
    "\"" + Escape(f) + "\""
  }

  /** The quoted fields of one row separated by commas. */
  function JoinFields(r: Row): string
    requires |r| >= 1
    decreases |r|
  {
    if |r| == 1 then Quote(r[0]) else Quote(r[0]) + "," + JoinFields(r[1..])
  }

  /** Rows written one per line, each ended by LF. */
  function EncodeTable(rows: seq<Row>): string
    requires forall r :: r in rows ==> |r| >= 1
  {
    if rows == [] then [] else JoinFields(rows[0]) + "\n" + EncodeTable(rows[1..])
  }

  // One step of `Feed` each, stated on an arbitrary text so that the proofs
  // below never unfold `Feed` on a concatenation.

  lemma StepToggle(s: string, st: Scan)
    requires s != [] && s[0] == '"' && !(st.inQuotes && |s| > 1 && s[1] == '"')
    ensures Feed(s, st) == Feed(s[1..], st.(inQuotes := !st.inQuotes))
  {
  }

  lemma StepDoubledQuote(s: string, st: Scan)
    requires |s| > 1 && s[0] == '"' && s[1] == '"' && st.inQuotes
    ensures Feed(s, st) == Feed(s[2..], st.(cell := st.cell + ['"']))
  {
  }

  lemma StepQuotedChar(s: string, st: Scan)
    requires s != [] && s[0] != '"' && st.inQuotes
    ensures Feed(s, st) == Feed(s[1..], st.(cell := st.cell + [s[0]]))
  {
  }

  lemma StepComma(s: string, st: Scan)
    requires s != [] && s[0] == ',' && !st.inQuotes
    ensures Feed(s, st) == Feed(s[1..], st.(cur := st.cur + [st.cell], cell := ""))
  {
  }

  lemma StepLineFeed(s: string, st: Scan)
    requires s != [] && s[0] == '\n' && !st.inQuotes
    ensures Feed(s, st) == Feed(s[1..], EndRow(st))
  {
  }

  /** Inside quotes, the escaped text of a field and its closing quote read back as the field. */
  lemma {:induction false} EscapedReadsBack(f: string, rest: string, st: Scan)
    requires st.inQuotes
    requires rest == [] || rest[0] != '"'
    ensures Feed(Escape(f) + "\"" + rest, st) == Feed(rest, st.(cell := st.cell + f, inQuotes := false))
    decreases |f|
  {
    var s := Escape(f) + "\"" + rest;
    if f == [] {
      assert s == "\"" + rest;
      assert s[1..] == rest;
      StepToggle(s, st);
      assert st.cell + f == st.cell;
    } else {
      var inner := Escape(f[1..]) + "\"" + rest;
      if f[0] == '"' {
        assert s == "\"\"" + inner;
        assert s[2..] == inner;
        StepDoubledQuote(s, st);
      } else {
        assert s == [f[0]] + inner;
        assert s[1..] == inner;
        StepQuotedChar(s, st);
      }
      EscapedReadsBack(f[1..], rest, st.(cell := st.cell + [f[0]]));
      assert st.cell + [f[0]] + f[1..] == st.cell + f;
    }
  }

  /** A quoted field, read from the start of a cell, leaves that field in the cell. */
  lemma QuotedReadsBack(f: string, rest: string, st: Scan)
    requires !st.inQuotes && st.cell == ""
    requires rest == [] || rest[0] != '"'
    ensures Feed(Quote(f) + rest, st) == Feed(rest, st.(cell := f))
  {
    var s := Quote(f) + rest;
    var inner := Escape(f) + "\"" + rest;
    assert s == "\"" + inner;
    assert s[1..] == inner;
    StepToggle(s, st);
    EscapedReadsBack(f, rest, st.(inQuotes := true));
    assert "" + f == f;
  }

  /** A written row followed by LF adds exactly that row (appended to what `cur` already held). */
  lemma {:induction false} RowReadsBack(r: Row, rest: string, rows: seq<Row>, cur: Row)
    requires |r| >= 1
    requires |cur| > 0 || r != [""]
    ensures Feed(JoinFields(r) + "\n" + rest, Scan(rows, cur, "", false))
            == Feed(rest, Scan(rows + [cur + r], [], "", false))
    decreases |r|
  {
    var st := Scan(rows, cur, "", false);
    var s := JoinFields(r) + "\n" + rest;
    if |r| == 1 {
      var after := "\n" + rest;
      assert s == Quote(r[0]) + after;
      QuotedReadsBack(r[0], after, st);
      assert after[1..] == rest;
      StepLineFeed(after, st.(cell := r[0]));
      assert cur + [r[0]] == cur + r;
    } else {
      var tail := JoinFields(r[1..]) + "\n" + rest;
      var after := "," + tail;
      assert s == Quote(r[0]) + after;
      QuotedReadsBack(r[0], after, st);
      assert after[1..] == tail;
      StepComma(after, st.(cell := r[0]));
      RowReadsBack(r[1..], rest, rows, cur + [r[0]]);
      assert cur + [r[0]] + r[1..] == cur + r;
    }
  }

  lemma EncodeTableCons(table: seq<Row>, rest: string)
    requires table != [] && forall r :: r in table ==> |r| >= 1
    ensures EncodeTable(table) + rest == JoinFields(table[0]) + "\n" + (EncodeTable(table[1..]) + rest)
  {
  }

  lemma {:induction false} TableReadsBack(table: seq<Row>, rest: string, rows: seq<Row>)
    requires forall r :: r in table ==> |r| >= 1 && r != [""]
    ensures Feed(EncodeTable(table) + rest, Scan(rows, [], "", false))
            == Feed(rest, Scan(rows + table, [], "", false))
    decreases |table|
  {
    if table == [] {
      assert EncodeTable(table) + rest == rest;
      assert rows + table == rows;
    } else {
      var r := table[0];
      assert r in table;
      var tail := EncodeTable(table[1..]) + rest;
      calc {
        Feed(EncodeTable(table) + rest, Scan(rows, [], "", false));
        { EncodeTableCons(table, rest); }
        Feed(JoinFields(r) + "\n" + tail, Scan(rows, [], "", false));
        { RowReadsBack(r, tail, rows, []); assert [] + r == r; }
        Feed(tail, Scan(rows + [r], [], "", false));
        { TableReadsBack(table[1..], rest, rows + [r]); }
        Feed(rest, Scan(rows + [r] + table[1..], [], "", false));
        { assert rows + [r] + table[1..] == rows + table; }
        Feed(rest, Scan(rows + table, [], "", false));
      }
    }
  }

  /**
   * Parsing text written with RFC 4180 quoting gives back the rows, commas,
   * quotes and line breaks in fields included, for every row that has a cell
   * and is not the single empty cell (that one reads as a blank line).
   */
  lemma ParseRoundTrip(table: seq<Row>)
    requires forall r :: r in table ==> |r| >= 1 && r != [""]
    ensures ParseRows(EncodeTable(table)) == table
  {
    TableReadsBack(table, [], []);
    assert EncodeTable(table) + [] == EncodeTable(table);
  }

  /** A row holding one empty field is written as `""` and LF, which reads back as nothing. */
  lemma LoneEmptyFieldVanishes()
    ensures ParseRows(EncodeTable([[""]])) == []
  {
    var s := EncodeTable([[""]]);
    assert s == "\"\"\n";
    assert s[1..] == "\"\n";
    assert s[1..][1..] == "\n";
  }

  // ---------------------------------------------------------------------------
  // Header lookup: `idx` and `get`.

  /** `header.indexOf(name)`: the first position holding `name`, or -1. */
  function IndexOf(header: seq<string>, name: string): (i: int)
    ensures -1 <= i < |header|
    ensures i == -1 <==> name !in header
    ensures 0 <= i ==> header[i] == name && name !in header[..i]
  {
    if header == [] then -1
    else if header[0] == name then 0
    else
      var j := IndexOf(header[1..], name);
      assert header[1..] == header[1..];
      if j == -1 then -1
      else
        assert header[..j + 1] == [header[0]] + header[1..][..j];
        j + 1
  }

  /**
   * `get(row, name)`: the trimmed cell under the first header column called
   * `name`; '' when no column has that name or the row is too short for it.
   */
  function Get(header: seq<string>, row: Row, name: string): (v: string)
    ensures name !in header ==> v == ""
    ensures forall i :: 0 <= i < |header| && header[i] == name && name !in header[..i] ==>
              v == (if i < |row| then Trim(row[i]) else "")
  {
    var i := IndexOf(header, name);
    if i == -1 then "" else if i < |row| then Trim(row[i]) else ""
  }

  /** Only the first of two equally named columns is ever read. */
  lemma GetReadsFirstColumn(header: seq<string>, row: Row, name: string, j: int)
    requires 0 <= j < |header| && header[j] == name
    ensures 0 <= IndexOf(header, name) <= j
    ensures Get(header, row, name)
            == (if IndexOf(header, name) < |row| then Trim(row[IndexOf(header, name)]) else "")
  {
    assert name in header;
    var i := IndexOf(header, name);
    assert forall k :: 0 <= k < i ==> header[..i][k] == header[k];
  }

  // ---------------------------------------------------------------------------
  // Numbers: `parseFloat(costStr.replace(/,/g, '')) || 0`.

  predicate NotComma(c: char) {
    c != ','
  }

  /** `s.replace(/,/g, '')`. */
  function StripCommas(s: string): (r: string)
    ensures forall c :: c in r <==> c in s && c != ','
  {
    Filter(s, NotComma)
  }

  /** Removing the commas of `a + "," + b` joins the two stripped halves. */
  lemma StripCommasSplit(a: string, b: string)
    ensures StripCommas(a + "," + b) == StripCommas(a) + StripCommas(b)
  {
    FilterAppend(a + ",", b, NotComma);
    FilterAppend(a, ",", NotComma);
  }

  /** Length of the run of decimal digits at the start of `s`. */
  function DigitRun(s: string): (n: nat)
    ensures n <= |s|
    ensures forall i :: 0 <= i < n ==> IsDigit(s[i])
    ensures n == |s| || !IsDigit(s[n])
  {
    if s != [] && IsDigit(s[0]) then 1 + DigitRun(s[1..]) else 0
  }

  /** The exponent part `e12`, `E-3`, ... at the start of `w`; 0 when there is none. */
  function ExponentOf(w: string): int {
    if w != [] && (w[0] == 'e' || w[0] == 'E') then
      var x := w[1..];
      var neg := x != [] && x[0] == '-';
      var y := if x != [] && (x[0] == '-' || x[0] == '+') then x[1..] else x;
      var c := DigitRun(y);
      if c == 0 then 0
      else if neg then -(DigitsValue(y[..c]) as int) else DigitsValue(y[..c]) as int
    else 0
  }

  /** `m` times ten to the power `e`. */
  function Scale(m: real, e: int): real
    decreases if e < 0 then -e else e
  {
    if e == 0 then m else if e > 0 then 10.0 * Scale(m, e - 1) else Scale(m, e + 1) / 10.0
  }

  /** The digits after a decimal point, as a fraction: "25" is 0.25. */
  function Fraction(d: string): real {
    if d == [] then 0.0 else (DigitValue(d[0]) as real + Fraction(d[1..])) / 10.0
  }

  /**
   * The longest prefix of `u` of the form digits, optional point and digits,
   * optional exponent; `None` when it has no digit.
   */
  function ParseUnsigned(u: string): Option<real> {
    var a := DigitRun(u);
    if a < |u| && u[a] == '.' then AfterPoint(u[..a], u[a + 1..])
    else if a == 0 then None
    else Some(Scale(DigitsValue(u[..a]) as real, ExponentOf(u[a..])))
  }

  /** The number whose integer digits are `whole` and whose text after the point is `v`. */
  function AfterPoint(whole: string, v: string): Option<real> {
    var b := DigitRun(v);
    if |whole| + b == 0 then None
    else Some(Scale(DigitsValue(whole) as real + Fraction(v[..b]), ExponentOf(v[b..])))
  }

  /**
   * `parseFloat(s)` on the decimal syntax: leading whitespace is skipped, an
   * optional sign is read, then the unsigned number; `None` stands for NaN.
   */
  function ParseFloat(s: string): Option<real> {
    ParseSigned(s[LeadingSpaces(s)..])
  }

  /** An optional sign, then the unsigned number. */
  function ParseSigned(t: string): Option<real> {
    if t != [] && t[0] == '-' then
      match ParseUnsigned(t[1..])
      case None => None
      case Some(m) => Some(-m)
    else if t != [] && t[0] == '+' then ParseUnsigned(t[1..])
    else ParseUnsigned(t)
  }

  /** Text that starts with a digit or a point is read with no whitespace or sign. */
  lemma ParseFloatUnsigned(s: string)
    requires s != [] && (IsDigit(s[0]) || s[0] == '.')
    ensures ParseFloat(s) == ParseUnsigned(s)
  {
    assert LeadingSpaces(s) == 0;
    assert s[0..] == s;
  }

  /** The integer digits end at the point. */
  lemma IntegerPart(u: string, whole: string, v: string)
    requires u == whole + "." + v
    requires forall i :: 0 <= i < |whole| ==> IsDigit(whole[i])
    ensures ParseUnsigned(u) == AfterPoint(whole, v)
  {
    assert forall i :: 0 <= i < |whole| ==> u[i] == whole[i];
    DigitRunExact(u, |whole|);
    assert u[..|whole|] == whole && u[|whole| + 1..] == v;
  }

  /** The fraction digits end where `rest` starts, and without an exponent nothing is scaled. */
  lemma FractionPart(whole: string, v: string, frac: string, rest: string)
    requires v == frac + rest
    requires forall i :: 0 <= i < |frac| ==> IsDigit(frac[i])
    requires |whole| + |frac| > 0
    requires rest == [] || !(IsDigit(rest[0]) || rest[0] == 'e' || rest[0] == 'E')
    ensures AfterPoint(whole, v) == Some(DigitsValue(whole) as real + Fraction(frac))
  {
    assert forall i :: 0 <= i < |frac| ==> v[i] == frac[i];
    assert |frac| == |v| || v[|frac|] == rest[0];
    DigitRunExact(v, |frac|);
    assert v[..|frac|] == frac && v[|frac|..] == rest;
    assert ExponentOf(rest) == 0;
  }

  /** A decimal number with a point, with or without text after it, reads as its value. */
  lemma ParseFloatDecimal(s: string, whole: string, frac: string, rest: string)
    requires s == whole + "." + frac + rest
    requires forall i :: 0 <= i < |whole| ==> IsDigit(whole[i])
    requires forall i :: 0 <= i < |frac| ==> IsDigit(frac[i])
    requires |whole| + |frac| > 0
    requires rest == [] || !(IsDigit(rest[0]) || rest[0] == 'e' || rest[0] == 'E')
    ensures ParseFloat(s) == Some(DigitsValue(whole) as real + Fraction(frac))
  {
    var v := frac + rest;
    calc {
      ParseFloat(s);
      { assert s[0] == (if whole == [] then '.' else whole[0]); ParseFloatUnsigned(s); }
      ParseUnsigned(s);
      { assert s == whole + "." + v; IntegerPart(s, whole, v); }
      AfterPoint(whole, v);
      { FractionPart(whole, v, frac, rest); }
      Some(DigitsValue(whole) as real + Fraction(frac));
    }
  }

  /** An integer written in decimal reads back as itself. */
  lemma ParseFloatNat(n: nat)
    ensures ParseFloat(NatToString(n)) == Some(n as real)
  {
    var s := NatToString(n);
    ParseFloatUnsigned(s);
    DigitRunExact(s, |s|);
    assert s[..|s|] == s;
    assert s[|s|..] == [];
    assert ExponentOf([]) == 0;
    NatToStringRoundTrip(n);
  }

  /** Text with no digit at all is NaN. */
  lemma ParseFloatNoDigits(s: string)
    requires forall i :: 0 <= i < |s| ==> !IsDigit(s[i])
    ensures ParseFloat(s) == None
  {
    var t := s[LeadingSpaces(s)..];
    assert forall i :: 0 <= i < |t| ==> t[i] == s[LeadingSpaces(s) + i];
    if t != [] {
      assert forall i :: 0 <= i < |t[1..]| ==> t[1..][i] == t[i + 1];
      ParseUnsignedNoDigits(t[1..]);
    }
    ParseUnsignedNoDigits(t);
  }

  lemma ParseUnsignedNoDigits(u: string)
    requires forall i :: 0 <= i < |u| ==> !IsDigit(u[i])
    ensures ParseUnsigned(u) == None
  {
    DigitRunExact(u, 0);
    if u != [] && u[0] == '.' {
      assert u[1..][..0] == [];
      assert u[0 + 1..] == u[1..];
      assert u[1..] == [] || u[1..][0] == u[1];
      DigitRunExact(u[1..], 0);
    }
  }

  lemma {:induction false} DigitRunAtLeast(s: string, n: nat)
    requires n <= |s| && forall i :: 0 <= i < n ==> IsDigit(s[i])
    ensures DigitRun(s) >= n
  {
    if n > 0 {
      DigitRunAtLeast(s[1..], n - 1);
    }
  }

  lemma DigitRunExact(s: string, n: nat)
    requires n <= |s| && forall i :: 0 <= i < n ==> IsDigit(s[i])
    requires n == |s| || !IsDigit(s[n])
    ensures DigitRun(s) == n
  {
    DigitRunAtLeast(s, n);
  }

  /** `parseFloat(x) || 0`: NaN and zero both give 0. */
  function NumberOr0(r: Option<real>): (v: real)
    ensures r.None? ==> v == 0.0
    ensures r.Some? ==> v == r.value
  {
    if r.Some? then r.value else 0.0
  }

  /** `a || b` on strings: `a` unless it is empty. */
  function OrElse(a: string, b: string): (r: string)
    ensures a != "" ==> r == a
    ensures a == "" ==> r == b
  {
    if a != "" then a else b
  }

  /**
   * The cost of a row: ContractCost, else ABC, else "0", with its commas
   * removed, read as a number, 0 when that fails. A non-empty but unreadable
   * ContractCost gives 0: ABC is consulted only when ContractCost is empty.
   */
  function CostOf(header: seq<string>, row: Row): (c: real)
    ensures Get(header, row, "ContractCost") == "" && Get(header, row, "ABC") == "" ==> c == 0.0
    ensures Get(header, row, "ContractCost") != ""
            ==> c == NumberOr0(ParseFloat(StripCommas(Get(header, row, "ContractCost"))))
    ensures Get(header, row, "ContractCost") == "" && Get(header, row, "ABC") != ""
            ==> c == NumberOr0(ParseFloat(StripCommas(Get(header, row, "ABC"))))
  {
    var costStr := OrElse(Get(header, row, "ContractCost"), OrElse(Get(header, row, "ABC"), "0"));
    if costStr == "0" then
      assert ParseFloat(StripCommas("0")) == Some(0.0) by {
        ParseFloatNat(0);
        assert StripCommas("0") == "0";
      }
      NumberOr0(ParseFloat(StripCommas(costStr)))
    else
      NumberOr0(ParseFloat(StripCommas(costStr)))
  }

  /** A plain integer contract cost is read exactly. */
  lemma CostOfPlainNumber(header: seq<string>, row: Row, n: nat)
    requires Get(header, row, "ContractCost") == NatToString(n)
    ensures CostOf(header, row) == n as real
  {
    FilterKeepsAll(NatToString(n), NotComma);
    ParseFloatNat(n);
  }

  // ---------------------------------------------------------------------------
  // Rows to records.

  /** One project of the dataset, as the dashboards use it. */
  datatype Project = Project(
    desc: string,
    region: string,
    location: string,
    contractor: string,
    cost: real,
    date: string,
    typeOfWork: string,
    infraYear: string,
    province: string,
    deo: string,
    legislativeDistrict: string,
    latitude: string,
    longitude: string)

  /** `[municipality, province].filter(Boolean).join(', ')`. */
  function JoinLocation(municipality: string, province: string): (r: string)
    ensures municipality != "" && province != "" ==> r == municipality + ", " + province
    ensures municipality == "" ==> r == province
    ensures province == "" ==> r == municipality
  {
    if municipality != "" && province != "" then municipality + ", " + province
    else if municipality != "" then municipality
    else province
  }

  /**
   * The record built from one data row. The completion date (`toDateStr`,
   * which parses dates) is the parameter `dateOf`.
   */
  function MakeRecord(header: seq<string>, row: Row, dateOf: (seq<string>, Row) -> string): Project {
    Project(
      desc := OrElse(Get(header, row, "ProjectComponentDescription"), Get(header, row, "ProjectDescription")),
      region := Get(header, row, "Region"),
      location := JoinLocation(Get(header, row, "Municipality"), Get(header, row, "Province")),
      contractor := Get(header, row, "Contractor"),
      cost := CostOf(header, row),
      date := dateOf(header, row),
      typeOfWork := Get(header, row, "TypeofWork"),
      infraYear := Get(header, row, "InfraYear"),
      province := Get(header, row, "Province"),
      deo := OrElse(Get(header, row, "DistrictEngineeringOffice"), Get(header, row, "ImplementingOffice")),
      legislativeDistrict := Get(header, row, "LegislativeDistrict"),
      latitude := Get(header, row, "Latitude"),
      longitude := Get(header, row, "Longitude"))
  }

  /**
   * Description and DEO fall back to a second column when the first is empty;
   * location and cost are derived as above; the other fields are the cells of
   * their columns.
   */
  lemma RecordFields(header: seq<string>, row: Row, dateOf: (seq<string>, Row) -> string)
    ensures var p := MakeRecord(header, row, dateOf);
      && (Get(header, row, "ProjectComponentDescription") != "" ==> p.desc == Get(header, row, "ProjectComponentDescription"))
      && (Get(header, row, "ProjectComponentDescription") == "" ==> p.desc == Get(header, row, "ProjectDescription"))
      && (Get(header, row, "DistrictEngineeringOffice") != "" ==> p.deo == Get(header, row, "DistrictEngineeringOffice"))
      && (Get(header, row, "DistrictEngineeringOffice") == "" ==> p.deo == Get(header, row, "ImplementingOffice"))
      && p.location == JoinLocation(Get(header, row, "Municipality"), Get(header, row, "Province"))
      && p.cost == CostOf(header, row)
      && p.region == Get(header, row, "Region") && p.contractor == Get(header, row, "Contractor")
      && p.province == Get(header, row, "Province") && p.typeOfWork == Get(header, row, "TypeofWork")
  {
  }

  /** The mapping function `row => ({ ... })` for a given header. */
  function RecordOf(header: seq<string>, dateOf: (seq<string>, Row) -> string): Row -> Project {
    row => MakeRecord(header, row, dateOf)
  }

  predicate HasDesc(p: Project) {
    p.desc != ""
  }

  /** `rows.slice(1).map(...).filter(p => p.desc)`, with the first row as header. */
  function ToRecords(rows: seq<Row>, dateOf: (seq<string>, Row) -> string): (ps: seq<Project>)
    ensures forall p :: p in ps ==> p.desc != ""
    ensures rows == [] ==> ps == []
    ensures rows != [] ==> |ps| <= |rows| - 1
  {
    if rows == [] then [] else Filter(Map(rows[1..], RecordOf(rows[0], dateOf)), HasDesc)
  }

  /**
   * Records follow the row order: a new last row adds its record at the end
   * exactly when its description is non-empty, and the header row never
   * becomes a record.
   */
  lemma ToRecordsSnoc(rows: seq<Row>, row: Row, dateOf: (seq<string>, Row) -> string)
    requires rows != []
    ensures var p := RecordOf(rows[0], dateOf)(row);
      ToRecords(rows + [row], dateOf) == ToRecords(rows, dateOf) + (if p.desc != "" then [p] else [])
  {
    assert (rows + [row])[0] == rows[0];
    assert (rows + [row])[1..] == rows[1..] + [row];
    FilterMapSnoc(rows[1..], row, RecordOf(rows[0], dateOf), HasDesc);
  }

  /** The header row alone gives no records. */
  lemma HeaderOnlyNoRecords(header: Row, dateOf: (seq<string>, Row) -> string)
    ensures ToRecords([header], dateOf) == []
  {
  }

  // ---------------------------------------------------------------------------
  // The loader: cache test, then parse and map.

  /** Six hours, in milliseconds. */
  const CacheTtl: int := 6 * 60 * 60 * 1000

  /** The stored `{ ts, projects }` payload. */
  datatype Cache = Cache(ts: int, projects: seq<Project>)

  /** `Date.now() - parsed.ts < 6 h`. */
  predicate Fresh(now: int, ts: int) {
    now - ts < CacheTtl
  }

  /** Freshness depends only on the time elapsed since the payload was stored. */
  lemma FreshByElapsedTime(now: int, ts: int, d: int)
    ensures Fresh(now + d, ts + d) == Fresh(now, ts)
    ensures Fresh(now, ts) <==> now - ts < 21600000
  {
  }

  /** Once stale, a payload stays stale. */
  lemma StaleStaysStale(now: int, later: int, ts: int)
    requires !Fresh(now, ts) && now <= later
    ensures !Fresh(later, ts)
  {
  }

  /** What `fetchCsvProjects` returns and what it stores. */
  datatype Loaded = Loaded(projects: seq<Project>, stored: Option<Cache>)

  /**
   * `fetchCsvProjects` at time `now`: the stored payload when fresh;
   * otherwise the fetched text (`None` when neither URL answers) parsed and
   * mapped, and stored with time stamp `now`. A failed fetch or a text with no
   * rows gives `[]` and stores nothing.
   */
  function LoadCsvProjects(cached: Option<Cache>, now: int, text: Option<string>,
                           dateOf: (seq<string>, Row) -> string): (r: Loaded)
    ensures cached.Some? && Fresh(now, cached.value.ts) ==> r == Loaded(cached.value.projects, None)
    ensures !(cached.Some? && Fresh(now, cached.value.ts)) && text.None? ==> r == Loaded([], None)
    ensures r.stored.Some? ==> r.stored.value == Cache(now, r.projects)
  {
    if cached.Some? && Fresh(now, cached.value.ts) then Loaded(cached.value.projects, None)
    else if text.None? then Loaded([], None)
    else
      var rows := ParseRows(text.value);
      if rows == [] then Loaded([], None)
      else
        var projects := ToRecords(rows, dateOf);
        Loaded(projects, Some(Cache(now, projects)))
  }

  /** Without a fresh payload, a fetched text yields exactly its records, every one with a description. */
  lemma LoadFetchedText(cached: Option<Cache>, now: int, text: string, dateOf: (seq<string>, Row) -> string)
    requires !(cached.Some? && Fresh(now, cached.value.ts))
    ensures LoadCsvProjects(cached, now, Some(text), dateOf).projects == ToRecords(ParseRows(text), dateOf)
    ensures forall p :: p in LoadCsvProjects(cached, now, Some(text), dateOf).projects ==> p.desc != ""
  {
  }

  /** An empty download gives `[]` and nothing is cached. */
  lemma LoadEmptyText(cached: Option<Cache>, now: int, dateOf: (seq<string>, Row) -> string)
    requires !(cached.Some? && Fresh(now, cached.value.ts))
    ensures LoadCsvProjects(cached, now, Some(""), dateOf) == Loaded([], None)
  {
    ParseEmpty();
  }
}
