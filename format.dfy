/** Text rendering used when rows and run numbers are written out: the decimal
    form that Python's str() gives an integer, and the tab-separated row layout
    of the numeric data files. Each renderer has a parser beside it and a lemma
    that parsing undoes rendering. */
module Format {

  /** One numeric row: the sample index followed by one reading per channel. */
  type Row = seq<int>

  predicate IsDigit(c: char) {
    '0' <= c <= '9'
  }

  predicate AllDigits(s: string) {
    forall i :: 0 <= i < |s| ==> IsDigit(s[i])
  }

  function DigitChar(d: nat): (c: char)
    requires d < 10
    ensures IsDigit(c)
  {
    (48 + d) as char
  }

  function DigitValue(c: char): (d: nat)
    requires IsDigit(c)
    ensures d < 10
    ensures DigitChar(d) == c
  {
    c as int - 48
  }

  /** str(n) for a non-negative integer: its decimal digits, most significant
      first, without leading zeros. */
  function NatToString(n: nat): (s: string)
    ensures 1 <= |s| && AllDigits(s)
    ensures n >= 10 <==> |s| >= 2
    ensures s[0] == '0' <==> n == 0
  {
    if n < 10 then [DigitChar(n)] else NatToString(n / 10) + [DigitChar(n % 10)]
  }

  /** The value of a string of decimal digits. */
  function ParseNat(s: string): (n: nat)
    requires AllDigits(s)
  {
    if s == [] then 0 else 10 * ParseNat(s[..|s| - 1]) + DigitValue(s[|s| - 1])
  }

  lemma {:induction false} ParseNatToString(n: nat)
    ensures ParseNat(NatToString(n)) == n
  {
    var s := NatToString(n);
    if n < 10 {
      assert s[..|s| - 1] == [];
    } else {
      assert s[..|s| - 1] == NatToString(n / 10);
      ParseNatToString(n / 10);
    }
  }

  /** Distinct run numbers are rendered as distinct strings. */
  lemma NatToStringInjective(a: nat, b: nat)
    requires NatToString(a) == NatToString(b)
    ensures a == b
  {
    ParseNatToString(a);
    ParseNatToString(b);
  }

  /** str(i) for any integer: a minus sign before the digits of a negative one. */
  function IntToString(i: int): (s: string)
    ensures IsIntText(s)
  {
    if i < 0 then
      var digits := NatToString(-i);
      assert ("-" + digits)[1..] == digits;
      "-" + digits
    else NatToString(i)
  }

  /** An optional minus sign followed by at least one decimal digit. */
  predicate IsIntText(s: string) {
    if |s| > 0 && s[0] == '-' then |s| >= 2 && AllDigits(s[1..]) else |s| >= 1 && AllDigits(s)
  }

  /** Text that str() gives an integer never holds the column separator. */
  lemma IntTextHasNoTab(s: string)
    requires IsIntText(s)
    ensures '\t' !in s
  {
  }

  function ParseInt(s: string): int
    requires IsIntText(s)
  {
    if s[0] == '-' then
      var magnitude: int := ParseNat(s[1..]);
      -magnitude
    else ParseNat(s)
  }

  lemma ParseIntToString(i: int)
    ensures ParseInt(IntToString(i)) == i
  {
    if i < 0 {
      var digits := NatToString(-i);
      var s := "-" + digits;
      assert IntToString(i) == s;
      assert s[0] == '-' && s[1..] == digits;
      ParseNatToString(-i);
      assert ParseInt(s) == 0 - ParseNat(digits);
    } else {
      var s := NatToString(i);
      assert IntToString(i) == s;
      assert IsDigit(s[0]);
      ParseNatToString(i);
    }
  }

  /** sep.join(fields) */
  function Join(fields: seq<string>, sep: char): string {
    if |fields| == 0 then ""
    else if |fields| == 1 then fields[0]
    else fields[0] + [sep] + Join(fields[1..], sep)
  }

  /** s.split(sep): the maximal pieces between separators; never empty. */
  function Split(s: string, sep: char): (parts: seq<string>)
    ensures |parts| >= 1
  {
    if s == [] then [""]
    else
      var rest := Split(s[1..], sep);
      if s[0] == sep then [""] + rest else [[s[0]] + rest[0]] + rest[1..]
  }

  lemma {:induction false} SplitAfterField(f: string, t: string, sep: char)
    requires sep !in f
    ensures Split(f + t, sep) == [f + Split(t, sep)[0]] + Split(t, sep)[1..]
  {
    if f == [] {
      assert f + t == t;
      assert f + Split(t, sep)[0] == Split(t, sep)[0];
      assert Split(t, sep) == [Split(t, sep)[0]] + Split(t, sep)[1..];
    } else {
      assert (f + t)[1..] == f[1..] + t;
      SplitAfterField(f[1..], t, sep);
      assert [f[0]] + (f[1..] + Split(t, sep)[0]) == f + Split(t, sep)[0];
    }
  }

  /** Splitting a joined line gives the fields back, when no field holds the
      separator. */
  lemma {:induction false} SplitJoin(fields: seq<string>, sep: char)
    requires |fields| >= 1
    requires forall i :: 0 <= i < |fields| ==> sep !in fields[i]
    ensures Split(Join(fields, sep), sep) == fields
  {
    if |fields| == 1 {
      SplitAfterField(fields[0], "", sep);
      assert fields[0] + "" == fields[0];
    } else {
      var tail := [sep] + Join(fields[1..], sep);
      assert Join(fields, sep) == fields[0] + tail;
      SplitAfterField(fields[0], tail, sep);
      assert tail[0] == sep && tail[1..] == Join(fields[1..], sep);
      assert Split(tail, sep) == [""] + Split(Join(fields[1..], sep), sep);
      SplitJoin(fields[1..], sep);
      assert fields[0] + "" == fields[0];
      assert fields == [fields[0]] + fields[1..];
    }
  }

  function Fields(r: Row): (fs: seq<string>)
    ensures |fs| == |r|
  {
    seq(|r|, i requires 0 <= i < |r| => IntToString(r[i]))
  }

  /** "\t".join(str(x) for x in r): one line of a numeric data file, without
      its line terminator. */
  function FormatRow(r: Row): string {
    Join(Fields(r), '\t')
  }

  /** A row written to a data file can be read back field by field: the line
      splits at the tabs into exactly one field per column, and each field
      parses to the column's value. */
  lemma FormatRowRoundTrip(r: Row)
    requires |r| >= 1
    ensures |Split(FormatRow(r), '\t')| == |r|
    ensures forall i :: 0 <= i < |r| ==>
      IsIntText(Split(FormatRow(r), '\t')[i]) && ParseInt(Split(FormatRow(r), '\t')[i]) == r[i]
  {
    forall i | 0 <= i < |r|
      ensures '\t' !in Fields(r)[i]
    {
      IntTextHasNoTab(Fields(r)[i]);
    }
    SplitJoin(Fields(r), '\t');
    forall i | 0 <= i < |r|
      ensures IsIntText(Fields(r)[i]) && ParseInt(Fields(r)[i]) == r[i]
    {
      ParseIntToString(r[i]);
    }
  }
}
