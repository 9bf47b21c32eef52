/**
  The colon-delimited record codec shared by the customer file and the
  account file. A record is written as its fields, each followed by ':'
  (so a line ends with a trailing ':'), and read back field by field with
  `std::getline(ss, field, ':')`, where a field the line does not have
  stays "".
 */
module Codec {

  /** The field separator of both record files. */
  const Delim: char := ':'

  /** Position of the first separator in `s`, or |s| when there is none. */
  function DelimIndex(s: string): (i: nat)
    ensures i <= |s|
    ensures i < |s| ==> s[i] == Delim
    ensures Delim !in s[..i]
  {
    if s == [] || s[0] == Delim then 0
    else
      var j := DelimIndex(s[1..]);
      assert s[..1 + j] == [s[0]] + s[1..][..j];
      1 + j
  }

  /**
    The fields that successive `getline(ss, field, ':')` calls extract
    from `line`, in order. Each call consumes up to and including the next
    separator; once nothing is left, no further field is produced, so a
    trailing separator does not add an empty field.
   */
  function Split(line: string): (fields: seq<string>)
    ensures forall k :: 0 <= k < |fields| ==> Delim !in fields[k]
    ensures fields == [] <==> line == []
    decreases |line|
  {
    if line == [] then []
    else
      var i := DelimIndex(line);
      if i == |line| then [line]
      else [line[..i]] + Split(line[i + 1..])
  }

  /** Field `k` of `line` as the source reads it: a missing field stays "". */
  function Field(line: string, k: nat): (f: string)
    ensures Delim !in f
    ensures k < |Split(line)| ==> f == Split(line)[k]
    ensures k >= |Split(line)| ==> f == ""
  {
    var fields := Split(line);
    if k < |fields| then fields[k] else ""
  }

  /** Writes every field followed by a separator, as `<< f << ":"` does. */
  function Join(fields: seq<string>): (line: string)
    ensures fields != [] ==> |line| > 0 && line[|line| - 1] == Delim
  {
    if fields == [] then [] else fields[0] + [Delim] + Join(fields[1..])
  }

  /** No field holds the separator, so the fields survive a write and a read. */
  predicate Clean(fields: seq<string>)
  {
    forall k :: 0 <= k < |fields| ==> Delim !in fields[k]
  }

  lemma {:induction false} DelimIndexAfter(f: string, rest: string)
    requires Delim !in f
    ensures DelimIndex(f + [Delim] + rest) == |f|
  {
    if f != [] {
      assert (f + [Delim] + rest)[1..] == f[1..] + [Delim] + rest;
      DelimIndexAfter(f[1..], rest);
    }
  }

  /** Reading back a written record yields exactly the fields written. */
  lemma {:induction false} SplitJoin(fields: seq<string>)
    requires Clean(fields)
    ensures Split(Join(fields)) == fields
  {
    if fields != [] {
      var f, rest := fields[0], Join(fields[1..]);
      var line := f + [Delim] + rest;
      assert Join(fields) == line;
      DelimIndexAfter(f, rest);
      assert line[..|f|] == f;
      assert line[|f| + 1..] == rest;
      SplitJoin(fields[1..]);
    }
  }

  /** The k-th field of a written record is the k-th field written, or "" past the end. */
  lemma FieldOfJoin(fields: seq<string>, k: nat)
    requires Clean(fields)
    ensures Field(Join(fields), k) == if k < |fields| then fields[k] else ""
  {
    SplitJoin(fields);
  }

  /** The first field read from a written record is the first field written, whatever follows it. */
  lemma FirstFieldOfJoin(fields: seq<string>)
    requires fields != []
    ensures Delim !in fields[0] ==> Field(Join(fields), 0) == fields[0]
  {
    if Delim !in fields[0] {
      DelimIndexAfter(fields[0], Join(fields[1..]));
    }
  }

  /** A line re-read after `Join` of its own first seven fields keeps those fields. */
  function FirstSeven(line: string): (fields: seq<string>)
    ensures |fields| == 7 && Clean(fields)
    ensures forall k :: 0 <= k < 7 ==> fields[k] == Field(line, k)
  {
    [Field(line, 0), Field(line, 1), Field(line, 2), Field(line, 3),
     Field(line, 4), Field(line, 5), Field(line, 6)]
  }

  function DigitChar(d: nat): (c: char)
    requires d < 10
    ensures '0' <= c <= '9'
  {
    ('0' as int + d) as char
  }

  /** Decimal digits of `k`, most significant first, without leading zeros. */
  function NatText(k: nat): (s: string)
    ensures |s| >= 1
    ensures forall i :: 0 <= i < |s| ==> '0' <= s[i] <= '9'
    ensures k >= 10 ==> s[0] != '0'
  {
    if k < 10 then [DigitChar(k)]
    else NatText(k / 10) + [DigitChar(k % 10)]
  }

  /** An `int` as `operator<<` writes it: optional minus sign, then decimal digits. */
  function IntText(k: int): (s: string)
    ensures |s| >= 1 && Delim !in s
    ensures k < 0 <==> s[0] == '-'
    ensures k >= 0 <==> forall i :: 0 <= i < |s| ==> '0' <= s[i] <= '9'
  {
    if k < 0 then "-" + NatText(-k) else NatText(k)
  }

  /** The number a string of decimal digits stands for, most significant digit first. */
  function DigitsValue(s: string): int
    decreases |s|
  {
    if s == [] then 0 else 10 * DigitsValue(s[..|s| - 1]) + (s[|s| - 1] as int - '0' as int)
  }

  /** The number a decimal text stands for, with an optional leading minus sign. */
  function SignedValue(s: string): int
  {
    if s != [] && s[0] == '-' then -DigitsValue(s[1..]) else DigitsValue(s)
  }

  /** The digits of `k` stand for `k`. */
  lemma {:induction false} NatTextValue(k: nat)
    ensures DigitsValue(NatText(k)) == k
  {
    if k >= 10 {
      NatTextValue(k / 10);
      var s := NatText(k);
      assert s[..|s| - 1] == NatText(k / 10);
    }
  }

  /** The text written for an `int` stands for that `int`. */
  lemma IntTextValue(k: int)
    ensures SignedValue(IntText(k)) == k
  {
    if k < 0 {
      NatTextValue(-k);
      assert IntText(k)[1..] == NatText(-k);
    } else {
      NatTextValue(k);
    }
  }

  function Pow10(d: nat): (p: nat)
    ensures p >= 1
  {
    if d == 0 then 1 else 10 * Pow10(d - 1)
  }

  /** A number between 10^d and 10^(d+1) - 1 is written with exactly d + 1 digits. */
  lemma {:induction false} NatTextLength(k: nat, d: nat)
    requires Pow10(d) <= k < Pow10(d + 1)
    ensures |NatText(k)| == d + 1
  {
    if d > 0 {
      assert k >= 10;
      NatTextLength(k / 10, d - 1);
    }
  }
}
