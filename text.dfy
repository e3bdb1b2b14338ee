/** The pieces of the .NET string library the OBJ codec relies on: String.Split on one
    character, removal of empty tokens, Int32.TryParse and Int32.ToString. */
module Text {
  import opened Common

  /** String.Split(sep): the pieces between occurrences of `sep`, empty pieces included. */
  function Split(s: string, sep: char): (r: seq<string>)
    ensures |r| >= 1
    ensures forall k :: 0 <= k < |r| ==> sep !in r[k]
    decreases |s|
  {
    if s == [] then [""]
    else
      var rest := Split(s[1..], sep);
      if s[0] == sep then [""] + rest
      else [[s[0]] + rest[0]] + rest[1..]
  }

  /** String.Join(sep, pieces). */
  function Join(pieces: seq<string>, sep: char): string
    decreases |pieces|
  {
    if pieces == [] then ""
    else if |pieces| == 1 then pieces[0]
    else pieces[0] + [sep] + Join(pieces[1..], sep)
  }

  /** Splitting loses nothing: joining the pieces gives back the string. */
  lemma {:induction false} JoinSplit(s: string, sep: char)
    ensures Join(Split(s, sep), sep) == s
    decreases |s|
  {
    if s != [] {
      var rest := Split(s[1..], sep);
      JoinSplit(s[1..], sep);
      if s[0] == sep {
        assert Split(s, sep) == [""] + rest;
        assert ([""] + rest)[1..] == rest;
      } else {
        var r := Split(s, sep);
        assert r == [[s[0]] + rest[0]] + rest[1..];
        if |rest| == 1 {
          assert r == [[s[0]] + rest[0]];
        } else {
          assert r[1..] == rest[1..];
          assert Join(rest, sep) == rest[0] + [sep] + Join(rest[1..], sep);
        }
      }
    }
  }

  /** Joining pieces that do not contain the separator and splitting again gives the pieces back. */
  lemma {:induction false} SplitJoin(pieces: seq<string>, sep: char)
    requires |pieces| >= 1
    requires forall k :: 0 <= k < |pieces| ==> sep !in pieces[k]
    ensures Split(Join(pieces, sep), sep) == pieces
    decreases |pieces|, |pieces[0]|
  {
    if |pieces| == 1 {
      SplitNoSep(pieces[0], sep);
    } else if pieces[0] == [] {
      var tail := pieces[1..];
      SplitJoin(tail, sep);
      assert Join(pieces, sep) == [sep] + Join(tail, sep);
      assert ([sep] + Join(tail, sep))[1..] == Join(tail, sep);
      assert [""] + tail == pieces;
    } else {
      var p := pieces[0];
      var shorter := [p[1..]] + pieces[1..];
      assert sep !in p[1..];
      assert forall k :: 1 <= k < |shorter| ==> shorter[k] == pieces[k];
      SplitJoin(shorter, sep);
      assert Join(shorter, sep) == p[1..] + [sep] + Join(pieces[1..], sep);
      assert Join(pieces, sep) == [p[0]] + Join(shorter, sep);
      assert ([p[0]] + Join(shorter, sep))[1..] == Join(shorter, sep);
      assert [p[0]] + p[1..] == p;
      assert [[p[0]] + shorter[0]] + shorter[1..] == pieces;
    }
  }

  /** A string without the separator splits into itself alone. */
  lemma {:induction false} SplitNoSep(s: string, sep: char)
    requires sep !in s
    ensures Split(s, sep) == [s]
    decreases |s|
  {
    if s != [] {
      assert sep !in s[1..];
      SplitNoSep(s[1..], sep);
      assert [s[0]] + s[1..] == s;
    }
  }

  /** Joining one more piece adds the separator and the piece at the end. */
  lemma {:induction false} JoinSnoc(pieces: seq<string>, x: string, sep: char)
    requires |pieces| >= 1
    ensures Join(pieces + [x], sep) == Join(pieces, sep) + [sep] + x
    decreases |pieces|
  {
    if |pieces| > 1 {
      var tail := pieces[1..];
      JoinSnoc(tail, x, sep);
      assert (pieces + [x])[1..] == tail + [x];
    }
  }

  /** List.RemoveAll(item => item == ""): the non-empty pieces, in order. Every non-empty
      piece is kept as often as it occurs; RemoveEmptyAppend gives the order. */
  function RemoveEmpty(pieces: seq<string>): (r: seq<string>)
    ensures |r| <= |pieces|
    ensures forall k :: 0 <= k < |r| ==> r[k] != "" && r[k] in pieces
    ensures forall x :: x != "" ==> multiset(r)[x] == multiset(pieces)[x]
    ensures (forall k :: 0 <= k < |pieces| ==> pieces[k] != "") ==> r == pieces
    decreases |pieces|
  {
    if pieces == [] then []
    else
      var init, last := pieces[..|pieces| - 1], pieces[|pieces| - 1];
      assert pieces == init + [last];
      if last == "" then RemoveEmpty(init) else RemoveEmpty(init) + [last]
  }

  /** RemoveEmpty works piece by piece: it keeps the order of what it keeps. */
  lemma {:induction false} RemoveEmptyAppend(a: seq<string>, b: seq<string>)
    ensures RemoveEmpty(a + b) == RemoveEmpty(a) + RemoveEmpty(b)
    decreases |b|
  {
    if b == [] {
      assert a + b == a;
    } else {
      var init, last := b[..|b| - 1], b[|b| - 1];
      RemoveEmptyAppend(a, init);
      assert (a + b)[..|a + b| - 1] == a + init;
    }
  }

  /** A single piece is kept exactly when it is not empty. */
  lemma RemoveEmptyOne(x: string)
    ensures RemoveEmpty([x]) == if x == "" then [] else [x]
  {
    assert [x][..0] == [];
  }

  /** How the importer splits a line: on the single character ' ', dropping empty tokens. */
  function Tokenize(line: string): (r: seq<string>)
    ensures forall k :: 0 <= k < |r| ==> r[k] != "" && ' ' !in r[k]
  {
    RemoveEmpty(Split(line, ' '))
  }

  /** Non-empty, space-free tokens joined by single spaces tokenize back into themselves. */
  lemma TokenizeJoin(tokens: seq<string>)
    requires |tokens| >= 1
    requires forall k :: 0 <= k < |tokens| ==> tokens[k] != "" && ' ' !in tokens[k]
    ensures Tokenize(Join(tokens, ' ')) == tokens
  {
    SplitJoin(tokens, ' ');
  }

  // ---------------------------------------------------------------------------
  // Int32.TryParse(s, out n) with NumberStyles.Integer

  /** The characters .NET's number parser skips around a number: U+0009 to U+000D and the space. */
  predicate IsWhite(c: char) {
    c == ' ' || ('\t' <= c <= '\r')
  }

  function TrimStart(s: string): (r: string)
    decreases |s|
  {
    if s != [] && IsWhite(s[0]) then TrimStart(s[1..]) else s
  }

  function TrimEnd(s: string): (r: string)
    decreases |s|
  {
    if s != [] && IsWhite(s[|s| - 1]) then TrimEnd(s[..|s| - 1]) else s
  }

  predicate IsDigit(c: char) {
    '0' <= c <= '9'
  }

  predicate AllDigits(s: string) {
    forall k :: 0 <= k < |s| ==> IsDigit(s[k])
  }

  function DigitValue(c: char): nat
    requires IsDigit(c)
  {
    (c as int) - ('0' as int)
  }

  /** The value of a string of decimal digits, read left to right. */
  function DigitsValue(s: string): nat
    requires AllDigits(s)
    decreases |s|
  {
    if s == [] then 0 else DigitsValue(s[..|s| - 1]) * 10 + DigitValue(s[|s| - 1])
  }

  /** Int32.TryParse: optional white space around an optional sign and at least one decimal
      digit, whose value must fit in 32 bits. A failure is None (the source then holds 0). */
  function ParseInt(s: string): (r: Option<int32>)
    ensures r.Some? ==> exists c :: c in s && IsDigit(c)
  {
    var t := TrimEnd(TrimStart(s));
    if t == [] then None
    else
      var negative := t[0] == '-';
      var digits := if t[0] == '-' || t[0] == '+' then t[1..] else t;
      if digits == [] || !AllDigits(digits) then None
      else
        var v: int := if negative then 0 - DigitsValue(digits) else DigitsValue(digits);
        if INT_MIN <= v <= INT_MAX then
          TrimmedSub(s);
          assert digits[0] in s;
          Some(v)
        else None
  }

  lemma {:induction false} TrimStartIn(s: string)
    ensures forall c :: c in TrimStart(s) ==> c in s
    decreases |s|
  {
    if s != [] && IsWhite(s[0]) {
      TrimStartIn(s[1..]);
    }
  }

  lemma {:induction false} TrimEndIn(s: string)
    ensures forall c :: c in TrimEnd(s) ==> c in s
    decreases |s|
  {
    if s != [] && IsWhite(s[|s| - 1]) {
      TrimEndIn(s[..|s| - 1]);
    }
  }

  lemma TrimmedSub(s: string)
    ensures forall c :: c in TrimEnd(TrimStart(s)) ==> c in s
  {
    TrimStartIn(s);
    TrimEndIn(TrimStart(s));
  }

  // ---------------------------------------------------------------------------
  // Int32.ToString()

  function DigitChar(d: nat): (c: char)
    requires d < 10
    ensures IsDigit(c) && DigitValue(c) == d
  {
    ('0' as int + d) as char
  }

  /** The decimal digits of n, without leading zeros. */
  function NatToString(n: nat): (r: string)
    ensures r != [] && AllDigits(r)
    decreases n
  {
    if n < 10 then [DigitChar(n)] else NatToString(n / 10) + [DigitChar(n % 10)]
  }

  /** Int32.ToString(): a minus sign for negatives, then the digits. */
  function IntToString(n: int): (r: string)
    ensures r != []
  {
    if n < 0 then "-" + NatToString(-n) else NatToString(n)
  }

  lemma {:induction false} NatToStringValue(n: nat)
    ensures DigitsValue(NatToString(n)) == n
    decreases n
  {
    if n >= 10 {
      var s := NatToString(n / 10);
      NatToStringValue(n / 10);
      assert (s + [DigitChar(n % 10)])[..|s|] == s;
    }
  }

  /** What Int32.ToString writes, Int32.TryParse reads back. */
  lemma ParseIntToString(n: int32)
    ensures ParseInt(IntToString(n)) == Some(n)
  {
    var m: nat := if n < 0 then 0 - n else n;
    var d := NatToString(m);
    NatToStringValue(m);
    var s := IntToString(n);
    assert s == if n < 0 then "-" + d else d;
    assert !IsWhite(s[0]);
    assert TrimStart(s) == s;
    assert s[|s| - 1] == d[|d| - 1];
    assert !IsWhite(s[|s| - 1]);
    assert TrimEnd(s) == s;
    if n < 0 {
      assert s[1..] == d;
    }
  }

  /** The text of a number contains neither a space nor a slash, so it survives both splits. */
  lemma IntToStringPlain(n: int)
    ensures ' ' !in IntToString(n) && '/' !in IntToString(n)
  {
    var d := NatToString(if n < 0 then -n else n);
    assert forall k :: 0 <= k < |d| ==> IsDigit(d[k]);
  }
}
