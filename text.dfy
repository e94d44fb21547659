/**
 * The string operations the bot relies on, with Python's meaning:
 * `startswith`, slicing past the end, `split(' ')`, dropping empty
 * pieces, `str(int)` and `int(str)`.
 */
module Text {
  import opened Options

  /** Python's `s.startswith(p)`. */
  predicate StartsWith(s: string, p: string) {
    |p| <= |s| && s[..|p|] == p
  }

  /** Python's `s[n:]` for `n >= 0`: empty once `n` passes the end. */
  function DropPrefix(s: string, n: nat): string {
    if n <= |s| then s[n..] else ""
  }

  /** Python's `s.split(' ')`: the pieces between single spaces, empty pieces included. */
  function Split(s: string): (parts: seq<string>)
    ensures |parts| >= 1
    ensures forall i :: 0 <= i < |parts| ==> ' ' !in parts[i]
    decreases |s|
  {
    if s == [] then [""]
    else if s[0] == ' ' then [""] + Split(s[1..])
    else
      var rest := Split(s[1..]);
      [[s[0]] + rest[0]] + rest[1..]
  }

  /** Python's `' '.join(parts)`, the inverse of Split. */
  function JoinSpaces(parts: seq<string>): string
    requires |parts| >= 1
    decreases |parts|
  {
    if |parts| == 1 then parts[0] else parts[0] + " " + JoinSpaces(parts[1..])
  }

  /** Joining the pieces of a split gives the string back. */
  lemma {:induction false} JoinSplit(s: string)
    ensures JoinSpaces(Split(s)) == s
    decreases |s|
  {
    if s == [] {
    } else if s[0] == ' ' {
      JoinSplit(s[1..]);
      assert Split(s)[1..] == Split(s[1..]);
      assert s == " " + s[1..];
    } else {
      JoinSplit(s[1..]);
      var rest := Split(s[1..]);
      assert Split(s)[1..] == rest[1..];
      if |rest| == 1 {
        assert s == [s[0]] + s[1..];
      } else {
        calc {
          JoinSpaces(Split(s));
          ([s[0]] + rest[0]) + " " + JoinSpaces(rest[1..]);
          [s[0]] + (rest[0] + " " + JoinSpaces(rest[1..]));
          [s[0]] + JoinSpaces(rest);
          s;
        }
      }
    }
  }

  /** A string without spaces splits into itself alone. */
  lemma {:induction false} SplitNoSpace(s: string)
    requires ' ' !in s
    ensures Split(s) == [s]
    decreases |s|
  {
    if s != [] {
      assert s[0] in s;
      assert forall c :: c in s[1..] ==> c in s;
      SplitNoSpace(s[1..]);
      assert s == [s[0]] + s[1..];
    }
  }

  /** Splitting at a space: the pieces of the left part, then those of the right part. */
  lemma {:induction false} SplitAppendSpace(a: string, b: string)
    ensures Split(a + " " + b) == Split(a) + Split(b)
    decreases |a|
  {
    var s := a + " " + b;
    if a == [] {
      assert s[0] == ' ' && s[1..] == b;
    } else if a[0] == ' ' {
      assert s[0] == ' ' && s[1..] == a[1..] + " " + b;
      SplitAppendSpace(a[1..], b);
    } else {
      assert s[0] == a[0] && s[1..] == a[1..] + " " + b;
      SplitAppendSpace(a[1..], b);
      var ra := Split(a[1..]);
      assert Split(s[1..]) == ra + Split(b);
      assert (ra + Split(b))[0] == ra[0];
      assert (ra + Split(b))[1..] == ra[1..] + Split(b);
    }
  }

  /** Splitting joined pieces that hold no space gives the pieces back. */
  lemma {:induction false} SplitJoin(parts: seq<string>)
    requires |parts| >= 1
    requires forall i :: 0 <= i < |parts| ==> ' ' !in parts[i]
    ensures Split(JoinSpaces(parts)) == parts
    decreases |parts|
  {
    SplitNoSpace(parts[0]);
    if |parts| > 1 {
      SplitJoin(parts[1..]);
      SplitAppendSpace(parts[0], JoinSpaces(parts[1..]));
      assert parts == [parts[0]] + parts[1..];
    }
  }

  /** A string that starts with a space-free `p` has a first piece that starts with `p`. */
  lemma {:induction false} SplitPrefixNoSpace(p: string, rest: string)
    requires ' ' !in p
    ensures Split(p + rest) == [p + Split(rest)[0]] + Split(rest)[1..]
    decreases |p|
  {
    if p == [] {
      assert p + rest == rest;
      assert p + Split(rest)[0] == Split(rest)[0];
      assert Split(rest) == [Split(rest)[0]] + Split(rest)[1..];
    } else {
      var s := p + rest;
      assert p[0] in p;
      assert forall c :: c in p[1..] ==> c in p;
      assert s[0] == p[0] && s[1..] == p[1..] + rest;
      SplitPrefixNoSpace(p[1..], rest);
      assert [p[0]] + (p[1..] + Split(rest)[0]) == p + Split(rest)[0];
    }
  }

  /** The list comprehension `[arg for arg in parts if arg]`. */
  function NonEmpty(parts: seq<string>): (kept: seq<string>)
    ensures |kept| <= |parts|
    ensures forall i :: 0 <= i < |kept| ==> kept[i] != ""
    ensures forall w :: w in kept <==> w in parts && w != ""
    decreases |parts|
  {
    if parts == [] then []
    else (if parts[0] == "" then [] else [parts[0]]) + NonEmpty(parts[1..])
  }

  /** Filtering distributes over concatenation. */
  lemma {:induction false} NonEmptyAppend(a: seq<string>, b: seq<string>)
    ensures NonEmpty(a + b) == NonEmpty(a) + NonEmpty(b)
    decreases |a|
  {
    if a != [] {
      assert (a + b)[0] == a[0] && (a + b)[1..] == a[1..] + b;
      NonEmptyAppend(a[1..], b);
    } else {
      assert a + b == b;
    }
  }

  /** The arguments of a message: split on single spaces, empty pieces dropped. */
  function Tokens(s: string): (args: seq<string>)
    ensures forall i :: 0 <= i < |args| ==> args[i] != "" && ' ' !in args[i]
  {
    var parts := Split(s);
    var args := NonEmpty(parts);
    assert forall i :: 0 <= i < |args| ==> ' ' !in args[i] by {
      forall i | 0 <= i < |args| ensures ' ' !in args[i] {
        assert args[i] in parts;
        var j :| 0 <= j < |parts| && parts[j] == args[i];
      }
    }
    args
  }

  /** The tokens of two space-separated parts are the tokens of each part in turn. */
  lemma TokensAppendSpace(a: string, b: string)
    ensures Tokens(a + " " + b) == Tokens(a) + Tokens(b)
  {
    SplitAppendSpace(a, b);
    NonEmptyAppend(Split(a), Split(b));
  }

  /** A run of spaces counts as one: doubling a space does not change the tokens. */
  lemma TokensIgnoreSpaceRuns(a: string, b: string)
    ensures Tokens(a + "  " + b) == Tokens(a + " " + b)
  {
    assert a + "  " + b == a + " " + (" " + b);
    TokensAppendSpace(a, " " + b);
    TokensAppendSpace(a, b);
    var s := " " + b;
    assert s[0] == ' ' && s[1..] == b;
    assert Split(s) == [""] + Split(b);
    NonEmptyAppend([""], Split(b));
  }

  /** For a non-empty prefix without spaces, the first token of content that starts with it starts with it too. */
  lemma FirstTokenKeepsPrefix(s: string, p: string)
    requires p != "" && ' ' !in p && StartsWith(s, p)
    ensures |Tokens(s)| >= 1 && StartsWith(Tokens(s)[0], p)
  {
    var rest := s[|p|..];
    assert s == p + rest;
    SplitPrefixNoSpace(p, rest);
    var first := p + Split(rest)[0];
    assert Split(s) == [first] + Split(rest)[1..];
    NonEmptyAppend([first], Split(rest)[1..]);
    assert first[..|p|] == p;
  }

  /** The index of the first space of `s`, or `|s|` when there is none. */
  function FirstSpace(s: string): (k: nat)
    ensures k <= |s| && ' ' !in s[..k] && (k == |s| || s[k] == ' ')
    decreases |s|
  {
    if s == [] || s[0] == ' ' then 0
    else
      var k := 1 + FirstSpace(s[1..]);
      assert s[..k] == [s[0]] + s[1..][..k - 1];
      k
  }

  /** The first piece of a split is everything before the first space. */
  lemma {:induction false} SplitHead(s: string)
    ensures Split(s)[0] == s[..FirstSpace(s)]
    decreases |s|
  {
    if s != [] && s[0] != ' ' {
      SplitHead(s[1..]);
      assert s[..FirstSpace(s)] == [s[0]] + s[1..][..FirstSpace(s[1..])];
    }
  }

  /** A space-free word is the first piece exactly when the string is that word, or that word and a space. */
  lemma FirstPieceIs(s: string, w: string)
    requires ' ' !in w
    ensures Split(s)[0] == w <==> s == w || StartsWith(s, w + " ")
  {
    SplitHead(s);
    var k := FirstSpace(s);
    if Split(s)[0] == w {
      if k < |s| {
        assert s[..|w| + 1] == w + " ";
      } else {
        assert s[..k] == s;
      }
    }
    if s == w {
      assert s[..|s|] == s;
    } else if StartsWith(s, w + " ") {
      assert s[|w|] == ' ';
      assert s[..|w|] == w;
      assert k == |w|;
    }
  }

  predicate IsDigit(c: char) {
    '0' <= c <= '9'
  }

  predicate AllDigits(s: string) {
    forall i :: 0 <= i < |s| ==> IsDigit(s[i])
  }

  function DigitChar(d: nat): (c: char)
    requires d < 10
    ensures IsDigit(c)
  {
    (d + '0' as int) as char
  }

  /** The number a string of decimal digits denotes. */
  function DigitsValue(s: string): nat
    requires AllDigits(s)
    decreases |s|
  {
    if s == [] then 0 else 10 * DigitsValue(s[..|s| - 1]) + (s[|s| - 1] as int - '0' as int)
  }

  /** Python's `str(n)` for a natural number. */
  function NatToString(n: nat): (s: string)
    ensures |s| >= 1 && AllDigits(s)
    decreases n
  {
    if n < 10 then [DigitChar(n)] else NatToString(n / 10) + [DigitChar(n % 10)]
  }

  /** Python's `str(i)` for an integer. */
  function IntToString(i: int): string {
    if i < 0 then "-" + NatToString(-i) else NatToString(i)
  }

  /** Python's `int(s)`, restricted to an optional sign and ASCII digits; `None` where Python raises ValueError. */
  function ParseInt(s: string): Option<int> {
    if |s| >= 2 && (s[0] == '-' || s[0] == '+') && AllDigits(s[1..]) then
      var magnitude: int := DigitsValue(s[1..]);
      Some(if s[0] == '-' then -magnitude else magnitude)
    else if |s| >= 1 && AllDigits(s) then Some(DigitsValue(s))
    else None
  }

  /** The digits of `str(n)` denote `n`. */
  lemma {:induction false} NatToStringValue(n: nat)
    ensures DigitsValue(NatToString(n)) == n
    decreases n
  {
    if n >= 10 {
      NatToStringValue(n / 10);
      var s := NatToString(n);
      assert s[..|s| - 1] == NatToString(n / 10);
    }
  }

  /** `int(str(i)) == i`. */
  lemma ParseIntRoundTrip(i: int)
    ensures ParseInt(IntToString(i)) == Some(i)
  {
    if i < 0 {
      NatToStringValue(-i);
      var s := IntToString(i);
      assert s[1..] == NatToString(-i);
    } else {
      NatToStringValue(i);
      assert IntToString(i)[0] != '-' && IntToString(i)[0] != '+';
    }
  }

  /** `int` accepts spellings that `str` never produces, such as a leading zero. */
  lemma LeadingZeroIsNotCanonical()
    ensures ParseInt("012") == Some(12) && IntToString(12) != "012"
  {
    assert AllDigits("012");
    assert "012"[..2] == "01" && "01"[..1] == "0" && "0"[..0] == "";
    assert NatToString(12) == NatToString(1) + [DigitChar(2)];
  }
}
