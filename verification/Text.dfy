/** The text functions of the standard library that the services share. */
module Text {
  /** unicode.IsSpace. */
  predicate IsSpace(c: char) {
    var n := c as int;
    9 <= n <= 13 || n == 0x20 || n == 0x85 || n == 0xA0 || n == 0x1680 || 0x2000 <= n <= 0x200A
    || n == 0x2028 || n == 0x2029 || n == 0x202F || n == 0x205F || n == 0x3000
  }

  predicate Trimmed(s: string) {
    s == "" || (!IsSpace(s[0]) && !IsSpace(s[|s| - 1]))
  }

  function Trim(s: string): (t: string)
    ensures Trimmed(t) && (Trimmed(s) ==> t == s)
    decreases |s|
  {
    if s == "" then ""
    else if IsSpace(s[0]) then Trim(s[1..])
    else if IsSpace(s[|s| - 1]) then Trim(s[..|s| - 1])
    else s
  }

  function LowerChar(c: char): char {
    if 'A' <= c <= 'Z' then ((c as int) + 32) as char else c
  }

  function UpperChar(c: char): char {
    if 'a' <= c <= 'z' then ((c as int) - 32) as char else c
  }

  function Lower(s: string): (t: string)
    ensures |t| == |s| && (Trimmed(s) ==> Trimmed(t))
  {
    seq(|s|, i requires 0 <= i < |s| => LowerChar(s[i]))
  }

  function Upper(s: string): (t: string)
    ensures |t| == |s| && (Trimmed(s) ==> Trimmed(t))
  {
    seq(|s|, i requires 0 <= i < |s| => UpperChar(s[i]))
  }

  lemma CaseIsIdempotent(s: string)
    ensures Lower(Lower(s)) == Lower(s) && Upper(Upper(s)) == Upper(s)
  {
    forall i | 0 <= i < |s| ensures Lower(Lower(s))[i] == Lower(s)[i] && Upper(Upper(s))[i] == Upper(s)[i] {
      assert Lower(s)[i] == LowerChar(s[i]) && Upper(s)[i] == UpperChar(s[i]);
    }
  }

  /** Texts that differ in case alone have one lower and one upper form, and these have letters of one case. */
  lemma CaseIsForgotten(s: string)
    ensures Lower(Upper(s)) == Lower(s) && Upper(Lower(s)) == Upper(s)
    ensures forall i :: 0 <= i < |s| ==> !('A' <= Lower(s)[i] <= 'Z') && !('a' <= Upper(s)[i] <= 'z')
    ensures forall i :: 0 <= i < |s| && !('A' <= s[i] <= 'Z') && !('a' <= s[i] <= 'z') ==> Lower(s)[i] == s[i] == Upper(s)[i]
  {
    forall i | 0 <= i < |s| ensures Lower(Upper(s))[i] == Lower(s)[i] && Upper(Lower(s))[i] == Upper(s)[i] {
      assert Lower(s)[i] == LowerChar(s[i]) && Upper(s)[i] == UpperChar(s[i]);
    }
  }

  predicate AllDigits(s: string) {
    forall i :: 0 <= i < |s| ==> '0' <= s[i] <= '9'
  }

  /** Number of bytes of the UTF-8 form. */
  function Bytes(s: string): nat {
    if s == "" then 0
    else
      var n := s[0] as int;
      (if n < 0x80 then 1 else if n < 0x800 then 2 else if n < 0x10000 then 3 else 4) + Bytes(s[1..])
  }

  lemma {:induction false} TrimIgnoresPadding(before: string, s: string, after: string)
    requires forall i :: 0 <= i < |before| ==> IsSpace(before[i])
    requires forall i :: 0 <= i < |after| ==> IsSpace(after[i])
    ensures Trim(before + s + after) == Trim(s)
    decreases |before| + |after|
  {
    var padded := before + s + after;
    if before != "" {
      TrimIgnoresPadding(before[1..], s, after);
      assert padded[1..] == before[1..] + s + after;
    } else if after != "" {
      assert padded == s + after;
      TrimIgnoresPadding("", s, after[..|after| - 1]);
      assert padded[..|padded| - 1] == "" + s + after[..|after| - 1];
      TrimDropsLast(padded);
    } else {
      assert padded == s;
    }
  }

  lemma {:induction false} TrimDropsLast(s: string)
    requires s != "" && IsSpace(s[|s| - 1])
    ensures Trim(s) == Trim(s[..|s| - 1])
    decreases |s|
  {
    if IsSpace(s[0]) && |s| > 1 {
      TrimDropsLast(s[1..]);
      assert s[1..][..|s| - 2] == s[..|s| - 1][1..];
    }
  }

  /** MySQL's TRIM, which knows the plain space only. */
  function SqlTrim(s: string): (t: string)
    ensures t == "" || (t[0] != ' ' && t[|t| - 1] != ' ')
    decreases |s|
  {
    if s == "" then ""
    else if s[0] == ' ' then SqlTrim(s[1..])
    else if s[|s| - 1] == ' ' then SqlTrim(s[..|s| - 1])
    else s
  }

  lemma {:induction false} TrimShortens(s: string)
    ensures |Trim(s)| <= |s|
    decreases |s|
  {
    if s != "" {
      if IsSpace(s[0]) { TrimShortens(s[1..]); }
      else if IsSpace(s[|s| - 1]) { TrimShortens(s[..|s| - 1]); }
    }
  }

  /** MySQL keeps at least what Go keeps. */
  lemma {:induction false} SqlTrimKeepsMore(s: string)
    ensures |Trim(s)| <= |SqlTrim(s)|
    decreases |s|
  {
    if s != "" {
      if s[0] == ' ' {
        SqlTrimKeepsMore(s[1..]);
      } else if s[|s| - 1] == ' ' {
        SqlTrimKeepsMore(s[..|s| - 1]);
        TrimDropsLast(s);
      } else {
        TrimShortens(s);
      }
    }
  }
}
