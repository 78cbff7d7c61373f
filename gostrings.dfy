/** Go's `strings.Trim(s, " ")`: the cut set is the single character ' ', so only
    spaces (not tabs or newlines) are removed from both ends. */
module GoStrings {

  predicate AllSpaces(s: string)
  {
    forall i :: 0 <= i < |s| ==> s[i] == ' '
  }

  /** No space at either end. */
  predicate Trimmed(s: string)
  {
    s == [] || (s[0] != ' ' && s[|s| - 1] != ' ')
  }

  function TrimLeft(s: string): string
  {
    if |s| > 0 && s[0] == ' ' then TrimLeft(s[1..]) else s
  }

  function TrimRight(s: string): string
  {
    if |s| > 0 && s[|s| - 1] == ' ' then TrimRight(s[..|s| - 1]) else s
  }

  /** TrimLeft drops a run of spaces from the front and stops at a non-space. */
  lemma {:induction false} TrimLeftShape(s: string)
    ensures |TrimLeft(s)| <= |s| && TrimLeft(s) == s[|s| - |TrimLeft(s)|..]
    ensures AllSpaces(s[..|s| - |TrimLeft(s)|])
    ensures TrimLeft(s) == [] || TrimLeft(s)[0] != ' '
  {
    if |s| > 0 && s[0] == ' ' {
      TrimLeftShape(s[1..]);
      var r := TrimLeft(s[1..]);
      assert s[..|s| - |r|] == [' '] + s[1..][..|s| - 1 - |r|];
    }
  }

  /** TrimRight drops a run of spaces from the back and stops at a non-space. */
  lemma {:induction false} TrimRightShape(s: string)
    ensures |TrimRight(s)| <= |s| && TrimRight(s) == s[..|TrimRight(s)|]
    ensures AllSpaces(s[|TrimRight(s)|..])
    ensures TrimRight(s) == [] || TrimRight(s)[|TrimRight(s)| - 1] != ' '
  {
    if |s| > 0 && s[|s| - 1] == ' ' {
      var t := s[..|s| - 1];
      TrimRightShape(t);
      var r := TrimRight(t);
      assert s[|r|..] == t[|r|..] + [' '];
    }
  }

  /** `strings.Trim(s, " ")`. */
  function Trim(s: string): string
  {
    TrimRight(TrimLeft(s))
  }

  /** The result is `s` with a run of spaces taken off the front and another off the back. */
  lemma TrimShape(s: string)
    ensures Trimmed(Trim(s))
    ensures exists i, j :: 0 <= i <= j <= |s| && Trim(s) == s[i..j]
                           && AllSpaces(s[..i]) && AllSpaces(s[j..])
  {
    TrimLeftShape(s);
    var l := TrimLeft(s);
    TrimRightShape(l);
    var r := TrimRight(l);
    var i := |s| - |l|;
    var j := i + |r|;
    assert r == s[i..j];
    assert s[j..] == l[|r|..];
    if r != [] {
      assert r[0] == l[0];
    }
  }

  /** Trimming twice is trimming once. */
  lemma {:induction false} TrimIdempotent(s: string)
    ensures Trim(Trim(s)) == Trim(s)
  {
    TrimShape(s);
    TrimmedIsFixed(Trim(s));
  }

  lemma TrimmedIsFixed(s: string)
    requires Trimmed(s)
    ensures Trim(s) == s
  {
  }

  /** Characters other than ' ' survive even at the ends. */
  lemma TrimKeepsTabs()
    ensures Trim(" \tx ") == "\tx"
  {
    assert TrimLeft(" \tx ") == "\tx ";
    assert TrimRight("\tx ") == "\tx";
  }
}
