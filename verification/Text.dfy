/** White space and trimming as ECMAScript has them, for `\s`, `split` and `trim`. */
module Text {

  predicate IsSpace(c: char) {
    var u := c as int;
    0x09 <= u <= 0x0D || u in {0x20, 0xA0, 0x1680, 0x2028, 0x2029, 0x202F, 0x205F, 0x3000, 0xFEFF}
    || 0x2000 <= u <= 0x200A
  }

  /** The white space and line terminators of ECMAScript, one by one. */
  lemma SpacesAre(c: char)
    ensures IsSpace(c) <==> c as int in {
              0x09, 0x0A, 0x0B, 0x0C, 0x0D, 0x20, 0xA0, 0x1680, 0x2000, 0x2001, 0x2002, 0x2003, 0x2004, 0x2005, 0x2006,
              0x2007, 0x2008, 0x2009, 0x200A, 0x2028, 0x2029, 0x202F, 0x205F, 0x3000, 0xFEFF}
  {
  }

  /** All of `s` outside `s[i..j]` is white space. */
  ghost predicate Outside(s: string, i: nat, j: nat) {
    && i <= j <= |s| && (forall k | 0 <= k < i :: IsSpace(s[k])) && (forall k | j <= k < |s| :: IsSpace(s[k]))
  }

  lemma OutsideFront(s: string, i: nat, j: nat)
    requires s != [] && IsSpace(s[0]) && Outside(s[1..], i, j)
    ensures Outside(s, i + 1, j + 1) && s[1..][i..j] == s[i + 1..j + 1]
  {
    forall k | 0 < k < |s| ensures s[k] == s[1..][k - 1] {
    }
  }

  lemma OutsideBack(s: string, i: nat, j: nat)
    requires s != [] && IsSpace(s[|s| - 1]) && Outside(s[..|s| - 1], i, j)
    ensures Outside(s, i, j) && s[..|s| - 1][i..j] == s[i..j]
  {
    forall k | 0 <= k < |s| - 1 ensures s[k] == s[..|s| - 1][k] {
    }
  }

  /** What is trimmed is white space, at the two ends. */
  lemma {:induction false} TrimCutsTheEnds(s: string) returns (i: nat, j: nat)
    ensures Outside(s, i, j) && Trim(s) == s[i..j]
    decreases |s|
  {
    if s == [] {
      i, j := 0, 0;
    } else if IsSpace(s[0]) {
      i, j := TrimCutsTheEnds(s[1..]);
      OutsideFront(s, i, j);
      i, j := i + 1, j + 1;
    } else if IsSpace(s[|s| - 1]) {
      i, j := TrimCutsTheEnds(s[..|s| - 1]);
      OutsideBack(s, i, j);
    } else {
      i, j := 0, |s|;
    }
  }

  function Trim(s: string): (r: string)
    ensures r != [] ==> !IsSpace(r[0]) && !IsSpace(r[|r| - 1])
    ensures forall c :: c in s && !IsSpace(c) ==> c in r
    decreases |s|
  {
    if s == [] then []
    else if IsSpace(s[0]) then Trim(s[1..])
    else if IsSpace(s[|s| - 1]) then Trim(s[..|s| - 1])
    else s
  }
}
