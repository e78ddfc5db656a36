/** The text operations the services use. */
module Text {

  /** White space and line ends as ECMAScript's `trim` removes them. */
  predicate IsSpace(c: char) {
    var n := c as int;
    9 <= n <= 13 || n == 32 || n == 160 || n == 5760 || 8192 <= n <= 8202 || n == 8232 || n == 8233 ||
    n == 8239 || n == 8287 || n == 12288 || n == 65279
  }

  function Trim(s: string): (t: string)
    ensures |t| <= |s|
    ensures t != "" ==> !IsSpace(t[0]) && !IsSpace(t[|t| - 1])
    ensures s != "" && !IsSpace(s[0]) && !IsSpace(s[|s| - 1]) ==> t == s
  {
    if s == "" then ""
    else if IsSpace(s[0]) then Trim(s[1..])
    else if IsSpace(s[|s| - 1]) then Trim(s[..|s| - 1])
    else s
  }

  /** Only white space is taken off, and only at the ends. */
  lemma {:induction false} TrimIs(s: string) returns (i: nat, j: nat)
    ensures i <= j <= |s| && Trim(s) == s[i..j]
    ensures forall k | 0 <= k < |s| && !(i <= k < j) :: IsSpace(s[k])
    decreases |s|
  {
    hide IsSpace;
    if s == "" { i, j := 0, 0; }
    else if IsSpace(s[0]) {
      var rest := s[1..];
      i, j := TrimIs(rest);
      assert rest[i..j] == s[i + 1..j + 1];
      forall k | 0 <= k < |s| && !(i + 1 <= k < j + 1) ensures IsSpace(s[k]) {
        if k > 0 { assert s[k] == rest[k - 1]; }
      }
      i, j := i + 1, j + 1;
    } else if IsSpace(s[|s| - 1]) {
      var rest := s[..|s| - 1];
      i, j := TrimIs(rest);
      assert rest[i..j] == s[i..j];
      forall k | 0 <= k < |s| && !(i <= k < j) ensures IsSpace(s[k]) {
        if k < |s| - 1 { assert s[k] == rest[k]; }
      }
    } else {
      i, j := 0, |s|;
    }
  }

  lemma {:induction false} TrimKeeps(s: string, i: nat)
    requires i < |s| && !IsSpace(s[i])
    ensures Trim(s) != ""
    decreases |s|
  {
    if IsSpace(s[0]) { TrimKeeps(s[1..], i - 1); }
    else if IsSpace(s[|s| - 1]) { TrimKeeps(s[..|s| - 1], i); }
  }
}
