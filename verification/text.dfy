/** String helpers with the meaning ECMAScript gives them. */
module Text {
  import opened Common

  /** ECMAScript WhiteSpace or LineTerminator: the code points `\s` matches in a
      regular expression and the code points `String.prototype.trim` removes. */
  predicate IsSpace(ch: char) {
    var c := ch as int;
    || c == 0x09 || c == 0x0A || c == 0x0B || c == 0x0C || c == 0x0D || c == 0x20
    || c == 0xA0 || c == 0x1680 || (0x2000 <= c <= 0x200A) || c == 0x2028
    || c == 0x2029 || c == 0x202F || c == 0x205F || c == 0x3000 || c == 0xFEFF
  }

  predicate AllSpaces(s: string) {
    forall i | 0 <= i < |s| :: IsSpace(s[i])
  }

  /** Index of the first non-space character at or after `i` (or `|s|`):
      where a greedy `\s*` starting at `i` stops. */
  function SkipSpaces(s: string, i: nat): (k: nat)
    requires i <= |s|
    ensures i <= k <= |s|
    ensures forall j | i <= j < k :: IsSpace(s[j])
    ensures k < |s| ==> !IsSpace(s[k])
    decreases |s| - i
  {
    if i == |s| || !IsSpace(s[i]) then i else SkipSpaces(s, i + 1)
  }

  /** Length of the prefix `s[..j]` once its trailing spaces are dropped. */
  function TextEnd(s: string, j: nat): (k: nat)
    requires j <= |s|
    ensures k <= j
    ensures forall m | k <= m < j :: IsSpace(s[m])
    ensures k > 0 ==> !IsSpace(s[k - 1])
    decreases j
  {
    if j == 0 || !IsSpace(s[j - 1]) then j else TextEnd(s, j - 1)
  }

  /** `s.trim()`: the slice left after removing leading and trailing spaces. */
  function Trim(s: string): (r: string)
    ensures r == [] <==> AllSpaces(s)
    ensures r != [] ==> !IsSpace(r[0]) && !IsSpace(r[|r| - 1])
    ensures exists i, j :: 0 <= i <= j <= |s| && r == s[i..j] && AllSpaces(s[..i]) && AllSpaces(s[j..])
  {
    var i := SkipSpaces(s, 0);
    if i == |s| then
      assert AllSpaces(s[..i]) && AllSpaces(s[i..]);
      s[i..i]
    else
      var j := TextEnd(s, |s|);
      assert i < j;
      assert AllSpaces(s[..i]) && AllSpaces(s[j..]);
      assert !AllSpaces(s) by { assert !IsSpace(s[i]); }
      s[i..j]
  }

  /** `s.trimEnd()` as the spaces-insensitive tail used by `BigInt` parsing. */
  function TrimEnd(s: string): (r: string)
    ensures |r| <= |s| && r == s[..|r|] && AllSpaces(s[|r|..])
    ensures r != [] ==> !IsSpace(r[|r| - 1])
  {
    s[..TextEnd(s, |s|)]
  }

  predicate OccursAt(s: string, pat: string, i: nat) {
    i + |pat| <= |s| && s[i..i + |pat|] == pat
  }

  /** `s.indexOf(pat, from)`: the first occurrence of `pat` at or after `from`. */
  function IndexOf(s: string, pat: string, from: nat): (r: Option<nat>)
    requires from <= |s|
    ensures r.Some? ==> from <= r.value && OccursAt(s, pat, r.value)
    ensures r.Some? ==> forall i | from <= i < r.value :: !OccursAt(s, pat, i)
    ensures r.None? ==> forall i | from <= i :: !OccursAt(s, pat, i)
    decreases |s| - from
  {
    if from + |pat| > |s| then None
    else if s[from..from + |pat|] == pat then Some(from)
    else if from == |s| then None
    else IndexOf(s, pat, from + 1)
  }

  /** `s.replace(pat, rep)` with a string pattern: only the first occurrence is replaced. */
  function ReplaceFirst(s: string, pat: string, rep: string): (r: string)
    ensures (forall i: nat :: !OccursAt(s, pat, i)) ==> r == s
    ensures forall i: nat | OccursAt(s, pat, i) && (forall j: nat | j < i :: !OccursAt(s, pat, j)) ::
              r == s[..i] + rep + s[i + |pat|..]
  {
    match IndexOf(s, pat, 0)
    case None => s
    case Some(i) => s[..i] + rep + s[i + |pat|..]
  }
}
