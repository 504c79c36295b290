/**
 * The three built-in string operations the pages rely on:
 * `String.prototype.toLowerCase` (on ASCII letters only),
 * `String.prototype.includes`, and `String.prototype.replace` called with a
 * one-character string pattern and an empty replacement, which removes the
 * first occurrence of that character and nothing else.
 */
module JsText {

  predicate IsUpper(c: char) {
    'A' <= c <= 'Z'
  }

  /** Lower-case mapping of one character (ASCII letters only). */
  function LowerChar(c: char): (r: char)
    ensures !IsUpper(r)
    ensures IsUpper(c) ==> r as int - c as int == 'a' as int - 'A' as int
    ensures !IsUpper(c) ==> r == c
  {
    if IsUpper(c) then (c as int - 'A' as int + 'a' as int) as char else c
  }

  /** `s.toLowerCase()`, each character mapped on its own. */
  function ToLower(s: string): (r: string)
    ensures |r| == |s|
    ensures forall i :: 0 <= i < |s| ==> r[i] == LowerChar(s[i])
  {
    seq(|s|, i requires 0 <= i < |s| => LowerChar(s[i]))
  }

  /** Lower-casing a string that is already lower case changes nothing. */
  lemma ToLowerIdempotent(s: string)
    ensures ToLower(ToLower(s)) == ToLower(s)
  {
    var once := ToLower(s);
    assert forall i :: 0 <= i < |once| ==> ToLower(once)[i] == once[i];
  }

  /** `t` occurs in `s` starting at index `i`. */
  ghost predicate OccursAt(s: string, t: string, i: int) {
    0 <= i <= |s| && t <= s[i..]
  }

  /** `s.includes(t)`: `t` is a substring of `s`; the empty string is in every string. */
  function Includes(s: string, t: string): (r: bool)
    ensures r <==> exists i :: OccursAt(s, t, i)
    decreases |s|
  {
    if t <= s then
      assert OccursAt(s, t, 0);
      true
    else if s == [] then
      false
    else
      OccursShift(s, t);
      Includes(s[1..], t)
  }

  /** When `t` is not a prefix of `s`, it occurs in `s` exactly when it occurs in `s[1..]`. */
  lemma OccursShift(s: string, t: string)
    requires s != [] && !(t <= s)
    ensures (exists i :: OccursAt(s, t, i)) <==> (exists i :: OccursAt(s[1..], t, i))
  {
    if i :| OccursAt(s[1..], t, i) {
      assert s[1..][i..] == s[i + 1..];
      assert OccursAt(s, t, i + 1);
    }
    if i :| OccursAt(s, t, i) {
      assert s[i..] == s[1..][i - 1..];
      assert OccursAt(s[1..], t, i - 1);
    }
  }

  /** Concatenation regrouped: `a + (b + c)` is `(a + b) + c`. */
  lemma Regroup(a: string, b: string, c: string)
    ensures a + (b + c) == (a + b) + c
  {
  }

  /** Index `i` holds the first `c` of `s`. */
  ghost predicate FirstAt(s: string, c: char, i: int) {
    0 <= i < |s| && s[i] == c && c !in s[..i]
  }

  /** `s.replace(c, '')` for a one-character pattern: only the first `c` is removed. */
  function RemoveFirst(s: string, c: char): (r: string)
    ensures c !in s ==> r == s
    ensures c in s ==> exists i :: FirstAt(s, c, i) && r == s[..i] + s[i + 1..]
  {
    if s == [] then
      []
    else if s[0] == c then
      assert FirstAt(s, c, 0) && s[..0] + s[1..] == s[1..];
      s[1..]
    else
      RemoveFirstCons(s, c, RemoveFirst(s[1..], c));
      [s[0]] + RemoveFirst(s[1..], c)
  }

  /** Putting back a first character that is not `c` keeps the first `c` the one removed. */
  lemma RemoveFirstCons(s: string, c: char, rest: string)
    requires s != [] && s[0] != c
    requires c !in s[1..] ==> rest == s[1..]
    requires c in s[1..] ==> exists i :: FirstAt(s[1..], c, i) && rest == s[1..][..i] + s[1..][i + 1..]
    ensures c !in s ==> [s[0]] + rest == s
    ensures c in s ==> exists i :: FirstAt(s, c, i) && [s[0]] + rest == s[..i] + s[i + 1..]
  {
    assert s == [s[0]] + s[1..];
    if c in s[1..] {
      var i :| FirstAt(s[1..], c, i) && rest == s[1..][..i] + s[1..][i + 1..];
      assert s[..i + 1] == [s[0]] + s[1..][..i];
      assert s[i + 2..] == s[1..][i + 1..];
      Regroup([s[0]], s[1..][..i], s[1..][i + 1..]);
      assert FirstAt(s, c, i + 1);
    }
  }

  /** In `a + [c] + b` with no `c` in `a`, the first `c` is at index `|a|`. */
  lemma FirstAtSplit(a: string, c: char, b: string, i: int)
    requires c !in a && FirstAt(a + [c] + b, c, i)
    ensures i == |a|
  {
    var s := a + [c] + b;
    if |a| < i {
      InPrefix(s, c, |a|, i);
    }
  }

  /** A `c` at index `j` lies in every prefix longer than `j`. */
  lemma InPrefix(s: string, c: char, j: int, k: int)
    requires 0 <= j < k <= |s| && s[j] == c
    ensures c in s[..k]
  {
    assert s[..k][j] == c;
  }

  /** Removing the first `c` from `a + [c] + b`, where `a` holds no `c`, leaves `a + b`. */
  lemma RemoveFirstSplit(a: string, c: char, b: string)
    requires c !in a
    ensures RemoveFirst(a + [c] + b, c) == a + b
  {
    var s := a + [c] + b;
    assert s[|a|] == c;
    var r := RemoveFirst(s, c);
    assert exists i :: FirstAt(s, c, i) && r == s[..i] + s[i + 1..];
    var i :| FirstAt(s, c, i) && RemoveFirst(s, c) == s[..i] + s[i + 1..];
    FirstAtSplit(a, c, b, i);
    assert s[..|a|] == a && s[|a| + 1..] == b;
  }
}
