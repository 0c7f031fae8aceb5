/** Substring containment on strings, with the meaning of Python's `sub in s`:
    case-sensitive, character-for-character, and the empty string occurs in
    every string; and the joining of adjacent string fragments. */
module Strings {

  /** `sub` occurs in `s` starting at position `i`. */
  predicate OccursAt(s: string, sub: string, i: int)
  {
    0 <= i && i + |sub| <= |s| && s[i..i + |sub|] == sub
  }

  /** Reference meaning of `sub in s`: some position holds an occurrence. */
  ghost predicate HasSubstring(s: string, sub: string): (b: bool)
    ensures |sub| == 0 ==> b
    ensures b ==> |sub| <= |s|
  {
    assert |sub| == 0 ==> OccursAt(s, sub, 0);
    exists i :: OccursAt(s, sub, i)
  }

  /** `sub` is a prefix of `s`, as Python's `s.startswith(sub)`. */
  predicate StartsWith(s: string, sub: string)
  {
    |sub| <= |s| && s[..|sub|] == sub
  }

  /** Occurrences in the tail of `s` are the occurrences in `s` shifted by one. */
  lemma ShiftOccurrence(s: string, sub: string, i: int)
    requires |s| > 0 && 0 <= i
    ensures OccursAt(s[1..], sub, i) <==> OccursAt(s, sub, i + 1)
  {
    if 0 <= i && i + |sub| <= |s| - 1 {
      assert s[1..][i..i + |sub|] == s[i + 1..i + 1 + |sub|];
    }
  }

  /** Left-to-right scan for `sub` in `s`; the result is exactly the reference
      meaning of Python's `in`. */
  function Contains(s: string, sub: string): (b: bool)
    ensures b <==> HasSubstring(s, sub)
    decreases |s|
  {
    if |s| < |sub| then
      assert forall i :: !OccursAt(s, sub, i);
      false
    else if StartsWith(s, sub) then
      assert OccursAt(s, sub, 0);
      true
    else
      var rest := Contains(s[1..], sub);
      assert rest ==> HasSubstring(s, sub) by {
        if rest {
          var i :| OccursAt(s[1..], sub, i);
          ShiftOccurrence(s, sub, i);
        }
      }
      assert HasSubstring(s, sub) ==> rest by {
        if HasSubstring(s, sub) {
          var i :| OccursAt(s, sub, i);
          assert i != 0;
          ShiftOccurrence(s, sub, i - 1);
        }
      }
      rest
  }

  /** A string that contains `sub` keeps containing it whatever is put
      around it. */
  lemma OccursInContext(p: string, s: string, q: string, sub: string, i: int)
    requires OccursAt(s, sub, i)
    ensures OccursAt(p + s + q, sub, |p| + i)
  {
    var t := p + s + q;
    forall k | 0 <= k < |sub|
      ensures t[|p| + i + k] == sub[k]
    {
      assert s[i..i + |sub|][k] == s[i + k];
    }
    assert t[|p| + i..|p| + i + |sub|] == sub;
  }

  /** An occurrence at `i` matches `sub` character by character. */
  lemma OccurrenceCharacter(s: string, sub: string, i: int, k: int)
    requires OccursAt(s, sub, i) && 0 <= k < |sub|
    ensures s[i + k] == sub[k]
  {
    assert s[i..i + |sub|][k] == s[i + k];
  }

  /** Matching is case-sensitive: if some character of `sub` (say an upper-case
      letter) appears nowhere in `s`, then `sub` does not occur in `s`. */
  lemma AbsentCharacter(s: string, sub: string, k: int)
    requires 0 <= k < |sub|
    requires forall j :: 0 <= j < |s| ==> s[j] != sub[k]
    ensures !HasSubstring(s, sub)
  {
    forall i | OccursAt(s, sub, i)
      ensures false
    {
      OccurrenceCharacter(s, sub, i, k);
    }
  }

  /** The string made by writing the fragments one after another, as adjacent
      string literals in Python are joined. */
  function Join(parts: seq<string>): (r: string)
    ensures |parts| > 0 ==> StartsWith(r, parts[0])
    ensures forall k :: 0 <= k < |parts| ==> |parts[k]| <= |r|
  {
    if parts == [] then "" else parts[0] + Join(parts[1..])
  }

  /** Every fragment occurs in the joined string, right after the fragments
      that precede it. */
  lemma {:induction false} JoinPart(parts: seq<string>, k: int)
    requires 0 <= k < |parts|
    ensures OccursAt(Join(parts), parts[k], |Join(parts[..k])|)
  {
    var rest := Join(parts[1..]);
    if k == 0 {
      OccursInContext("", parts[0], rest, parts[0], 0);
      assert "" + parts[0] + rest == Join(parts);
    } else {
      JoinPart(parts[1..], k - 1);
      assert parts[1..][k - 1] == parts[k];
      assert parts[..k] == [parts[0]] + parts[1..][..k - 1];
      assert Join(parts[..k]) == parts[0] + Join(parts[1..][..k - 1]);
      OccursInContext(parts[0], rest, "", parts[k], |Join(parts[1..][..k - 1])|);
      assert parts[0] + rest + "" == Join(parts);
    }
  }
}
