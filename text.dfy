/** Strings as the marketplace compares them: ASCII case folding (standing in for
    Java's toLowerCase / equalsIgnoreCase), substring containment, and the two
    name scans the registries use, "first match" and "last match". */
module Text {

  function ToLowerChar(c: char): (r: char)
  {
    if 'A' <= c <= 'Z' then (c as int + 32) as char else c
  }

  function ToUpperChar(c: char): (r: char)
  {
    if 'a' <= c <= 'z' then (c as int - 32) as char else c
  }

  function ToLower(s: string): (r: string)
    ensures |r| == |s|
    ensures forall i :: 0 <= i < |s| ==> r[i] == ToLowerChar(s[i])
  {
    seq(|s|, i requires 0 <= i < |s| => ToLowerChar(s[i]))
  }

  /** Java's `a.equalsIgnoreCase(b)` on ASCII text. */
  predicate EqualsIgnoreCase(a: string, b: string)
  {
    ToLower(a) == ToLower(b)
  }

  /** Java's `s.contains(q)`: `q` occurs as a contiguous block of `s`. */
  predicate Contains(s: string, q: string)
  {
    exists i :: 0 <= i <= |s| - |q| && OccursAt(s, q, i)
  }

  predicate OccursAt(s: string, q: string, i: int)
  {
    0 <= i <= |s| - |q| && s[i..i + |q|] == q
  }

  lemma ExactImpliesIgnoreCase(a: string, b: string)
    requires a == b
    ensures EqualsIgnoreCase(a, b)
  {
  }

  /** Case-insensitive equality is not exact equality: "Abc" and "abc" differ. */
  lemma IgnoreCaseIsCoarser()
    ensures EqualsIgnoreCase("Abc", "abc") && "Abc" != "abc"
  {
    assert ToLower("Abc") == "abc" by {
      assert ToLower("Abc")[0] == 'a';
    }
    assert ToLower("abc") == "abc";
    assert "Abc"[0] != "abc"[0];
  }

  lemma EmptyContained(s: string)
    ensures Contains(s, "")
  {
    assert OccursAt(s, "", 0);
  }

  /** Index of the first name equal to `q` ignoring case, or -1. */
  function FirstIgnoreCase(names: seq<string>, q: string): (k: int)
    ensures -1 <= k < |names|
    ensures k == -1 <==> forall j {:trigger EqualsIgnoreCase(names[j], q)} :: 0 <= j < |names| ==> !EqualsIgnoreCase(names[j], q)
    ensures k >= 0 ==> EqualsIgnoreCase(names[k], q)
    ensures k >= 0 ==> forall j {:trigger EqualsIgnoreCase(names[j], q)} :: 0 <= j < k ==> !EqualsIgnoreCase(names[j], q)
  {
    if names == [] then -1
    else if EqualsIgnoreCase(names[0], q) then 0
    else
      var k := FirstIgnoreCase(names[1..], q);
      if k < 0 then -1 else k + 1
  }

  /** Index of the last name equal to `q` ignoring case, or -1. */
  function LastIgnoreCase(names: seq<string>, q: string): (k: int)
    ensures -1 <= k < |names|
    ensures k == -1 <==> forall j {:trigger EqualsIgnoreCase(names[j], q)} :: 0 <= j < |names| ==> !EqualsIgnoreCase(names[j], q)
    ensures k >= 0 ==> EqualsIgnoreCase(names[k], q)
    ensures k >= 0 ==> forall j {:trigger EqualsIgnoreCase(names[j], q)} :: k < j < |names| ==> !EqualsIgnoreCase(names[j], q)
  {
    if names == [] then -1
    else if EqualsIgnoreCase(names[|names| - 1], q) then |names| - 1
    else LastIgnoreCase(names[..|names| - 1], q)
  }
}
