/** The `class` attribute of an element and the DOMTokenList operations the
    script applies to it.

    An attribute is kept as its whitespace-separated tokens in document order.
    Assigning `className` directly may leave duplicates; every `classList.add`
    or `classList.remove` first parses the attribute as an ordered set (first
    occurrences kept) and writes that set back, so after any such call the
    tokens are duplicate-free. */
module ClassList {

  type Classes = seq<string>

  /** The token the border control adds for the animated rainbow border. */
  const BorderRainbow: string := "border-rainbow"

  /** Every floating-heart colour token starts with this. */
  const FloatingPrefix: string := "floating-color-"

  /** `pat` occurs in `tok` starting at index `i`. */
  predicate OccursAt(pat: string, tok: string, i: int)
  {
    0 <= i && i + |pat| <= |tok| && tok[i..i + |pat|] == pat
  }

  predicate NoDup(s: Classes)
  {
    forall i, j :: 0 <= i < j < |s| ==> s[i] != s[j]
  }

  /** The ordered set a DOMTokenList parses from the attribute. */
  function Dedup(s: Classes): (r: Classes)
    ensures NoDup(r)
    ensures forall t :: t in r <==> t in s
    ensures |r| <= |s|
  {
    if |s| == 0 then []
    else
      var init := s[..|s| - 1];
      assert s == init + [s[|s| - 1]];
      var d := Dedup(init);
      if s[|s| - 1] in d then d else d + [s[|s| - 1]]
  }

  /** A duplicate-free attribute parses to itself. */
  lemma {:induction false} DedupNoDup(s: Classes)
    requires NoDup(s)
    ensures Dedup(s) == s
  {
    if |s| > 0 {
      var init := s[..|s| - 1];
      assert s == init + [s[|s| - 1]];
      assert NoDup(init);
      DedupNoDup(init);
      assert s[|s| - 1] !in init;
    }
  }

  /** The tokens of `s` other than `t`, in order. */
  function Without(s: Classes, t: string): (r: Classes)
    ensures forall u :: u in r <==> u in s && u != t
    ensures NoDup(s) ==> NoDup(r)
    ensures t !in s ==> r == s
  {
    if |s| == 0 then []
    else
      var rest := Without(s[1..], t);
      if NoDup(s) then
        TailNoDup(s);
        if s[0] == t then rest else PrependNoDup(s[0], rest); [s[0]] + rest
      else
        (if s[0] == t then [] else [s[0]]) + rest
  }

  lemma TailNoDup(s: Classes)
    requires |s| > 0 && NoDup(s)
    ensures NoDup(s[1..]) && s[0] !in s[1..]
  {
    forall i, j | 0 <= i < j < |s[1..]|
      ensures s[1..][i] != s[1..][j]
    {
      assert s[1..][i] == s[i + 1] && s[1..][j] == s[j + 1];
    }
  }

  lemma PrependNoDup(x: string, rest: Classes)
    requires x !in rest && NoDup(rest)
    ensures NoDup([x] + rest)
  {
    var r := [x] + rest;
    forall i, j | 0 <= i < j < |r|
      ensures r[i] != r[j]
    {
      assert r[j] == rest[j - 1];
      if i > 0 {
        assert r[i] == rest[i - 1];
      }
    }
  }

  /** The ASCII whitespace a token list splits on: tab, line feed, form
      feed, carriage return and space. */
  predicate IsAsciiWhitespace(c: char)
  {
    c == ' ' || c == '\t' || c == '\n' || c == '\U{000C}' || c == '\r'
  }

  /** A string `classList.add` accepts: non-empty and free of ASCII
      whitespace. Any other string makes `add` throw and change nothing. */
  predicate IsToken(t: string)
  {
    |t| > 0 && forall i :: 0 <= i < |t| ==> !IsAsciiWhitespace(t[i])
  }

  /** `classList.remove(t)`. */
  function Remove(s: Classes, t: string): (r: Classes)
    ensures NoDup(r)
    ensures forall u :: u in r <==> u in s && u != t
  {
    Without(Dedup(s), t)
  }

  /** `classList.add(t)`: a token not yet present goes to the end. */
  function Add(s: Classes, t: string): (r: Classes)
    ensures NoDup(r)
    ensures forall u :: u in r <==> u in s || u == t
    ensures t !in s ==> r[|r| - 1] == t
  {
    var d := Dedup(s);
    if t in d then d else d + [t]
  }

  /** Removing a token twice is removing it once. */
  lemma RemoveIdempotent(s: Classes, t: string)
    ensures Remove(Remove(s, t), t) == Remove(s, t)
  {
    DedupNoDup(Remove(s, t));
  }

  /** Adding a token twice is adding it once. */
  lemma AddIdempotent(s: Classes, t: string)
    ensures Add(Add(s, t), t) == Add(s, t)
  {
    DedupNoDup(Add(s, t));
  }
}
