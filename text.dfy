/** The few Python string operations the chat assistant relies on:
    substring test (`pat in s`), `str(n)` for a natural number and `sep.join(items)`. */
module Text {

  /** `pat` occurs in `s` starting at index `i`. */
  predicate OccursAt(s: string, pat: string, i: int)
  {
    0 <= i && i + |pat| <= |s| && s[i..i + |pat|] == pat
  }

  /** An occurrence in `s` is one at its head or one in its tail. */
  lemma OccursInTail(s: string, pat: string)
    requires |s| > 0
    ensures (exists i :: OccursAt(s, pat, i)) <==> OccursAt(s, pat, 0) || exists j :: OccursAt(s[1..], pat, j)
  {
    if exists i :: OccursAt(s, pat, i) && i != 0 {
      var i :| OccursAt(s, pat, i) && i != 0;
      assert s[1..][i - 1..i - 1 + |pat|] == s[i..i + |pat|];
      assert OccursAt(s[1..], pat, i - 1);
    }
    if exists j :: OccursAt(s[1..], pat, j) {
      var j :| OccursAt(s[1..], pat, j);
      assert s[1..][j..j + |pat|] == s[j + 1..j + 1 + |pat|];
      assert OccursAt(s, pat, j + 1);
    }
  }

  /** Python's `pat in s`: true iff `pat` occurs somewhere in `s` (the empty pattern occurs everywhere). */
  function Contains(s: string, pat: string): (r: bool)
    ensures r <==> exists i :: OccursAt(s, pat, i)
    decreases |s|
  {
    if |s| < |pat| then false
    else if s[..|pat|] == pat then assert OccursAt(s, pat, 0); true
    else
      assert !OccursAt(s, pat, 0) by { assert s[0..|pat|] == s[..|pat|]; }
      OccursInTail(s, pat);
      Contains(s[1..], pat)
  }

  /** Whatever surrounds it, a string contains each of its own pieces. */
  lemma ContainsPiece(a: string, p: string, b: string)
    ensures Contains(a + p + b, p)
  {
    assert (a + p + b)[|a|..|a| + |p|] == p;
    assert OccursAt(a + p + b, p, |a|);
  }

  /** Containment is transitive. */
  lemma ContainsTransitive(s: string, mid: string, pat: string)
    requires Contains(s, mid) && Contains(mid, pat)
    ensures Contains(s, pat)
  {
    var i :| OccursAt(s, mid, i);
    var j :| OccursAt(mid, pat, j);
    forall t | 0 <= t < |pat|
      ensures s[i + j + t] == pat[t]
    {
      assert s[i..i + |mid|][j + t] == s[i + j + t];
      assert mid[j..j + |pat|][t] == mid[j + t];
    }
    assert s[i + j..i + j + |pat|] == pat;
    assert OccursAt(s, pat, i + j);
  }

  /** `''.join(pieces)`; an f-string is the concatenation of its literal parts and its fields. */
  function Concat(pieces: seq<string>): string
  {
    if pieces == [] then [] else pieces[0] + Concat(pieces[1..])
  }

  /** Every piece of a concatenation can be found in it. */
  lemma {:induction false} ConcatContains(pieces: seq<string>, k: nat)
    requires k < |pieces|
    ensures Contains(Concat(pieces), pieces[k])
  {
    if k == 0 {
      ContainsPiece([], pieces[0], Concat(pieces[1..]));
      assert [] + pieces[0] + Concat(pieces[1..]) == Concat(pieces);
    } else {
      ConcatContains(pieces[1..], k - 1);
      var rest := Concat(pieces[1..]);
      var i :| OccursAt(rest, pieces[k], i);
      assert Concat(pieces)[|pieces[0]| + i..|pieces[0]| + i + |pieces[k]|] == rest[i..i + |pieces[k]|];
      assert OccursAt(Concat(pieces), pieces[k], |pieces[0]| + i);
    }
  }

  /** An f-string as its literal parts with one field between each two of them. */
  function Interleave(texts: seq<string>, fields: seq<string>): (r: seq<string>)
    requires |texts| == |fields| + 1
    ensures |r| == 2 * |fields| + 1
    ensures forall k :: 0 <= k < |texts| ==> r[2 * k] == texts[k]
    ensures forall k :: 0 <= k < |fields| ==> r[2 * k + 1] == fields[k]
  {
    if fields == [] then [texts[0]]
    else
      var rest := Interleave(texts[1..], fields[1..]);
      assert forall k :: 1 <= k < |texts| ==> rest[2 * (k - 1)] == texts[k];
      assert forall k :: 1 <= k < |fields| ==> rest[2 * (k - 1) + 1] == fields[k];
      [texts[0], fields[0]] + rest
  }

  /** Every field of an f-string can be found in the text it renders to. */
  lemma FieldRendered(texts: seq<string>, fields: seq<string>, k: nat)
    requires |texts| == |fields| + 1 && k < |fields|
    ensures Contains(Concat(Interleave(texts, fields)), fields[k])
  {
    ConcatContains(Interleave(texts, fields), 2 * k + 1);
  }

  predicate IsDigit(c: char)
  {
    '0' <= c <= '9'
  }

  function DigitChar(d: nat): (c: char)
    requires d < 10
    ensures IsDigit(c)
  {
    "0123456789"[d]
  }

  function DigitValue(c: char): nat
    requires IsDigit(c)
  {
    c as int - '0' as int
  }

  /** Python's `str(n)` for a natural number: its decimal digits, most significant first. */
  function NatToString(n: nat): (r: string)
    ensures |r| > 0
    ensures forall i :: 0 <= i < |r| ==> IsDigit(r[i])
    decreases n
  {
    if n < 10 then [DigitChar(n)] else NatToString(n / 10) + [DigitChar(n % 10)]
  }

  /** Reads a non-empty string of decimal digits back as a number. */
  function ParseNat(s: string): nat
    requires forall i :: 0 <= i < |s| ==> IsDigit(s[i])
  {
    if s == [] then 0 else ParseNat(s[..|s| - 1]) * 10 + DigitValue(s[|s| - 1])
  }

  /** `str(n)` loses nothing: the digits read back as `n`. */
  lemma {:induction false} NatToStringRoundTrip(n: nat)
    ensures ParseNat(NatToString(n)) == n
    decreases n
  {
    var r := NatToString(n);
    if n < 10 {
      assert r[..0] == [];
    } else {
      NatToStringRoundTrip(n / 10);
      assert r[..|r| - 1] == NatToString(n / 10);
    }
  }

  /** Python's `sep.join(items)`. */
  function Join(items: seq<string>, sep: string): (r: string)
    ensures items == [] ==> r == []
    ensures forall k :: 0 <= k < |items| ==> Contains(r, items[k])
  {
    if items == [] then []
    else if |items| == 1 then items[0]
    else
      var rest := Join(items[1..], sep);
      assert Contains(items[0] + sep + rest, items[0]) by { ContainsPiece([], items[0], sep + rest); assert [] + items[0] + (sep + rest) == items[0] + sep + rest; }
      forall k | 1 <= k < |items|
        ensures Contains(items[0] + sep + rest, items[k])
      {
        assert items[1..][k - 1] == items[k];
        var i :| OccursAt(rest, items[k], i);
        assert (items[0] + sep + rest)[|items[0] + sep| + i..|items[0] + sep| + i + |items[k]|] == rest[i..i + |items[k]|];
        assert OccursAt(items[0] + sep + rest, items[k], |items[0] + sep| + i);
      }
      items[0] + sep + rest
  }
}
