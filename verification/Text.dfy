/** String facts the Go standard library supplies to the modelled code: the
    lexicographic order behind `sort.Strings`, and `strings.TrimSpace` and
    `strings.ToLower` as far as configuration validation observes them. */
module Text {

  // ---------- order ----------

  predicate Before(a: string, b: string) {
    if b == [] then false
    else if a == [] then true
    else a[0] < b[0] || (a[0] == b[0] && Before(a[1..], b[1..]))
  }

  /** a and b agree on their first k characters, and there a ends or has the smaller one. */
  ghost predicate SmallerAt(a: string, b: string, k: nat) {
    k <= |a| && k < |b| && a[..k] == b[..k] && (k < |a| ==> a[k] < b[k])
  }

  lemma HeadsAgree(a: string, b: string, k: nat)
    requires SmallerAt(a, b, k) && k > 0
    ensures a != [] && b != [] && a[0] == b[0]
  {
    assert a[0] == a[..k][0] == b[..k][0] == b[0];
  }

  /** The order is the lexicographic one. */
  lemma {:induction false} BeforeIsLexicographic(a: string, b: string)
    ensures Before(a, b) <==> exists k: nat :: SmallerAt(a, b, k)
  {
    forall k: nat | SmallerAt(a, b, k) && k > 0 ensures a != [] && b != [] && a[0] == b[0] {
      HeadsAgree(a, b, k);
    }
    if a == [] || b == [] || a[0] != b[0] {
      if Before(a, b) { assert SmallerAt(a, b, 0); }
    } else {
      BeforeIsLexicographic(a[1..], b[1..]);
      forall k: nat | SmallerAt(a[1..], b[1..], k) ensures SmallerAt(a, b, k + 1) {
        assert a[..k + 1] == [a[0]] + a[1..][..k] && b[..k + 1] == [b[0]] + b[1..][..k];
      }
      forall k: nat | SmallerAt(a, b, k) ensures k > 0 && SmallerAt(a[1..], b[1..], k - 1) {
        assert a[1..][..k - 1] == a[..k][1..] == b[..k][1..] == b[1..][..k - 1];
      }
    }
  }

  predicate AtMost(a: string, b: string) {
    a == b || Before(a, b)
  }

  lemma BeforeTransitive(a: string, b: string, c: string)
    requires Before(a, b) && Before(b, c)
    ensures Before(a, c)
  {}

  lemma BeforeTotal(a: string, b: string)
    ensures a == b || Before(a, b) || Before(b, a)
  {
    if a != [] && b != [] && a[0] == b[0] {
      BeforeTotal(a[1..], b[1..]);
      assert a == [a[0]] + a[1..] && b == [b[0]] + b[1..];
    }
  }

  lemma BeforeAsymmetric(a: string, b: string)
    requires Before(a, b)
    ensures !Before(b, a) && a != b
  {}

  // ---------- sorting ----------

  ghost predicate Sorted(s: seq<string>) {
    forall i, j :: 0 <= i < j < |s| ==> AtMost(s[i], s[j])
  }

  ghost predicate StrictlySorted(s: seq<string>) {
    forall i, j :: 0 <= i < j < |s| ==> Before(s[i], s[j])
  }

  /** The elements of a sequence, forgetting order and multiplicity. */
  ghost function Elems<T>(s: seq<T>): set<T> {
    set x | x in s
  }

  ghost predicate Distinct<T>(s: seq<T>) {
    forall i, j :: 0 <= i < j < |s| ==> s[i] != s[j]
  }

  function InsertSorted(x: string, s: seq<string>): (r: seq<string>)
    ensures multiset(r) == multiset(s) + multiset{x}
  {
    if s == [] then [x]
    else if AtMost(x, s[0]) then [x] + s
    else
      assert s == [s[0]] + s[1..];
      [s[0]] + InsertSorted(x, s[1..])
  }

  lemma InsertKeepsSorted(x: string, s: seq<string>)
    requires Sorted(s)
    ensures Sorted(InsertSorted(x, s))
  {
    hide Before;
    var r := InsertSorted(x, s);
    if s == [] {
    } else if AtMost(x, s[0]) {
      forall i, j | 0 <= i < j < |r| ensures AtMost(r[i], r[j]) {
        if i == 0 && j > 1 && x != s[0] && s[0] != s[j - 1] {
          BeforeTransitive(x, s[0], s[j - 1]);
        }
      }
    } else {
      InsertKeepsSorted(x, s[1..]);
      BeforeTotal(x, s[0]);
      var t := InsertSorted(x, s[1..]);
      forall j | 0 <= j < |t| ensures AtMost(s[0], t[j]) {
        assert t[j] in multiset(t);
        assert t[j] == x || t[j] in s[1..];
      }
    }
  }

  /** `sort.Strings`, as a function of the slice it sorts. */
  function SortStrings(s: seq<string>): (r: seq<string>)
    ensures multiset(r) == multiset(s)
  {
    if s == [] then []
    else
      assert s == [s[0]] + s[1..];
      InsertSorted(s[0], SortStrings(s[1..]))
  }

  lemma SortStringsSorts(s: seq<string>)
    ensures Sorted(SortStrings(s))
  {
    if s != [] {
      SortStringsSorts(s[1..]);
      InsertKeepsSorted(s[0], SortStrings(s[1..]));
    }
  }

  /** A multiset of strings has only one sorted listing. */
  lemma {:induction false} SortedUnique(a: seq<string>, b: seq<string>)
    requires Sorted(a) && Sorted(b) && multiset(a) == multiset(b)
    ensures a == b
  {
    assert |a| == |multiset(a)| == |multiset(b)| == |b|;
    if a != [] {
      assert b[0] in multiset(a) && a[0] in multiset(b);
      assert AtMost(a[0], b[0]) && AtMost(b[0], a[0]);
      if a[0] != b[0] { BeforeAsymmetric(a[0], b[0]); }
      assert a == [a[0]] + a[1..] && b == [b[0]] + b[1..];
      assert multiset(a[1..]) == multiset(a)[a[0] := multiset(a)[a[0]] - 1];
      assert multiset(b[1..]) == multiset(b)[b[0] := multiset(b)[b[0]] - 1];
      SortedUnique(a[1..], b[1..]);
    }
  }

  lemma DistinctSortedIsStrict(s: seq<string>)
    requires Sorted(s) && Distinct(s)
    ensures StrictlySorted(s)
  {}

  lemma StrictIsDistinct(s: seq<string>)
    requires StrictlySorted(s)
    ensures Sorted(s) && Distinct(s)
  {
    forall i, j | 0 <= i < j < |s| ensures s[i] != s[j] {
      BeforeAsymmetric(s[i], s[j]);
    }
  }

  /** In a listing without repetition every element has multiplicity one. */
  lemma DistinctMultiset<T>(s: seq<T>)
    requires Distinct(s)
    ensures multiset(s) == multiset(Elems(s))
  {
    forall x ensures multiset(s)[x] == multiset(Elems(s))[x] {
      if x in s {
        var i :| 0 <= i < |s| && s[i] == x;
        assert s == s[..i] + [x] + s[i + 1..];
        assert x !in s[..i] && x !in s[i + 1..];
      }
    }
  }

  lemma MultisetDistinct<T>(s: seq<T>, r: seq<T>)
    requires Distinct(s) && multiset(r) == multiset(s)
    ensures Distinct(r)
  {
    DistinctMultiset(s);
    forall i, j | 0 <= i < j < |r| ensures r[i] != r[j] {
      assert r == r[..j] + [r[j]] + r[j + 1..];
      assert r[i] in r[..j];
      assert multiset(r)[r[i]] == multiset(s)[r[i]] <= 1;
    }
  }

  /** The strictly sorted listing of a finite set. */
  ghost function SortedList(s: set<string>): (r: seq<string>)
    ensures StrictlySorted(r) && Elems(r) == s
  {
    SortedListExists(s);
    var r :| StrictlySorted(r) && Elems(r) == s;
    r
  }

  lemma SortedListExists(s: set<string>)
    ensures exists r :: StrictlySorted(r) && Elems(r) == s
  {
    var l := Listing(s);
    SortStringsSorts(l);
    MultisetDistinct(l, SortStrings(l));
    DistinctSortedIsStrict(SortStrings(l));
    SameElems(l, SortStrings(l));
  }

  lemma SameElems(a: seq<string>, b: seq<string>)
    requires multiset(a) == multiset(b)
    ensures Elems(a) == Elems(b)
  {
    forall x ensures x in a <==> x in b {
      assert x in multiset(a) <==> x in multiset(b);
    }
  }

  ghost function Listing(s: set<string>): (r: seq<string>)
    ensures Distinct(r) && Elems(r) == s
  {
    if s == {} then []
    else
      var x :| x in s;
      var rest := Listing(s - {x});
      assert Elems([x] + rest) == {x} + Elems(rest);
      [x] + rest
  }

  /** A set has only one strictly sorted listing. */
  lemma SortedListUnique(r: seq<string>)
    requires StrictlySorted(r)
    ensures r == SortedList(Elems(r))
  {
    var l := SortedList(Elems(r));
    StrictIsDistinct(r);
    StrictIsDistinct(l);
    DistinctMultiset(r);
    DistinctMultiset(l);
    SortedUnique(r, l);
  }

  // ---------- normalisation ----------

  /** `unicode.IsSpace`. */
  predicate IsSpace(c: char) {
    c == ' ' || '\U{0009}' <= c <= '\U{000D}' || c == '\U{0085}' || c == '\U{00A0}'
    || c == '\U{1680}' || '\U{2000}' <= c <= '\U{200A}' || c == '\U{2028}' || c == '\U{2029}'
    || c == '\U{202F}' || c == '\U{205F}' || c == '\U{3000}'
  }

  function TrimLeft(s: string): (r: string)
    ensures r == [] || !IsSpace(r[0])
    ensures |r| <= |s| && r == s[|s| - |r|..]
    ensures forall i :: 0 <= i < |s| - |r| ==> IsSpace(s[i])
  {
    if s != [] && IsSpace(s[0]) then TrimLeft(s[1..]) else s
  }

  function TrimRight(s: string): (r: string)
    ensures r == [] || !IsSpace(r[|r| - 1])
    ensures |r| <= |s| && r == s[..|r|]
    ensures forall i :: |r| <= i < |s| ==> IsSpace(s[i])
  {
    if s != [] && IsSpace(s[|s| - 1]) then TrimRight(s[..|s| - 1]) else s
  }

  /** `strings.TrimSpace`. */
  function TrimSpace(s: string): string {
    TrimRight(TrimLeft(s))
  }

  /** `strings.TrimSpace(s) == ""`, said of the characters. */
  ghost predicate Blank(s: string) {
    forall i :: 0 <= i < |s| ==> IsSpace(s[i])
  }

  lemma BlankIffTrimsToNothing(s: string)
    ensures TrimSpace(s) == [] <==> Blank(s)
  {
    var l := TrimLeft(s);
    var t := TrimRight(l);
    if t == [] {
      assert l == [];
    } else {
      assert s[|s| - |l|] == l[0];
    }
  }

  /** `unicode.ToLower`, exact on every character whose lower case is ASCII. The other
      letters with case go to non-ASCII letters in Go and to themselves here, so no
      comparison of a lowered string with an ASCII word is affected. */
  function LowerChar(c: char): char {
    if 'A' <= c <= 'Z' then (c as int + 32) as char
    else if c == '\U{0130}' then 'i'
    else if c == '\U{212A}' then 'k'
    else c
  }

  function ToLower(s: string): (r: string)
    ensures |r| == |s|
    ensures forall i :: 0 <= i < |s| ==> r[i] == LowerChar(s[i])
  {
    seq(|s|, i requires 0 <= i < |s| => LowerChar(s[i]))
  }

  /** What configuration validation stores for a log field. */
  function Normalise(s: string): string {
    ToLower(TrimSpace(s))
  }

  lemma NormaliseIdempotent(s: string)
    ensures Normalise(Normalise(s)) == Normalise(s)
  {
    var t := TrimSpace(s);
    var n := ToLower(t);
    TrimmedIsFixed(s);
    assert forall c :: IsSpace(LowerChar(c)) <==> IsSpace(c);
    assert n == [] || (!IsSpace(n[0]) && !IsSpace(n[|n| - 1]));
    assert TrimLeft(n) == n && TrimRight(n) == n;
    assert forall c :: LowerChar(LowerChar(c)) == LowerChar(c);
    assert ToLower(n) == n;
  }

  lemma TrimmedIsFixed(s: string)
    ensures var t := TrimSpace(s); t == [] || (!IsSpace(t[0]) && !IsSpace(t[|t| - 1]))
  {
    var l := TrimLeft(s);
    var t := TrimRight(l);
    assert t != [] ==> t[0] == l[0];
  }

  // ---------- spellings of a word ----------

  /** c is a spelling of the lower-case letter l: the letter itself, its capital, or one of the
      two other characters whose lower case is an ASCII letter. */
  predicate Spells(c: char, l: char) {
    c == l || c as int + 32 == l as int || (c == '\U{0130}' && l == 'i') || (c == '\U{212A}' && l == 'k')
  }

  predicate Lowercase(w: string) {
    forall i :: 0 <= i < |w| ==> 'a' <= w[i] <= 'z'
  }

  /** s is w in any case, letter by letter, with white space before position a and from b on. */
  ghost predicate Spelling(s: string, w: string, a: nat, b: nat) {
    && a <= b <= |s| && b - a == |w|
    && (forall i :: 0 <= i < a || b <= i < |s| ==> IsSpace(s[i]))
    && (forall i :: 0 <= i < |w| ==> Spells(s[a + i], w[i]))
  }

  ghost predicate IsSpelling(s: string, w: string) {
    exists a: nat, b: nat :: Spelling(s, w, a, b)
  }

  lemma LowerSpells(c: char, l: char)
    requires 'a' <= l <= 'z'
    ensures LowerChar(c) == l <==> Spells(c, l)
    ensures Spells(c, l) ==> !IsSpace(c)
  {}

  /** A log word is recognised in every spelling, whatever the case of each letter and whatever
      white space surrounds it, and in no other string. */
  lemma NormalisesTo(s: string, w: string)
    requires w != [] && Lowercase(w)
    ensures Normalise(s) == w <==> IsSpelling(s, w)
  {
    if Normalise(s) == w { NormalisedIsSpelled(s, w); }
    forall a: nat, b: nat | Spelling(s, w, a, b) ensures Normalise(s) == w {
      SpelledNormalises(s, w, a, b);
    }
  }

  /** What TrimSpace keeps: everything between two runs of white space. */
  lemma TrimKeeps(s: string) returns (a: nat, b: nat)
    ensures a <= b <= |s| && TrimSpace(s) == s[a..b]
    ensures forall i :: 0 <= i < a || b <= i < |s| ==> IsSpace(s[i])
  {
    hide IsSpace, TrimLeft, TrimRight;
    var l := TrimLeft(s);
    var t := TrimRight(l);
    a, b := |s| - |l|, |s| - |l| + |t|;
    assert l == s[a..] && t == l[..|t|];
    forall i | b <= i < |s| ensures IsSpace(s[i]) {
      assert l[i - a] == s[i];
    }
  }

  lemma NormalisedIsSpelled(s: string, w: string)
    requires Lowercase(w) && Normalise(s) == w
    ensures exists a: nat, b: nat :: Spelling(s, w, a, b)
  {
    hide IsSpace, LowerChar, Spells, TrimSpace;
    var a, b := TrimKeeps(s);
    forall i | 0 <= i < |w| ensures Spells(s[a + i], w[i]) {
      assert TrimSpace(s)[i] == s[a + i];
      LowerSpells(s[a + i], w[i]);
    }
    assert Spelling(s, w, a, b);
  }

  lemma {:induction false} TrimLeftTo(s: string, a: nat)
    requires a < |s| && !IsSpace(s[a]) && forall i :: 0 <= i < a ==> IsSpace(s[i])
    ensures TrimLeft(s) == s[a..]
  {
    hide IsSpace;
    if a > 0 { TrimLeftTo(s[1..], a - 1); }
  }

  lemma {:induction false} TrimRightTo(s: string, b: nat)
    requires 0 < b <= |s| && !IsSpace(s[b - 1]) && forall i :: b <= i < |s| ==> IsSpace(s[i])
    ensures TrimRight(s) == s[..b]
  {
    hide IsSpace;
    if b < |s| { TrimRightTo(s[..|s| - 1], b); }
  }

  lemma SpelledNormalises(s: string, w: string, a: nat, b: nat)
    requires w != [] && Lowercase(w) && Spelling(s, w, a, b)
    ensures Normalise(s) == w
  {
    hide IsSpace, LowerChar, Spells, TrimLeft, TrimRight;
    SpelledChar(s, w, a, b, 0);
    SpelledChar(s, w, a, b, |w| - 1);
    TrimLeftTo(s, a);
    TrimRightTo(s[a..], b - a);
    var t := TrimSpace(s);
    assert t == s[a..b];
    forall i | 0 <= i < |w| ensures LowerChar(t[i]) == w[i] {
      SpelledChar(s, w, a, b, i);
    }
  }

  lemma SpelledChar(s: string, w: string, a: nat, b: nat, i: nat)
    requires Lowercase(w) && Spelling(s, w, a, b) && i < |w|
    ensures LowerChar(s[a + i]) == w[i] && !IsSpace(s[a + i])
  {
    LowerSpells(s[a + i], w[i]);
  }
}
