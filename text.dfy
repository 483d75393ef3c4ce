/** The parts of Go's `strings`, `sort` and `strconv` packages that the
    assistant relies on, over `seq<char>` (and over any sequence where the
    operation does not depend on characters). Go strings are byte strings;
    UTF-8 preserves code-point order, so comparing code points orders
    strings exactly as Go's byte comparison does. */
module Text {

  /** Go's `unicode.IsSpace`: the ASCII blanks, NEL, NBSP and the other
      characters with Unicode's White_Space property. */
  predicate IsSpace(c: char) {
    c == ' ' || c == '\t' || c == '\n' || c == '\r' || c == '\U{0B}' || c == '\U{0C}'
    || c == '\U{85}' || c == '\U{A0}' || c == '\U{1680}'
    || ('\U{2000}' <= c <= '\U{200A}')
    || c == '\U{2028}' || c == '\U{2029}' || c == '\U{202F}' || c == '\U{205F}' || c == '\U{3000}'
  }

  predicate NoSpace(w: string) {
    forall i :: 0 <= i < |w| ==> !IsSpace(w[i])
  }

  /** A non-empty run of non-space characters, as `strings.Fields` yields. */
  predicate IsWord(w: string) {
    w != [] && NoSpace(w)
  }

  // ---------------------------------------------------------------------
  // Prefixes, suffixes, substrings

  predicate HasPrefix<T(==)>(s: seq<T>, p: seq<T>) {
    |p| <= |s| && s[..|p|] == p
  }

  predicate HasSuffix<T(==)>(s: seq<T>, p: seq<T>) {
    |p| <= |s| && s[|s| - |p|..] == p
  }

  /** `strings.TrimPrefix`. */
  function TrimPrefix<T(==)>(s: seq<T>, p: seq<T>): (r: seq<T>)
    ensures HasPrefix(s, p) ==> p + r == s
    ensures !HasPrefix(s, p) ==> r == s
  {
    if HasPrefix(s, p) then s[|p|..] else s
  }

  predicate OccursAt<T(==)>(s: seq<T>, sub: seq<T>, i: int) {
    0 <= i && i + |sub| <= |s| && s[i..i + |sub|] == sub
  }

  /** The first occurrence of `sub` in `s` at or after `from`, or -1. */
  function IndexFrom<T(==)>(s: seq<T>, sub: seq<T>, from: nat): (r: int)
    requires from <= |s|
    ensures r == -1 || (from <= r && OccursAt(s, sub, r))
    ensures r == -1 ==> forall j :: from <= j <= |s| ==> !OccursAt(s, sub, j)
    ensures r != -1 ==> forall j :: from <= j < r ==> !OccursAt(s, sub, j)
    decreases |s| - from
  {
    if OccursAt(s, sub, from) then from
    else if from == |s| then -1
    else IndexFrom(s, sub, from + 1)
  }

  /** `strings.Index`: the position of the first occurrence, or -1. */
  function Index<T(==)>(s: seq<T>, sub: seq<T>): int {
    IndexFrom(s, sub, 0)
  }

  /** `strings.Contains`. */
  predicate Contains<T(==)>(s: seq<T>, sub: seq<T>) {
    Index(s, sub) != -1
  }

  lemma ContainsIff<T>(s: seq<T>, sub: seq<T>)
    ensures Contains(s, sub) <==> exists i :: OccursAt(s, sub, i)
  {
    if exists i :: OccursAt(s, sub, i) {
      var i :| OccursAt(s, sub, i);
      assert 0 <= i <= |s|;
    }
  }

  /** `strings.Replace(s, old, new, 1)`: the first occurrence of `pattern` is
      replaced by `replacement`; the rest of `s` is kept. With an empty `pattern` this
      inserts `replacement` at the front, as Go does. */
  function ReplaceFirst<T(==)>(s: seq<T>, pattern: seq<T>, replacement: seq<T>): (r: seq<T>)
    ensures !Contains(s, pattern) ==> r == s
    ensures Contains(s, pattern) ==> exists i ::
      OccursAt(s, pattern, i) && (forall j :: 0 <= j < i ==> !OccursAt(s, pattern, j))
      && r == s[..i] + replacement + s[i + |pattern|..]
  {
    var i := Index(s, pattern);
    if i == -1 then s else s[..i] + replacement + s[i + |pattern|..]
  }

  /** `strings.Count` for a one-element separator. */
  function CountOf<T(==)>(s: seq<T>, x: T): (n: nat)
    ensures n <= |s|
    ensures n == 0 <==> x !in s
  {
    if s == [] then 0 else (if s[0] == x then 1 else 0) + CountOf(s[1..], x)
  }

  // ---------------------------------------------------------------------
  // Fields, Join, Split, TrimSpace

  /** Drops leading white space. */
  function TrimLeftSpace(s: string): (r: string)
    ensures r == [] || !IsSpace(r[0])
    ensures HasSuffix(s, r)
    ensures forall i :: 0 <= i < |s| - |r| ==> IsSpace(s[i])
  {
    if s != [] && IsSpace(s[0]) then TrimLeftSpace(s[1..]) else s
  }

  /** Drops trailing white space. */
  function TrimRightSpace(s: string): (r: string)
    ensures r == [] || !IsSpace(r[|r| - 1])
    ensures HasPrefix(s, r)
    ensures forall i :: |r| <= i < |s| ==> IsSpace(s[i])
  {
    if s != [] && IsSpace(s[|s| - 1]) then TrimRightSpace(s[..|s| - 1]) else s
  }

  /** `strings.TrimSpace`. */
  function TrimSpace(s: string): (r: string)
    ensures r == [] || (!IsSpace(r[0]) && !IsSpace(r[|r| - 1]))
    ensures exists i :: 0 <= i <= |s| - |r| && HasPrefix(s[i..], r)
  {
    var l := TrimLeftSpace(s);
    var r := TrimRightSpace(l);
    var i := |s| - |l|;
    assert s[i..] == l;
    r
  }

  /** A text without white space at either end is its own trim. */
  lemma TrimSpaceOfTrimmed(s: string)
    requires s == [] || (!IsSpace(s[0]) && !IsSpace(s[|s| - 1]))
    ensures TrimSpace(s) == s
  {
  }

  /** `strings.TrimSpace` is idempotent. */
  lemma TrimSpaceIdempotent(s: string)
    ensures TrimSpace(TrimSpace(s)) == TrimSpace(s)
  {
    TrimSpaceOfTrimmed(TrimSpace(s));
  }

  /** Length of the leading run of non-space characters. */
  function WordLength(s: string): (n: nat)
    ensures n <= |s|
    ensures NoSpace(s[..n])
    ensures n < |s| ==> IsSpace(s[n])
    ensures s != [] && !IsSpace(s[0]) ==> n > 0
  {
    if s == [] || IsSpace(s[0]) then 0 else 1 + WordLength(s[1..])
  }

  /** `strings.Fields`: the maximal runs of non-space characters, in order. */
  function Fields(s: string): (ws: seq<string>)
    ensures forall k :: 0 <= k < |ws| ==> IsWord(ws[k])
    decreases |s|
  {
    var t := TrimLeftSpace(s);
    if t == [] then []
    else
      var n := WordLength(t);
      assert IsWord(t[..n]);
      [t[..n]] + Fields(t[n..])
  }

  /** `strings.Join`. */
  function Join(ws: seq<string>, sep: string): string {
    if |ws| == 0 then ""
    else if |ws| == 1 then ws[0]
    else ws[0] + sep + Join(ws[1..], sep)
  }

  lemma JoinAppend(ws: seq<string>, w: string, sep: string)
    requires ws != []
    ensures Join(ws + [w], sep) == Join(ws, sep) + sep + w
  {
    if |ws| == 1 {
      assert (ws + [w])[1..] == [w];
    } else {
      assert (ws + [w])[1..] == ws[1..] + [w];
      JoinAppend(ws[1..], w, sep);
    }
  }

  lemma JoinCons(w: string, ws: seq<string>, sep: string)
    requires ws != []
    ensures Join([w] + ws, sep) == w + sep + Join(ws, sep)
  {
    assert ([w] + ws)[1..] == ws;
  }

  lemma FieldsSkipsSpace(x: string)
    requires x != [] && IsSpace(x[0])
    ensures Fields(x) == Fields(x[1..])
  {
  }

  lemma FieldsOfWord(w: string, rest: string)
    requires w != [] && NoSpace(w)
    requires rest == [] || IsSpace(rest[0])
    ensures Fields(w + rest) == [w] + Fields(rest)
  {
    var s := w + rest;
    assert TrimLeftSpace(s) == s;
    WordLengthOfWord(w, rest);
    assert s[..|w|] == w && s[|w|..] == rest;
  }

  lemma WordLengthOfWord(w: string, rest: string)
    requires NoSpace(w)
    requires rest == [] || IsSpace(rest[0])
    ensures WordLength(w + rest) == |w|
  {
    if w != [] {
      assert (w + rest)[1..] == w[1..] + rest;
      WordLengthOfWord(w[1..], rest);
    } else {
      assert w + rest == rest;
    }
  }

  lemma FieldsCons(w: string, rest: string)
    requires w != [] && NoSpace(w)
    ensures Fields(w + " " + rest) == [w] + Fields(rest)
  {
    var tail := " " + rest;
    assert w + " " + rest == w + tail;
    FieldsOfWord(w, tail);
    FieldsSkipsSpace(tail);
    assert tail[1..] == rest;
  }

  lemma FieldsOfWordAlone(w: string)
    requires w != [] && NoSpace(w)
    ensures Fields(w) == [w]
  {
    FieldsOfWord(w, "");
    FieldsEmpty();
    calc {
      Fields(w);
      { assert w == w + ""; }
      Fields(w + "");
      [w] + Fields("");
      [w];
    }
  }

  lemma FieldsEmpty()
    ensures Fields("") == []
  {
  }

  lemma FieldsJoinStep(ws: seq<string>)
    requires |ws| > 1 && ws[0] != [] && NoSpace(ws[0])
    requires Fields(Join(ws[1..], " ")) == ws[1..]
    ensures Fields(Join(ws, " ")) == ws
  {
    var rest := Join(ws[1..], " ");
    assert ws == [ws[0]] + ws[1..];
    JoinCons(ws[0], ws[1..], " ");
    FieldsCons(ws[0], rest);
  }

  /** Splitting a single-space join of space-free words gives the words back. */
  lemma {:induction false} FieldsOfJoin(ws: seq<string>)
    requires forall k :: 0 <= k < |ws| ==> ws[k] != [] && NoSpace(ws[k])
    ensures Fields(Join(ws, " ")) == ws
  {
    if |ws| == 1 {
      FieldsOfWordAlone(ws[0]);
    } else if |ws| > 1 {
      FieldsOfJoin(ws[1..]);
      FieldsJoinStep(ws);
    }
  }

  /** The same holds with one trailing space after the join. */
  lemma {:induction false} FieldsOfJoinSpace(ws: seq<string>)
    requires forall k :: 0 <= k < |ws| ==> ws[k] != [] && NoSpace(ws[k])
    ensures Fields(Join(ws, " ") + " ") == ws
  {
    if ws == [] {
      assert Join(ws, " ") + " " == " ";
      FieldsOfSpace();
    } else if |ws| == 1 {
      assert Join(ws, " ") == ws[0];
      FieldsOfWordSpace(ws[0]);
    } else {
      FieldsOfJoinSpace(ws[1..]);
      FieldsJoinSpaceStep(ws);
    }
  }

  lemma FieldsOfWordSpace(w: string)
    requires w != [] && NoSpace(w)
    ensures Fields(w + " ") == [w]
  {
    FieldsCons(w, "");
    assert w + " " + "" == w + " ";
    FieldsEmpty();
  }

  lemma FieldsOfSpace()
    ensures Fields(" ") == []
  {
    assert TrimLeftSpace(" ") == [];
  }

  lemma FieldsJoinSpaceStep(ws: seq<string>)
    requires |ws| > 1 && ws[0] != [] && NoSpace(ws[0])
    requires Fields(Join(ws[1..], " ") + " ") == ws[1..]
    ensures Fields(Join(ws, " ") + " ") == ws
  {
    var rest := Join(ws[1..], " ");
    assert ws == [ws[0]] + ws[1..];
    JoinCons(ws[0], ws[1..], " ");
    Associative(ws[0] + " ", rest, " ");
    FieldsCons(ws[0], rest + " ");
  }

  lemma Associative<T>(a: seq<T>, b: seq<T>, c: seq<T>)
    ensures (a + b) + c == a + (b + c)
  {
  }

  /** The position of the first `c` in `s`, or -1. */
  function IndexOfChar(s: string, c: char): (r: int)
    ensures r == -1 <==> c !in s
    ensures r != -1 ==> 0 <= r < |s| && s[r] == c && c !in s[..r]
  {
    if s == [] then -1
    else if s[0] == c then 0
    else var k := IndexOfChar(s[1..], c); if k == -1 then -1 else k + 1
  }

  /** `strings.Split` with a one-character separator. */
  function Split(s: string, sep: char): (parts: seq<string>)
    ensures |parts| >= 1
    ensures forall k :: 0 <= k < |parts| ==> sep !in parts[k]
    ensures |parts| == 1 <==> sep !in s
    decreases |s|
  {
    var i := IndexOfChar(s, sep);
    if i == -1 then [s] else [s[..i]] + Split(s[i + 1..], sep)
  }

  lemma Recompose<T>(s: seq<T>, i: nat)
    requires i < |s|
    ensures s[..i] + [s[i]] + s[i + 1..] == s
  {
  }

  /** Joining the pieces of a split with the separator gives the string back. */
  lemma {:induction false} JoinSplit(s: string, sep: char)
    ensures Join(Split(s, sep), [sep]) == s
    decreases |s|
  {
    var i := IndexOfChar(s, sep);
    if i != -1 {
      var tail := Split(s[i + 1..], sep);
      var parts := Split(s, sep);
      assert parts == [s[..i]] + tail;
      JoinSplit(s[i + 1..], sep);
      JoinCons(s[..i], tail, [sep]);
      Recompose(s, i);
      calc {
        Join(parts, [sep]);
        s[..i] + [sep] + Join(tail, [sep]);
        s[..i] + [sep] + s[i + 1..];
        s;
      }
    }
  }

  /** Splitting at the first separator: the head is the text before it and
      the rest, joined again, is the text after it. */
  lemma SplitFirst(s: string, sep: char, i: nat)
    requires i < |s| && s[i] == sep && sep !in s[..i]
    ensures Split(s, sep)[0] == s[..i]
    ensures Join(Split(s, sep)[1..], [sep]) == s[i + 1..]
  {
    assert IndexOfChar(s, sep) == i;
    var tail := Split(s[i + 1..], sep);
    assert Split(s, sep) == [s[..i]] + tail;
    assert Split(s, sep)[1..] == tail;
    JoinSplit(s[i + 1..], sep);
  }

  // ---------------------------------------------------------------------
  // Ordering and sorting (`sort.Strings`)

  /** `a <= b` in Go's string order. */
  predicate Below(a: string, b: string)
    decreases |a|
  {
    a == [] || (b != [] && (a[0] < b[0] || (a[0] == b[0] && Below(a[1..], b[1..]))))
  }

  lemma BelowReflexive(a: string)
    ensures Below(a, a)
  {
  }

  lemma BelowTotal(a: string, b: string)
    ensures Below(a, b) || Below(b, a)
  {
  }

  lemma BelowAntisymmetric(a: string, b: string)
    requires Below(a, b) && Below(b, a)
    ensures a == b
  {
    if a != [] && b != [] {
      BelowAntisymmetric(a[1..], b[1..]);
      assert a == [a[0]] + a[1..] && b == [b[0]] + b[1..];
    }
  }

  lemma BelowTransitive(a: string, b: string, c: string)
    requires Below(a, b) && Below(b, c)
    ensures Below(a, c)
  {
    if a != [] && b != [] && c != [] && a[0] == b[0] == c[0] {
      BelowTransitive(a[1..], b[1..], c[1..]);
    }
  }

  predicate Sorted(s: seq<string>) {
    forall i, j :: 0 <= i < j < |s| ==> Below(s[i], s[j])
  }

  predicate NoDuplicates<T(==)>(s: seq<T>) {
    forall i, j :: 0 <= i < j < |s| ==> s[i] != s[j]
  }

  lemma SortedCons(x: string, s: seq<string>)
    requires Sorted(s)
    requires forall y :: y in multiset(s) ==> Below(x, y)
    ensures Sorted([x] + s)
  {
    forall i, j | 0 <= i < j < |[x] + s| ensures Below(([x] + s)[i], ([x] + s)[j]) {
      if i == 0 { assert ([x] + s)[j] == s[j - 1]; assert s[j - 1] in multiset(s); }
    }
  }

  lemma InsertInFront(x: string, s: seq<string>)
    requires Sorted(s) && s != [] && Below(x, s[0])
    ensures Sorted([x] + s)
  {
    forall y | y in multiset(s) ensures Below(x, y) {
      SortedHeadBelow(s, y);
      BelowTransitive(x, s[0], y);
    }
    SortedCons(x, s);
  }

  lemma InsertBehind(x: string, s: seq<string>, t: seq<string>)
    requires Sorted(s) && s != [] && !Below(x, s[0])
    requires Sorted(t) && multiset(t) == multiset(s[1..]) + multiset{x}
    ensures Sorted([s[0]] + t)
  {
    forall y | y in multiset(t) ensures Below(s[0], y) {
      if y == x {
        BelowTotal(x, s[0]);
      } else {
        assert y in multiset(s[1..]);
        assert y in s[1..];
        SortedHeadBelow(s, y);
      }
    }
    SortedCons(s[0], t);
  }

  function Insert(x: string, s: seq<string>): (r: seq<string>)
    requires Sorted(s)
    ensures Sorted(r)
    ensures multiset(r) == multiset(s) + multiset{x}
  {
    if s == [] then [x]
    else if Below(x, s[0]) then
      InsertInFront(x, s);
      [x] + s
    else
      var t := Insert(x, s[1..]);
      InsertBehind(x, s, t);
      assert s == [s[0]] + s[1..];
      [s[0]] + t
  }

  /** `sort.Strings`: the unique sorted permutation of `s`. */
  function SortStrings(s: seq<string>): seq<string> {
    if s == [] then [] else Insert(s[0], SortStrings(s[1..]))
  }

  /** `sort.Strings` orders its input and keeps its elements. */
  lemma {:induction false} SortStringsSpec(s: seq<string>)
    ensures Sorted(SortStrings(s)) && multiset(SortStrings(s)) == multiset(s)
  {
    if s != [] {
      assert s == [s[0]] + s[1..];
      SortStringsSpec(s[1..]);
    }
  }

  lemma SortedHeadBelow(a: seq<string>, x: string)
    requires Sorted(a) && x in a
    ensures Below(a[0], x)
  {
    var i :| 0 <= i < |a| && a[i] == x;
    if i == 0 { BelowReflexive(x); }
  }

  lemma TailMultiset<T>(a: seq<T>)
    requires a != []
    ensures multiset(a[1..]) == multiset(a) - multiset{a[0]}
  {
    assert a == [a[0]] + a[1..];
  }

  lemma SortedTail(a: seq<string>)
    requires Sorted(a) && a != []
    ensures Sorted(a[1..])
  {
  }

  lemma SameHeads(a: seq<string>, b: seq<string>)
    requires Sorted(a) && Sorted(b) && multiset(a) == multiset(b) && a != []
    ensures b != [] && a[0] == b[0]
  {
    assert |b| == |multiset(b)| == |a|;
    assert a[0] in multiset(b) && b[0] in multiset(a);
    SortedHeadBelow(b, a[0]);
    SortedHeadBelow(a, b[0]);
    BelowAntisymmetric(a[0], b[0]);
  }

  /** Two sorted sequences with the same elements are equal, so the result
      of sorting does not depend on the algorithm or the input order. */
  lemma {:induction false} SortedUnique(a: seq<string>, b: seq<string>)
    requires Sorted(a) && Sorted(b) && multiset(a) == multiset(b)
    ensures a == b
  {
    if a != [] {
      SameHeads(a, b);
      TailMultiset(a);
      TailMultiset(b);
      SortedTail(a);
      SortedTail(b);
      SortedUnique(a[1..], b[1..]);
      assert a == [a[0]] + a[1..] && b == [b[0]] + b[1..];
    }
  }

  // ---------------------------------------------------------------------
  // Decimal numerals (`%d`)

  function DigitChar(d: nat): (c: char)
    requires d < 10
    ensures '0' <= c <= '9'
  {
    ['0', '1', '2', '3', '4', '5', '6', '7', '8', '9'][d]
  }

  /** The decimal numeral of `n`, without leading zeros. */
  function NatToString(n: nat): (r: string)
    ensures r != [] && (forall i :: 0 <= i < |r| ==> '0' <= r[i] <= '9')
    ensures |r| > 1 ==> r[0] != '0'
  {
    if n < 10 then [DigitChar(n)] else NatToString(n / 10) + [DigitChar(n % 10)]
  }
}
