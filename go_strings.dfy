/** The few functions of Go's `strings` and `regexp` packages the core relies
    on, over strings taken as sequences of runes. */
module GoStrings {

  /** `unicode.IsSpace`: the Latin-1 spaces and the other runes with the
      Unicode White_Space property. */
  predicate IsSpace(c: char)
  {
    var n := c as int;
    (9 <= n <= 13) || n == 0x20 || n == 0x85 || n == 0xA0 || n == 0x1680
    || (0x2000 <= n <= 0x200A) || n == 0x2028 || n == 0x2029 || n == 0x202F
    || n == 0x205F || n == 0x3000
  }

  predicate NoSpace(s: string)
  {
    forall i :: 0 <= i < |s| ==> !IsSpace(s[i])
  }

  /** The longest prefix of `s` holding no white space. */
  function Word(s: string): (w: string)
    ensures w <= s && NoSpace(w)
    ensures |w| < |s| ==> IsSpace(s[|w|])
  {
    if s == [] || IsSpace(s[0]) then [] else [s[0]] + Word(s[1..])
  }

  /** `strings.Fields`: the maximal runs of non-space runes, in order. */
  function Fields(s: string): (r: seq<string>)
    ensures forall i :: 0 <= i < |r| ==> r[i] != [] && NoSpace(r[i])
    decreases |s|
  {
    if s == [] then []
    else if IsSpace(s[0]) then Fields(s[1..])
    else
      var w := Word(s);
      [w] + Fields(s[|w|..])
  }

  lemma {:induction false} WordOfConcat(x: string, z: string)
    requires |Word(x)| < |x| || z == [] || IsSpace(z[0])
    ensures Word(x + z) == Word(x)
    decreases |x|
  {
    if x == [] {
      assert x + z == z;
    } else if IsSpace(x[0]) {
    } else {
      assert (x + z)[1..] == x[1..] + z;
      WordOfConcat(x[1..], z);
    }
  }

  /** A non-empty word without spaces is its own only field. */
  lemma {:induction false} FieldsOfWord(w: string)
    requires w != [] && NoSpace(w)
    ensures Fields(w) == [w]
  {
    WordOfWord(w);
    assert w[|w|..] == [];
  }

  lemma {:induction false} WordOfWord(w: string)
    requires NoSpace(w)
    ensures Word(w) == w
    decreases |w|
  {
    if w != [] {
      WordOfWord(w[1..]);
    }
  }

  /** Splitting at one white-space rune splits the fields: the fields of
      `x + [c] + y` are those of `x` followed by those of `y`. */
  lemma {:induction false} FieldsAtSpace(x: string, c: char, y: string)
    requires IsSpace(c)
    ensures Fields(x + [c] + y) == Fields(x) + Fields(y)
    decreases |x|
  {
    var s := x + [c] + y;
    if x == [] {
      assert s == [c] + y;
      assert s[1..] == y;
    } else if IsSpace(x[0]) {
      assert s[0] == x[0];
      assert s[1..] == x[1..] + [c] + y;
      FieldsAtSpace(x[1..], c, y);
    } else {
      var w := Word(x);
      WordOfConcat(x, [c] + y);
      assert s == x + ([c] + y);
      assert Word(s) == w;
      assert s[0] == x[0];
      var x' := x[|w|..];
      assert s[|w|..] == x' + [c] + y;
      FieldsUnfold(s);
      FieldsUnfold(x);
      FieldsAtSpace(x', c, y);
    }
  }

  lemma FieldsUnfold(s: string)
    requires s != [] && !IsSpace(s[0])
    ensures Fields(s) == [Word(s)] + Fields(s[|Word(s)|..])
  {
  }

  /** `a + " " + b` has exactly the fields `a` and `b` when both are words. */
  lemma TwoFields(a: string, c: char, b: string)
    requires a != [] && NoSpace(a) && b != [] && NoSpace(b) && IsSpace(c)
    ensures Fields(a + [c] + b) == [a, b]
  {
    FieldsAtSpace(a, c, b);
    FieldsOfWord(a);
    FieldsOfWord(b);
  }

  /** ASCII lower-casing of one rune. */
  function LowerRune(c: char): char
  {
    if 'A' <= c <= 'Z' then (c as int + 32) as char else c
  }

  /** `strings.ToLower`, restricted to the ASCII letters. */
  function ToLower(s: string): (r: string)
    ensures |r| == |s|
    ensures forall i :: 0 <= i < |s| ==> r[i] == LowerRune(s[i])
  {
    if s == [] then [] else [LowerRune(s[0])] + ToLower(s[1..])
  }

  /** `s[i..]` starts with `sub`. */
  predicate OccursAt(s: string, sub: string, i: nat)
  {
    i + |sub| <= |s| && s[i..i + |sub|] == sub
  }

  /** `strings.Contains`. */
  function Contains(s: string, sub: string): (r: bool)
    ensures r <==> exists i: nat :: OccursAt(s, sub, i)
    decreases |s|
  {
    if |sub| > |s| then
      false
    else if s[..|sub|] == sub then
      assert OccursAt(s, sub, 0);
      true
    else
      ContainsStep(s, sub);
      Contains(s[1..], sub)
  }

  lemma ContainsStep(s: string, sub: string)
    requires |sub| <= |s| && s[..|sub|] != sub
    ensures (exists i: nat :: OccursAt(s, sub, i)) <==> (exists i: nat :: OccursAt(s[1..], sub, i))
  {
    assert s[0..|sub|] == s[..|sub|];
    assert !OccursAt(s, sub, 0);
    if i: nat :| OccursAt(s, sub, i) {
      assert s[1..][i - 1..i - 1 + |sub|] == s[i..i + |sub|];
      assert OccursAt(s[1..], sub, i - 1);
    }
    if i: nat :| OccursAt(s[1..], sub, i) {
      assert s[i + 1..i + 1 + |sub|] == s[1..][i..i + |sub|];
      assert OccursAt(s, sub, i + 1);
    }
  }

  /** A message built around a word contains that word. */
  lemma ContainsMiddle(a: string, b: string, c: string)
    ensures Contains(a + b + c, b)
  {
    var s := a + b + c;
    assert s[|a|..|a| + |b|] == b;
    assert OccursAt(s, b, |a|);
  }

  /** `strings.Split(s, string(sep))` for a one-rune separator: the pieces
      between the separators, always at least one. */
  function Split(s: string, sep: char): (r: seq<string>)
    ensures |r| >= 1
    ensures forall i :: 0 <= i < |r| ==> sep !in r[i]
  {
    if s == [] then [[]]
    else if s[0] == sep then [[]] + Split(s[1..], sep)
    else
      var rest := Split(s[1..], sep);
      [[s[0]] + rest[0]] + rest[1..]
  }

  /** `strings.Join(parts, string(sep))`. */
  function Join(parts: seq<string>, sep: char): string
  {
    if parts == [] then []
    else if |parts| == 1 then parts[0]
    else parts[0] + [sep] + Join(parts[1..], sep)
  }

  lemma {:induction false} SplitOfPiece(a: string, sep: char)
    requires sep !in a
    ensures Split(a, sep) == [a]
    decreases |a|
  {
    if a != [] {
      SplitOfPiece(a[1..], sep);
      assert [a[0]] + a[1..] == a;
    }
  }

  lemma {:induction false} SplitAtSeparator(a: string, sep: char, z: string)
    requires sep !in a
    ensures Split(a + [sep] + z, sep) == [a] + Split(z, sep)
    decreases |a|
  {
    var s := a + [sep] + z;
    if a == [] {
      assert s == [sep] + z;
      assert s[1..] == z;
    } else {
      assert s[1..] == a[1..] + [sep] + z;
      SplitAtSeparator(a[1..], sep, z);
      assert [s[0]] + a[1..] == a;
    }
  }

  /** Splitting undoes joining when no part holds the separator. */
  lemma {:induction false} SplitJoin(parts: seq<string>, sep: char)
    requires |parts| >= 1
    requires forall i :: 0 <= i < |parts| ==> sep !in parts[i]
    ensures Split(Join(parts, sep), sep) == parts
    decreases |parts|
  {
    if |parts| == 1 {
      SplitOfPiece(parts[0], sep);
    } else {
      SplitAtSeparator(parts[0], sep, Join(parts[1..], sep));
      SplitJoin(parts[1..], sep);
      assert [parts[0]] + parts[1..] == parts;
    }
  }

  predicate IsDigit(c: char)
  {
    '0' <= c <= '9'
  }

  predicate AllDigits(s: string)
  {
    forall i :: 0 <= i < |s| ==> IsDigit(s[i])
  }

  /** The number of leading ASCII digits of `s`. */
  function DigitRun(s: string): (n: nat)
    ensures n <= |s| && AllDigits(s[..n])
    ensures n < |s| ==> !IsDigit(s[n])
  {
    if s != [] && IsDigit(s[0]) then 1 + DigitRun(s[1..]) else 0
  }

  /** The length of a match of the regular expression `\[[0-9]*\]` at the very
      start of `s`, or 0 when none starts there. */
  function IndexMatchLength(s: string): (n: nat)
    ensures n == 0 || (2 <= n <= |s| && s[0] == '[' && s[n - 1] == ']' && AllDigits(s[1..n - 1]))
  {
    if s == [] || s[0] != '[' then 0
    else
      var d := DigitRun(s[1..]);
      if 1 + d < |s| && s[1 + d] == ']' then
        assert s[1..2 + d - 1] == s[1..][..d];
        d + 2
      else 0
  }

  /** `regexp.MustCompile(`\[[0-9]*\]`).ReplaceAllString(s, "")`: removes, left
      to right, every non-overlapping bracketed run of digits. */
  function RemoveIndexes(s: string): string
    decreases |s|
  {
    if s == [] then []
    else
      var n := IndexMatchLength(s);
      if n > 0 then RemoveIndexes(s[n..]) else [s[0]] + RemoveIndexes(s[1..])
  }

  /** The text `[d]` for each digit string `d` of `indexes`, as a validator
      namespace writes slice and array positions. */
  function IndexSuffix(indexes: seq<string>): string
  {
    if indexes == [] then [] else "[" + indexes[0] + "]" + IndexSuffix(indexes[1..])
  }

  lemma {:induction false} RemoveIndexesSkipsText(a: string, z: string)
    requires '[' !in a
    ensures RemoveIndexes(a + z) == a + RemoveIndexes(z)
    decreases |a|
  {
    if a != [] {
      assert (a + z)[1..] == a[1..] + z;
      RemoveIndexesSkipsText(a[1..], z);
    } else {
      assert a + z == z;
    }
  }

  lemma {:induction false} RemoveIndexesDropsSuffix(indexes: seq<string>, z: string)
    requires forall k :: 0 <= k < |indexes| ==> AllDigits(indexes[k])
    ensures RemoveIndexes(IndexSuffix(indexes) + z) == RemoveIndexes(z)
    decreases |indexes|
  {
    if indexes != [] {
      var d := indexes[0];
      var rest := IndexSuffix(indexes[1..]) + z;
      var s := "[" + d + "]" + rest;
      assert IndexSuffix(indexes) + z == s;
      assert s[0] == '[';
      assert s[1..] == d + ("]" + rest);
      DigitRunOfDigits(d, "]" + rest);
      assert DigitRun(s[1..]) == |d|;
      assert s[1 + |d|] == ']';
      assert IndexMatchLength(s) == |d| + 2;
      assert s[|d| + 2..] == rest;
      RemoveIndexesDropsSuffix(indexes[1..], z);
    } else {
      assert IndexSuffix(indexes) + z == z;
    }
  }

  lemma {:induction false} DigitRunOfDigits(d: string, z: string)
    requires AllDigits(d) && (z == [] || !IsDigit(z[0]))
    ensures DigitRun(d + z) == |d|
    decreases |d|
  {
    if d != [] {
      assert (d + z)[1..] == d[1..] + z;
      DigitRunOfDigits(d[1..], z);
    } else {
      assert d + z == z;
    }
  }
}
