/** The handful of Python `str` operations the scripts use, on `seq<char>`:
    `p in s`, `s.replace(p, '')`, `s.split(sep)`, `s.lower()` and `s.strip()`. */
module Text {

  /** `p` is a prefix of `s`. */
  predicate IsPrefix(p: string, s: string) {
    |p| <= |s| && s[..|p|] == p
  }

  /** `p` occurs in `s` starting at index `i`. */
  predicate OccursAt(s: string, p: string, i: int) {
    0 <= i && i + |p| <= |s| && s[i..i + |p|] == p
  }

  /** Python's `p in s` on strings. */
  predicate Contains(s: string, p: string)
    decreases |s|
  {
    IsPrefix(p, s) || (s != [] && Contains(s[1..], p))
  }

  /** `Contains` finds exactly the occurrences of `p`. */
  lemma {:induction false} ContainsIff(s: string, p: string)
    ensures Contains(s, p) <==> exists i :: OccursAt(s, p, i)
    decreases |s|
  {
    if s == [] {
      if Contains(s, p) {
        assert OccursAt(s, p, 0);
      }
      if exists i :: OccursAt(s, p, i) {
        var i :| OccursAt(s, p, i);
        assert IsPrefix(p, s);
      }
    } else {
      ContainsIff(s[1..], p);
      if IsPrefix(p, s) {
        assert OccursAt(s, p, 0);
      }
      if Contains(s[1..], p) {
        var i :| OccursAt(s[1..], p, i);
        assert s[i + 1..i + 1 + |p|] == s[1..][i..i + |p|];
        assert OccursAt(s, p, i + 1);
      }
      if exists i :: OccursAt(s, p, i) {
        var i :| OccursAt(s, p, i);
        if i == 0 {
          assert IsPrefix(p, s);
        } else {
          assert s[1..][i - 1..i - 1 + |p|] == s[i..i + |p|];
          assert OccursAt(s[1..], p, i - 1);
        }
      }
    }
  }

  /** A position where one character of the pattern differs is no occurrence. */
  lemma MismatchAt(s: string, p: string, i: int, k: int)
    requires 0 <= i && i + |p| <= |s| && 0 <= k < |p| && s[i + k] != p[k]
    ensures !OccursAt(s, p, i)
  {
    assert s[i..i + |p|][k] == s[i + k];
  }

  /** Every character of an occurring pattern is a character of the string. */
  lemma ContainedCharsOccur(s: string, p: string, k: int)
    requires Contains(s, p) && 0 <= k < |p|
    ensures p[k] in s
  {
    ContainsIff(s, p);
    var i :| OccursAt(s, p, i);
    assert s[i..i + |p|][k] == s[i + k];
  }

  /** A pattern holding a character the string lacks does not occur in it. */
  lemma MissingCharBlocks(s: string, p: string, c: char)
    requires c in p && c !in s
    ensures !Contains(s, p)
  {
    if Contains(s, p) {
      var k :| 0 <= k < |p| && p[k] == c;
      ContainedCharsOccur(s, p, k);
    }
  }

  /** `str(n)` of a natural number: its decimal digits. */
  function Decimal(n: nat): (r: string)
    ensures r != [] && forall c :: c in r ==> '0' <= c <= '9'
  {
    var digit := ['0' + (n % 10) as char];
    if n < 10 then digit else Decimal(n / 10) + digit
  }

  /** Python's `s.replace(p, '')` for a non-empty `p`: scan left to right and
      drop every non-overlapping occurrence of `p`. */
  function DeleteAll(s: string, p: string): (r: string)
    requires p != []
    ensures |r| <= |s|
    ensures forall c :: c in r ==> c in s
    ensures !Contains(s, p) ==> r == s
    decreases |s|
  {
    if s == [] then []
    else if IsPrefix(p, s) then DeleteAll(s[|p|..], p)
    else [s[0]] + DeleteAll(s[1..], p)
  }

  /** A leading occurrence is dropped and the scan resumes right after it. */
  lemma DeleteAllLeading(p: string, s: string)
    requires p != []
    ensures DeleteAll(p + s, p) == DeleteAll(s, p)
  {
    assert IsPrefix(p, p + s);
    assert (p + s)[|p|..] == s;
  }

  /** The characters of `s` that are not in `bad`, in their order. */
  function Keep(s: string, bad: set<char>): (r: string)
    ensures |r| <= |s|
    ensures forall c :: c in r ==> c in s && c !in bad
    decreases |s|
  {
    if s == [] then []
    else (if s[0] in bad then [] else [s[0]]) + Keep(s[1..], bad)
  }

  lemma {:induction false} KeepAppend(a: string, b: string, bad: set<char>)
    ensures Keep(a + b, bad) == Keep(a, bad) + Keep(b, bad)
    decreases |a|
  {
    if a != [] {
      assert (a + b)[1..] == a[1..] + b;
      KeepAppend(a[1..], b, bad);
    } else {
      assert a + b == b;
    }
  }

  /** Filtering twice filters by the union. */
  lemma {:induction false} KeepTwice(s: string, a: set<char>, b: set<char>)
    ensures Keep(Keep(s, a), b) == Keep(s, a + b)
    decreases |s|
  {
    if s != [] {
      KeepTwice(s[1..], a, b);
      var head := if s[0] in a then [] else [s[0]];
      KeepAppend(head, Keep(s[1..], a), b);
    }
  }

  /** Filtering a string that holds no bad character changes nothing. */
  lemma {:induction false} KeepClean(s: string, bad: set<char>)
    requires forall c :: c in s ==> c !in bad
    ensures Keep(s, bad) == s
    decreases |s|
  {
    if s != [] {
      KeepClean(s[1..], bad);
    }
  }

  /** Deleting a one-character pattern is filtering that character out. */
  lemma {:induction false} DeleteCharIsKeep(s: string, c: char)
    ensures DeleteAll(s, [c]) == Keep(s, {c})
    decreases |s|
  {
    if s != [] {
      DeleteCharIsKeep(s[1..], c);
      if s[0] == c {
        assert IsPrefix([c], s);
      } else {
        assert !IsPrefix([c], s);
      }
    }
  }

  /** Deleting one character commutes with concatenation. */
  lemma DeleteCharAppend(a: string, b: string, c: char)
    ensures DeleteAll(a + b, [c]) == DeleteAll(a, [c]) + DeleteAll(b, [c])
  {
    DeleteCharIsKeep(a + b, c);
    DeleteCharIsKeep(a, c);
    DeleteCharIsKeep(b, c);
    KeepAppend(a, b, {c});
  }

  predicate IsUpper(c: char) {
    'A' <= c <= 'Z'
  }

  /** `c.lower()` on the ASCII letters. */
  function LowerChar(c: char): (l: char)
    ensures !IsUpper(l)
    ensures !IsUpper(c) ==> l == c
  {
    if IsUpper(c) then (c as int + 32) as char else c
  }

  /** `s.lower()` on the ASCII letters: same length, every letter mapped. */
  function Lower(s: string): (r: string)
    ensures |r| == |s|
    ensures forall i :: 0 <= i < |s| ==> r[i] == LowerChar(s[i])
    decreases |s|
  {
    if s == [] then [] else [LowerChar(s[0])] + Lower(s[1..])
  }

  lemma LowerAppend(a: string, b: string)
    ensures Lower(a + b) == Lower(a) + Lower(b)
  {
    assert forall i :: 0 <= i < |a + b| ==> Lower(a + b)[i] == (Lower(a) + Lower(b))[i];
  }

  lemma {:induction false} LowerClean(s: string)
    requires forall c :: c in s ==> !IsUpper(c)
    ensures Lower(s) == s
  {
    assert forall i :: 0 <= i < |s| ==> Lower(s)[i] == s[i] by {
      forall i | 0 <= i < |s| ensures Lower(s)[i] == s[i] {
        assert s[i] in s;
      }
    }
  }

  /** `sep.join(parts)`. */
  function JoinWith(parts: seq<string>, sep: char): string
    requires parts != []
    decreases |parts|
  {
    if |parts| == 1 then parts[0] else parts[0] + [sep] + JoinWith(parts[1..], sep)
  }

  /** Number of occurrences of `c` in `s`. */
  function Count(s: string, c: char): nat
    decreases |s|
  {
    if s == [] then 0 else (if s[0] == c then 1 else 0) + Count(s[1..], c)
  }

  /** Python's `s.split(sep)` for a one-character separator: one more piece
      than there are separators, none holding the separator, and joining the
      pieces gives `s` back. */
  function Split(s: string, sep: char): (r: seq<string>)
    ensures |r| == Count(s, sep) + 1
    ensures forall k :: 0 <= k < |r| ==> sep !in r[k]
    ensures JoinWith(r, sep) == s
    decreases |s|
  {
    if s == [] then [[]]
    else
      var rest := Split(s[1..], sep);
      if s[0] == sep then [[]] + rest
      else [[s[0]] + rest[0]] + rest[1..]
  }

  /** The first piece of a split is everything before the first separator. */
  lemma {:induction false} SplitFirst(a: string, b: string, sep: char)
    requires sep !in a
    ensures Split(a + [sep] + b, sep)[0] == a
    decreases |a|
  {
    if a == [] {
      assert ([sep] + b)[1..] == b;
      assert a + [sep] + b == [sep] + b;
    } else {
      assert (a + [sep] + b)[1..] == a[1..] + [sep] + b;
      SplitFirst(a[1..], b, sep);
    }
  }

  /** A string without the separator splits into itself alone. */
  lemma {:induction false} SplitNone(a: string, sep: char)
    requires sep !in a
    ensures Split(a, sep) == [a]
    decreases |a|
  {
    if a != [] {
      SplitNone(a[1..], sep);
    }
  }

  /** A character missing from the string is missing from every piece. */
  lemma {:induction false} SplitPiecesLack(s: string, sep: char, c: char)
    requires c !in s
    ensures forall k :: 0 <= k < |Split(s, sep)| ==> c !in Split(s, sep)[k]
    decreases |s|
  {
    if s != [] {
      assert forall d :: d in s[1..] ==> d in s;
      SplitPiecesLack(s[1..], sep, c);
      var rest := Split(s[1..], sep);
      if s[0] != sep {
        assert c !in [s[0]] + rest[0];
        assert forall k :: 1 <= k < |Split(s, sep)| ==> Split(s, sep)[k] == rest[k];
      } else {
        assert forall k :: 1 <= k < |Split(s, sep)| ==> Split(s, sep)[k] == rest[k - 1];
      }
    }
  }

  /** A trailing separator adds one empty last piece. */
  lemma {:induction false} SplitTrailing(s: string, sep: char)
    ensures Split(s + [sep], sep) == Split(s, sep) + [[]]
    decreases |s|
  {
    if s == [] {
      assert s + [sep] == [sep];
      assert [sep][1..] == [];
    } else {
      assert (s + [sep])[1..] == s[1..] + [sep];
      SplitTrailing(s[1..], sep);
      var rest := Split(s[1..], sep);
      if s[0] != sep {
        assert (rest + [[]])[1..] == rest[1..] + [[]];
      }
    }
  }

  /** Python's `str.isspace()` on one character (the whitespace set that
      `str.strip()` removes). */
  predicate IsSpace(c: char) {
    c == ' ' || '\t' <= c <= '\r' || '\U{1C}' <= c <= '\U{1F}'
    || c == '\U{85}' || c == '\U{A0}' || c == '\U{1680}'
    || '\U{2000}' <= c <= '\U{200A}' || c == '\U{2028}' || c == '\U{2029}'
    || c == '\U{202F}' || c == '\U{205F}' || c == '\U{3000}'
  }

  function TrimLeft(s: string): (r: string)
    ensures r == [] || !IsSpace(r[0])
    decreases |s|
  {
    if s != [] && IsSpace(s[0]) then TrimLeft(s[1..]) else s
  }

  function TrimRight(s: string): (r: string)
    ensures r == [] || !IsSpace(r[|r| - 1])
    decreases |s|
  {
    if s != [] && IsSpace(s[|s| - 1]) then TrimRight(s[..|s| - 1]) else s
  }

  /** Python's `s.strip()`: neither end of the result is whitespace. */
  function Strip(s: string): (r: string)
  {
    TrimLeft(TrimRight(s))
  }

  lemma {:induction false} TrimLeftKeepsEnd(s: string)
    requires s != [] && !IsSpace(s[|s| - 1])
    ensures TrimLeft(s) != [] && TrimLeft(s)[|TrimLeft(s)| - 1] == s[|s| - 1]
    decreases |s|
  {
    if IsSpace(s[0]) {
      TrimLeftKeepsEnd(s[1..]);
    }
  }

  /** The result of `strip()` starts and ends with a non-space character. */
  lemma StripEnds(s: string)
    ensures Strip(s) == [] || (!IsSpace(Strip(s)[0]) && !IsSpace(Strip(s)[|Strip(s)| - 1]))
  {
    if TrimRight(s) != [] {
      TrimLeftKeepsEnd(TrimRight(s));
    }
  }

  /** A trailing space never survives `strip()`. */
  lemma StripTrailingSpace(s: string)
    ensures Strip(s + " ") == Strip(s)
  {
    assert (s + " ")[..|s + " "| - 1] == s;
  }
}
