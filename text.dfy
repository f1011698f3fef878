/** String operations with the meaning of the JavaScript String methods the
    chat code relies on: toLowerCase, includes, startsWith, replace with a
    literal pattern (first occurrence only), join and trim. */
module Text {

  /** Lower-cases one character; only the ASCII letters A-Z change. */
  function LowerChar(c: char): char
  {
    if 'A' <= c <= 'Z' then (c as int + 32) as char else c
  }

  /** `s.toLowerCase()` restricted to ASCII letters. */
  function Lower(s: string): string
  {
    seq(|s|, i requires 0 <= i < |s| => LowerChar(s[i]))
  }

  /** Lower-casing twice is lower-casing once, so every keyword test made on
      a lower-cased string gives the same answer on the original. */
  lemma LowerIdempotent(s: string)
    ensures Lower(Lower(s)) == Lower(s)
  {
  }

  /** `s.startsWith(p)`. */
  predicate StartsWith(s: string, p: string)
  {
    |p| <= |s| && s[..|p|] == p
  }

  /** `s.includes(p)`: plain substring containment, no word boundaries. */
  predicate Contains(s: string, p: string)
    decreases |s|
  {
    StartsWith(s, p) || (|s| > 0 && Contains(s[1..], p))
  }

  /** `message.toLowerCase().includes(k)`: the keyword test of the reply
      classifiers. */
  predicate Says(message: string, k: string)
  {
    Contains(Lower(message), k)
  }

  /** `p` occurs in `s` starting at index `i`. */
  predicate OccursAt(s: string, p: string, i: int)
  {
    0 <= i <= |s| - |p| && s[i..i + |p|] == p
  }

  /** An occurrence at any index makes the string contain the pattern. */
  lemma {:induction false} OccursAtContains(s: string, p: string, i: int)
    requires OccursAt(s, p, i)
    ensures Contains(s, p)
    decreases i
  {
    if i > 0 {
      assert s[1..][i - 1..i - 1 + |p|] == s[i..i + |p|];
      OccursAtContains(s[1..], p, i - 1);
    } else {
      assert s[..|p|] == s[0..0 + |p|];
    }
  }

  /** A string that contains the pattern has an occurrence of it. */
  lemma {:induction false} ContainsOccurrence(s: string, p: string) returns (i: int)
    requires Contains(s, p)
    ensures OccursAt(s, p, i)
    decreases |s|
  {
    if StartsWith(s, p) {
      i := 0;
      assert s[0..0 + |p|] == s[..|p|];
    } else {
      var j := ContainsOccurrence(s[1..], p);
      i := j + 1;
      assert s[i..i + |p|] == s[1..][j..j + |p|];
    }
  }

  /** Containment is transitive: whatever contains "solana" contains "sol". */
  lemma ContainsTransitive(s: string, p: string, q: string)
    requires Contains(s, p) && Contains(p, q)
    ensures Contains(s, q)
  {
    var i := ContainsOccurrence(s, p);
    var j := ContainsOccurrence(p, q);
    forall k | 0 <= k < |q| ensures s[i + j..i + j + |q|][k] == q[k] {
      assert q[k] == p[j + k] == s[i + j + k];
    }
    assert s[i + j..i + j + |q|] == q;
    OccursAtContains(s, q, i + j);
  }

  /** A string contains each of its own substrings. */
  lemma ContainsSlice(s: string, i: nat, j: nat)
    requires i <= j <= |s|
    ensures Contains(s, s[i..j])
  {
    OccursAtContains(s, s[i..j], i);
  }

  /** `s.replace(p, r)` with a string pattern: only the first occurrence of
      `p` is replaced; without an occurrence the string is unchanged. */
  function ReplaceFirst(s: string, p: string, r: string): string
    decreases |s|
  {
    if StartsWith(s, p) then r + s[|p|..]
    else if |s| == 0 then s
    else [s[0]] + ReplaceFirst(s[1..], p, r)
  }

  /** Replacing a pattern that does not occur leaves the string as it was. */
  lemma {:induction false} ReplaceAbsent(s: string, p: string, r: string)
    requires !Contains(s, p)
    ensures ReplaceFirst(s, p, r) == s
    decreases |s|
  {
    if |s| > 0 {
      ReplaceAbsent(s[1..], p, r);
    }
  }

  /** Only the first occurrence is replaced: with the earliest occurrence of
      `p` at `k`, everything before it and everything after it is kept. */
  lemma {:induction false} ReplaceAtFirst(s: string, p: string, r: string, k: nat)
    requires OccursAt(s, p, k)
    requires forall j :: 0 <= j < k ==> !OccursAt(s, p, j)
    ensures ReplaceFirst(s, p, r) == s[..k] + r + s[k + |p|..]
    decreases k
  {
    if k == 0 {
      assert s[..|p|] == s[0..0 + |p|];
    } else {
      var t := s[1..];
      assert ReplaceFirst(s, p, r) == [s[0]] + ReplaceFirst(t, p, r) by {
        assert !OccursAt(s, p, 0);
        assert s[0..0 + |p|] == s[..|p|];
      }
      assert ReplaceFirst(t, p, r) == t[..k - 1] + r + t[k - 1 + |p|..] by {
        assert t[k - 1..k - 1 + |p|] == s[k..k + |p|];
        NoOccurrenceInTail(s, p, k);
        ReplaceAtFirst(t, p, r, k - 1);
      }
      assert [s[0]] + t[..k - 1] == s[..k];
      assert t[k - 1 + |p|..] == s[k + |p|..];
    }
  }

  /** No occurrence before `k` means none before `k - 1` once the first
      character is dropped. */
  lemma NoOccurrenceInTail(s: string, p: string, k: nat)
    requires 0 < k <= |s|
    requires forall j :: 0 <= j < k ==> !OccursAt(s, p, j)
    ensures forall j :: 0 <= j < k - 1 ==> !OccursAt(s[1..], p, j)
  {
    forall j | 0 <= j < k - 1 ensures !OccursAt(s[1..], p, j) {
      assert !OccursAt(s, p, j + 1);
      if j <= |s| - 1 - |p| {
        assert s[1..][j..j + |p|] == s[j + 1..j + 1 + |p|];
      }
    }
  }

  /** `parts.join(sep)`. */
  function Join(parts: seq<string>, sep: string): string
  {
    if |parts| == 0 then ""
    else if |parts| == 1 then parts[0]
    else parts[0] + sep + Join(parts[1..], sep)
  }

  /** Every part of a join is contained in the joined string. */
  lemma {:induction false} JoinContainsPart(parts: seq<string>, sep: string, k: nat)
    requires k < |parts|
    ensures Contains(Join(parts, sep), parts[k])
  {
    var j := Join(parts, sep);
    if |parts| == 1 {
      ContainsSlice(j, 0, |j|);
      assert j[0..|j|] == j;
    } else if k == 0 {
      ContainsSlice(j, 0, |parts[0]|);
      assert j[0..|parts[0]|] == parts[0];
    } else {
      var rest := Join(parts[1..], sep);
      JoinContainsPart(parts[1..], sep, k - 1);
      var i := ContainsOccurrence(rest, parts[k]);
      var off := |parts[0]| + |sep|;
      assert j == parts[0] + sep + rest;
      assert j[off + i..off + i + |parts[k]|] == rest[i..i + |parts[k]|];
      OccursAtContains(j, parts[k], off + i);
    }
  }

  /** The characters JavaScript's `trim` removes: the WhiteSpace and
      LineTerminator code points of ECMA-262. */
  predicate IsSpace(c: char)
  {
    c == '\t' || c == '\n' || c == '\r' || c == ' ' || c == '\U{B}' || c == '\U{C}'
    || c == '\U{A0}' || c == '\U{1680}' || ('\U{2000}' <= c <= '\U{200A}')
    || c == '\U{2028}' || c == '\U{2029}' || c == '\U{202F}' || c == '\U{205F}'
    || c == '\U{3000}' || c == '\U{FEFF}'
  }

  /** A string made only of trimmable characters (the empty string included). */
  predicate Blank(s: string)
  {
    forall i :: 0 <= i < |s| ==> IsSpace(s[i])
  }

  function TrimStart(s: string): string
  {
    if |s| > 0 && IsSpace(s[0]) then TrimStart(s[1..]) else s
  }

  function TrimEnd(s: string): string
  {
    if |s| > 0 && IsSpace(s[|s| - 1]) then TrimEnd(s[..|s| - 1]) else s
  }

  /** `s.trim()`. */
  function Trim(s: string): string
  {
    TrimEnd(TrimStart(s))
  }

  lemma {:induction false} TrimStartBlank(s: string)
    ensures TrimStart(s) == [] <==> Blank(s)
    ensures TrimStart(s) != [] ==> !IsSpace(TrimStart(s)[0])
  {
    if |s| > 0 && IsSpace(s[0]) {
      TrimStartBlank(s[1..]);
      assert Blank(s) <==> Blank(s[1..]) by {
        if Blank(s[1..]) {
          forall i | 0 <= i < |s| ensures IsSpace(s[i]) {
            if i > 0 { assert s[i] == s[1..][i - 1]; }
          }
        }
      }
    } else if |s| > 0 {
      assert !Blank(s);
    }
  }

  lemma {:induction false} TrimEndKeepsNonSpaceHead(s: string)
    requires |s| > 0 && !IsSpace(s[0])
    ensures TrimEnd(s) != []
  {
    if IsSpace(s[|s| - 1]) {
      assert |s| > 1;
      TrimEndKeepsNonSpaceHead(s[..|s| - 1]);
    }
  }

  /** `!s.trim()` holds exactly for blank strings. */
  lemma TrimEmptyIffBlank(s: string)
    ensures Trim(s) == [] <==> Blank(s)
  {
    TrimStartBlank(s);
    if TrimStart(s) != [] {
      TrimEndKeepsNonSpaceHead(TrimStart(s));
    }
  }
}
