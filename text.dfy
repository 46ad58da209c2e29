/** The string operations the gate applies: lower-casing, `includes`, `split`/`startsWith`, and
    the fixed regular expressions of the secret scan, each written as an explicit predicate. */
module Text {

  /** `toLowerCase` on one character; only ASCII letters are folded. */
  function LowerChar(c: char): char
  {
    if 'A' <= c <= 'Z' then (c as int + 32) as char else c
  }

  function Lower(s: string): string
  {
    seq(|s|, i requires 0 <= i < |s| => LowerChar(s[i]))
  }

  /** Lower-casing leaves a text without ASCII capitals as it is. */
  lemma LowerKeeps(s: string)
    requires forall i :: 0 <= i < |s| ==> !('A' <= s[i] <= 'Z')
    ensures Lower(s) == s
  {
  }

  predicate StartsWith(s: string, prefix: string)
  {
    |prefix| <= |s| && s[..|prefix|] == prefix
  }

  /** A text starts with what was put in front of it. */
  lemma StartsWithConcat(p: string, x: string)
    ensures StartsWith(p + x, p)
  {
    assert (p + x)[..|p|] == p;
  }

  /** `p` sits in `s` at position `i`. */
  predicate OccursAt(s: string, p: string, i: nat)
  {
    i + |p| <= |s| && s[i..i + |p|] == p
  }

  /** `s.includes(p)`: compare at the front, then search the rest. */
  predicate Includes(s: string, p: string)
    decreases |s|
  {
    if |p| > |s| then false else StartsWith(s, p) || (|s| > 0 && Includes(s[1..], p))
  }

  lemma {:induction false} IncludesIffOccurs(s: string, p: string)
    ensures Includes(s, p) <==> exists i: nat :: OccursAt(s, p, i)
  {
    if |p| > |s| {
      assert forall i: nat :: !OccursAt(s, p, i);
    } else if StartsWith(s, p) {
      assert OccursAt(s, p, 0);
    } else {
      assert |s| > 0;
      IncludesIffOccurs(s[1..], p);
      if Includes(s[1..], p) {
        var i: nat :| OccursAt(s[1..], p, i);
        assert s[i + 1..i + 1 + |p|] == s[1..][i..i + |p|];
        assert OccursAt(s, p, i + 1);
      } else {
        forall i: nat | OccursAt(s, p, i) ensures false {
          if i > 0 {
            assert s[1..][i - 1..i - 1 + |p|] == s[i..i + |p|];
            assert OccursAt(s[1..], p, i - 1);
          }
        }
      }
    }
  }

  /** The index of the first `c` in `s`. */
  function IndexOf(s: string, c: char): (k: nat)
    requires c in s
    ensures k < |s| && s[k] == c && c !in s[..k]
  {
    if s[0] == c then 0 else 1 + IndexOf(s[1..], c)
  }

  /** `s.split(sep)` for a one-character separator: the pieces between separators. */
  function Split(s: string, sep: char): (parts: seq<string>)
    ensures |parts| > 0
    ensures forall i :: 0 <= i < |parts| ==> sep !in parts[i]
    decreases |s|
  {
    if sep !in s then [s]
    else
      var k := IndexOf(s, sep);
      [s[..k]] + Split(s[k + 1..], sep)
  }

  /** `parts.join(sep)`. */
  function Join(parts: seq<string>, sep: char): string
    requires |parts| > 0
  {
    if |parts| == 1 then parts[0] else parts[0] + [sep] + Join(parts[1..], sep)
  }

  lemma {:induction false} JoinSplit(s: string, sep: char)
    ensures Join(Split(s, sep), sep) == s
    decreases |s|
  {
    if sep in s {
      var k := IndexOf(s, sep);
      JoinSplit(s[k + 1..], sep);
      assert s == s[..k] + [sep] + s[k + 1..];
    }
  }

  lemma {:induction false} IndexOfSeparator(a: string, b: string, sep: char)
    requires sep !in a
    ensures sep in a + [sep] + b && IndexOf(a + [sep] + b, sep) == |a|
  {
    var s := a + [sep] + b;
    assert s[|a|] == sep;
    if |a| > 0 {
      IndexOfSeparator(a[1..], b, sep);
      assert s[1..] == a[1..] + [sep] + b;
    }
  }

  lemma {:induction false} SplitJoin(parts: seq<string>, sep: char)
    requires |parts| > 0
    requires forall i :: 0 <= i < |parts| ==> sep !in parts[i]
    ensures Split(Join(parts, sep), sep) == parts
  {
    if |parts| > 1 {
      var rest := Join(parts[1..], sep);
      var s := parts[0] + [sep] + rest;
      assert Join(parts, sep) == s;
      assert sep !in parts[0];
      IndexOfSeparator(parts[0], rest, sep);
      assert s[..|parts[0]|] == parts[0];
      assert s[|parts[0]| + 1..] == rest;
      SplitJoin(parts[1..], sep);
      assert parts == [parts[0]] + parts[1..];
    }
  }

  /** The keyword alternatives of `/api[_-]?key/`, `/secret[_-]?key/`, `/password/` and `/token/`. */
  const SecretKeywords: seq<string> :=
    ["apikey", "api_key", "api-key", "secretkey", "secret_key", "secret-key", "password", "token"]

  /** The characters `\s` matches in a JavaScript regular expression. */
  predicate IsRegexSpace(c: char)
  {
    c == ' ' || c == '\t' || c == '\n' || c == '\r' || c == '\U{000B}' || c == '\U{000C}' ||
    c == '\U{00A0}' || c == '\U{1680}' || ('\U{2000}' <= c <= '\U{200A}') ||
    c == '\U{2028}' || c == '\U{2029}' || c == '\U{202F}' || c == '\U{205F}' ||
    c == '\U{3000}' || c == '\U{FEFF}'
  }

  predicate IsAsciiAlnum(c: char)
  {
    ('a' <= c <= 'z') || ('A' <= c <= 'Z') || ('0' <= c <= '9')
  }

  /** `[a-f0-9]` under the `i` flag. */
  predicate IsHexDigit(c: char)
  {
    ('a' <= c <= 'f') || ('A' <= c <= 'F') || ('0' <= c <= '9')
  }

  /** `\s+[a-zA-Z0-9]` matches at `k`. */
  predicate SpacesThenAlnum(s: string, k: nat)
    decreases |s| - k
  {
    k + 1 < |s| && IsRegexSpace(s[k]) && (IsAsciiAlnum(s[k + 1]) || SpacesThenAlnum(s, k + 1))
  }

  /** `/bearer\s+[a-zA-Z0-9]/i` matches at `i` of a lower-cased text. */
  predicate BearerAt(s: string, i: nat)
  {
    OccursAt(s, "bearer", i) && SpacesThenAlnum(s, i + 6)
  }

  predicate BearerMatch(s: string)
  {
    exists i | 0 <= i <= |s| :: BearerAt(s, i)
  }

  /** `/[a-f0-9]{32}/i` matches at `i`: 32 hexadecimal digits in a row. */
  predicate HexRunAt(s: string, i: nat)
  {
    i + 32 <= |s| && forall k :: i <= k < i + 32 ==> IsHexDigit(s[k])
  }

  /** The scan a matcher for `[a-f0-9]{32}` performs: `run` counts the hexadecimal digits
      read just before `s`. */
  predicate HexScan(s: string, run: nat)
    decreases |s|
  {
    run >= 32 || (|s| > 0 && HexScan(s[1..], if IsHexDigit(s[0]) then run + 1 else 0))
  }

  predicate HasHexRun(s: string)
  {
    HexScan(s, 0)
  }

  /** `n` hexadecimal digits, standing for the ones the scan has already read. */
  function Digits(n: nat): (d: string)
    ensures |d| == n && forall k :: 0 <= k < n ==> IsHexDigit(d[k])
  {
    seq(n, _ => '0')
  }

  /** Two texts with hexadecimal digits at the same positions hold runs at the same places. */
  lemma SameHexRuns(s: string, t: string, i: nat)
    requires |s| == |t|
    requires forall k :: 0 <= k < |s| ==> (IsHexDigit(s[k]) <==> IsHexDigit(t[k]))
    ensures HexRunAt(s, i) <==> HexRunAt(t, i)
  {
  }

  lemma {:induction false} HexScanFinds(s: string, run: nat)
    ensures HexScan(s, run) <==> exists i: nat :: HexRunAt(Digits(run) + s, i)
    decreases |s|
  {
    var t := Digits(run) + s;
    if run >= 32 {
      assert HexRunAt(t, 0);
    } else if |s| == 0 {
      assert t == Digits(run);
      forall i: nat ensures !HexRunAt(t, i) {
      }
    } else if IsHexDigit(s[0]) {
      HexScanFinds(s[1..], run + 1);
      var u := Digits(run + 1) + s[1..];
      forall i: nat ensures HexRunAt(t, i) <==> HexRunAt(u, i) {
        SameHexRuns(t, u, i);
      }
    } else {
      HexScanFinds(s[1..], 0);
      var u := Digits(0) + s[1..];
      assert u == s[1..];
      assert t[run] == s[0];
      forall i: nat ensures HexRunAt(t, i) <==> i > run && HexRunAt(u, i - run - 1) {
        if i > run && HexRunAt(u, i - run - 1) {
          forall k | i <= k < i + 32 ensures IsHexDigit(t[k]) {
            assert t[k] == u[k - run - 1];
          }
        }
        if i > run && HexRunAt(t, i) {
          forall k | i - run - 1 <= k < i - run - 1 + 32 ensures IsHexDigit(u[k]) {
            assert t[k + run + 1] == u[k];
          }
        }
      }
      if HexScan(s, run) {
        var j: nat :| HexRunAt(u, j);
        assert HexRunAt(t, j + run + 1);
      }
    }
  }

  /** The scan finds exactly the places the regular expression matches. */
  lemma HasHexRunIff(s: string)
    ensures HasHexRun(s) <==> exists i: nat :: HexRunAt(s, i)
  {
    HexScanFinds(s, 0);
    assert Digits(0) + s == s;
  }
}
