/** The few Python `str` and `pathlib` operations the installer relies on,
    over strings as sequences of characters. */
module PyStr {

  /** `s.replace(pat, rep)`: every occurrence of `pat`, scanned left to right
      and never overlapping, is replaced by `rep`. An empty `pat` matches
      before every character and at the end, as Python's does. */
  function ReplaceAll(s: string, pat: string, rep: string): string
    decreases |s|
  {
    if |pat| == 0 then
      if |s| == 0 then rep else rep + [s[0]] + ReplaceAll(s[1..], pat, rep)
    else if |pat| <= |s| && s[..|pat|] == pat then
      rep + ReplaceAll(s[|pat|..], pat, rep)
    else if |s| == 0 then []
    else [s[0]] + ReplaceAll(s[1..], pat, rep)
  }

  /** Number of occurrences of the character `c` in `s`. */
  function Count(s: string, c: char): nat
  {
    if |s| == 0 then 0 else (if s[0] == c then 1 else 0) + Count(s[1..], c)
  }

  lemma {:induction false} CountAppend(a: string, b: string, c: char)
    ensures Count(a + b, c) == Count(a, c) + Count(b, c)
  {
    if |a| == 0 {
      assert a + b == b;
    } else {
      assert (a + b)[1..] == a[1..] + b;
      CountAppend(a[1..], b, c);
    }
  }

  lemma {:induction false} CountZeroIffAbsent(s: string, c: char)
    ensures Count(s, c) == 0 <==> c !in s
  {
    if |s| > 0 {
      CountZeroIffAbsent(s[1..], c);
      assert s == [s[0]] + s[1..];
    }
  }

  /** Replacing a single character distributes over concatenation: a
      one-character pattern can never straddle the seam. */
  lemma {:induction false} ReplaceCharAppend(a: string, b: string, c: char, rep: string)
    ensures ReplaceAll(a + b, [c], rep) == ReplaceAll(a, [c], rep) + ReplaceAll(b, [c], rep)
  {
    if |a| == 0 {
      assert a + b == b;
    } else {
      assert (a + b)[1..] == a[1..] + b;
      assert (a + b)[..1] == a[..1];
      ReplaceCharAppend(a[1..], b, c, rep);
    }
  }

  /** Replacing a single character in a one-character string. */
  lemma ReplaceCharSingle(x: char, c: char, rep: string)
    ensures ReplaceAll([x], [c], rep) == if x == c then rep else [x]
  {
    assert [x][..1] == [x];
    assert [x][1..] == [];
  }

  /** A string that starts with the pattern has that occurrence replaced first. */
  lemma ReplaceLeadingMatch(pat: string, rest: string, rep: string)
    requires |pat| > 0
    ensures ReplaceAll(pat + rest, pat, rep) == rep + ReplaceAll(rest, pat, rep)
  {
    assert (pat + rest)[..|pat|] == pat;
    assert (pat + rest)[|pat|..] == rest;
  }

  /** One step of replacing a single character. */
  lemma ReplaceCharStep(s: string, c: char, rep: string)
    requires |s| > 0
    ensures ReplaceAll(s, [c], rep) ==
              (if s[0] == c then rep else [s[0]]) + ReplaceAll(s[1..], [c], rep)
  {
    assert s[..1] == [s[0]];
  }

  /** Each occurrence of `c` grows the string by `|rep| - 1`. */
  lemma {:induction false} ReplaceCharLength(s: string, c: char, rep: string)
    ensures |ReplaceAll(s, [c], rep)| == |s| + Count(s, c) * (|rep| - 1)
  {
    if |s| > 0 {
      ReplaceCharLength(s[1..], c, rep);
      ReplaceCharStep(s, c, rep);
      var k := Count(s[1..], c);
      if s[0] == c {
        assert Count(s, c) == k + 1;
        assert (k + 1) * (|rep| - 1) == k * (|rep| - 1) + (|rep| - 1);
      }
    }
  }

  /** Occurrences of another character `x` are those of `s` plus those
      `rep` brings in for each replaced `c`. */
  lemma {:induction false} ReplaceCharCount(s: string, c: char, rep: string, x: char)
    requires x != c
    ensures Count(ReplaceAll(s, [c], rep), x) == Count(s, x) + Count(s, c) * Count(rep, x)
  {
    if |s| > 0 {
      ReplaceCharCount(s[1..], c, rep, x);
      ReplaceCharStep(s, c, rep);
      var tail := ReplaceAll(s[1..], [c], rep);
      var k := Count(s[1..], c);
      if s[0] == c {
        CountAppend(rep, tail, x);
        assert Count(s, c) == k + 1;
        assert (k + 1) * Count(rep, x) == k * Count(rep, x) + Count(rep, x);
      } else {
        CountAppend([s[0]], tail, x);
      }
    }
  }

  /** Where the `i`th character of `s` ends up: right after the replaced
      prefix `s[..i]`. A `c` becomes a copy of `rep` there; any other
      character is kept. */
  lemma ReplaceCharAt(s: string, c: char, rep: string, i: nat)
    requires i < |s|
    ensures var r := ReplaceAll(s, [c], rep);
            var k := |ReplaceAll(s[..i], [c], rep)|;
            if s[i] == c then k + |rep| <= |r| && r[k..k + |rep|] == rep
            else k < |r| && r[k] == s[i]
  {
    assert s == s[..i] + s[i..];
    ReplaceCharAppend(s[..i], s[i..], c, rep);
    ReplaceCharStep(s[i..], c, rep);
    assert s[i..][0] == s[i];
  }

  /** Every character of the result came from `s` (and is not `c`) or from `rep`. */
  lemma {:induction false} ReplaceCharSources(s: string, c: char, rep: string)
    ensures forall x :: x in ReplaceAll(s, [c], rep) ==> (x in s && x != c) || x in rep
  {
    if |s| > 0 {
      ReplaceCharSources(s[1..], c, rep);
    }
  }

  /** Replacing one character by one character is a character-by-character map. */
  lemma {:induction false} ReplaceCharPointwise(s: string, c: char, d: char)
    ensures |ReplaceAll(s, [c], [d])| == |s|
    ensures forall i :: 0 <= i < |s| ==>
              ReplaceAll(s, [c], [d])[i] == (if s[i] == c then d else s[i])
  {
    if |s| > 0 {
      ReplaceCharPointwise(s[1..], c, d);
      var r := ReplaceAll(s, [c], [d]);
      assert r == [if s[0] == c then d else s[0]] + ReplaceAll(s[1..], [c], [d]);
      forall i | 0 <= i < |s|
        ensures r[i] == (if s[i] == c then d else s[i])
      {
        if i > 0 {
          assert s[i] == s[1..][i - 1];
        }
      }
    }
  }

  /** A string lacking one of the pattern's characters has no occurrence of
      the pattern, so replacing leaves it unchanged. */
  lemma {:induction false} ReplaceAbsentPattern(s: string, pat: string, rep: string, x: char)
    requires x in pat && x !in s
    ensures ReplaceAll(s, pat, rep) == s
  {
    if |s| > 0 {
      ReplaceAbsentPattern(s[1..], pat, rep, x);
      assert s == [s[0]] + s[1..];
    }
  }

  /** Python's `str.lower()` on ASCII letters; other characters are kept. */
  function LowerChar(c: char): char
  {
    if 'A' <= c <= 'Z' then (c as int + 32) as char else c
  }

  function Lower(s: string): string
  {
    seq(|s|, i requires 0 <= i < |s| => LowerChar(s[i]))
  }

  /** Python's `sub in s`. */
  predicate Contains(s: string, sub: string)
  {
    exists i :: 0 <= i <= |s| - |sub| && OccursAt(s, sub, i)
  }

  /** `sub` occurs in `s` starting at index `i`. */
  predicate OccursAt(s: string, sub: string, i: int)
  {
    0 <= i && i + |sub| <= |s| && s[i..i + |sub|] == sub
  }

  /** `Path(dir) / name` for a non-empty `name`: an absolute `name` replaces
      `dir` altogether, as pathlib does; otherwise one separator joins them. */
  function Join(dir: string, name: string): string
  {
    if |name| > 0 && name[0] == '/' then name
    else if dir == "/" then "/" + name
    else dir + "/" + name
  }

  /** Index of the last '/' in `p`, or -1 when there is none. */
  function LastSlash(p: string): (k: int)
    ensures -1 <= k < |p|
    ensures k >= 0 ==> p[k] == '/'
  {
    if |p| == 0 then -1
    else if p[|p| - 1] == '/' then |p| - 1
    else LastSlash(p[..|p| - 1])
  }

  /** `Path(p).parent`: everything before the last separator; "/" for a
      top-level entry and "." for a bare name. */
  function Parent(p: string): string
  {
    var k := LastSlash(p);
    if k < 0 then "." else if k == 0 then "/" else p[..k]
  }

  lemma {:induction false} LastSlashAfter(a: string, b: string)
    requires '/' !in b
    ensures LastSlash(a + "/" + b) == |a|
  {
    if |b| > 0 {
      var s := a + "/" + b;
      assert s[..|s| - 1] == a + "/" + b[..|b| - 1];
      assert s[|s| - 1] == b[|b| - 1];
      LastSlashAfter(a, b[..|b| - 1]);
    }
  }

  /** The parent of `dir / name` is `dir` again. */
  lemma ParentOfJoin(dir: string, name: string)
    requires dir != "" && '/' !in name
    ensures Parent(Join(dir, name)) == dir
  {
    if dir == "/" {
      LastSlashAfter("", name);
      assert "" + "/" + name == "/" + name;
    } else {
      LastSlashAfter(dir, name);
      assert (dir + "/" + name)[..|dir|] == dir;
    }
  }

  /** `c` occurs nowhere in `s`, stated index by index. */
  predicate NoChar(s: string, c: char)
  {
    forall i :: 0 <= i < |s| ==> s[i] != c
  }

  lemma NoCharAbsent(s: string, c: char)
    ensures NoChar(s, c) <==> c !in s
  {
  }

  lemma {:induction false} NoCharAppend(a: string, b: string, c: char)
    ensures NoChar(a + b, c) <==> NoChar(a, c) && NoChar(b, c)
  {
    if NoChar(a, c) && NoChar(b, c) {
      forall i | 0 <= i < |a + b| ensures (a + b)[i] != c {
        if i >= |a| { assert (a + b)[i] == b[i - |a|]; }
      }
    }
    if NoChar(a + b, c) {
      forall i | 0 <= i < |a| ensures a[i] != c {
        assert (a + b)[i] == a[i];
      }
      forall i | 0 <= i < |b| ensures b[i] != c {
        assert (a + b)[|a| + i] == b[i];
      }
    }
  }
}
