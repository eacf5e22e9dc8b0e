/** Strings and bytes as the Rust standard library treats them: `str::replace`
    and `str::as_bytes` (UTF-8). */
module Text {

  /** A Rust `u8`. */
  type byte = b: int | 0 <= b < 256

  /** `pat` occurs in `s` starting at index `i`. */
  ghost predicate MatchAt(s: string, pat: string, i: nat)
  {
    i + |pat| <= |s| && s[i..i + |pat|] == pat
  }

  ghost predicate Occurs(s: string, pat: string)
  {
    exists i: nat :: MatchAt(s, pat, i)
  }

  /** The first character of `pat` appears nowhere else in it, so two
      occurrences of `pat` can never overlap. */
  ghost predicate HeadUnique(pat: string)
  {
    |pat| > 0 && forall k :: 0 < k < |pat| ==> pat[k] != pat[0]
  }

  /** `str::replace`: scan left to right, replacing each occurrence of `pat`
      and resuming the scan right after it (occurrences do not overlap). */
  function ReplaceAll(s: string, pat: string, rep: string): (r: string)
    requires pat != ""
    ensures |rep| >= |pat| ==> |r| >= |s|
    ensures |rep| <= |pat| ==> |r| <= |s|
    ensures rep == pat ==> r == s
    decreases |s|
  {
    if |s| < |pat| then s
    else if s[..|pat|] == pat then
      assert s == s[..|pat|] + s[|pat|..];
      rep + ReplaceAll(s[|pat|..], pat, rep)
    else
      assert s == [s[0]] + s[1..];
      [s[0]] + ReplaceAll(s[1..], pat, rep)
  }

  /** The pieces of `parts` with `sep` between neighbours. */
  function Join(parts: seq<string>, sep: string): string
    requires |parts| > 0
  {
    if |parts| == 1 then parts[0] else parts[0] + sep + Join(parts[1..], sep)
  }

  lemma MatchAtTail(s: string, pat: string, i: nat)
    requires |s| > 0
    ensures MatchAt(s[1..], pat, i) <==> MatchAt(s, pat, i + 1)
  {
    if i + |pat| <= |s[1..]| {
      assert s[1..][i..i + |pat|] == s[i + 1..i + 1 + |pat|];
    }
  }

  /** Replacing a pattern that does not occur leaves the text unchanged. */
  lemma {:induction false} ReplaceAbsent(s: string, pat: string, rep: string)
    requires pat != ""
    ensures !Occurs(s, pat) ==> ReplaceAll(s, pat, rep) == s
    decreases |s|
  {
    if !Occurs(s, pat) && |s| >= |pat| {
      assert !MatchAt(s, pat, 0);
      assert s[0..|pat|] == s[..|pat|];
      forall i: nat ensures !MatchAt(s[1..], pat, i) {
        MatchAtTail(s, pat, i);
      }
      ReplaceAbsent(s[1..], pat, rep);
      assert [s[0]] + s[1..] == s;
    }
  }

  /** When the first occurrence of `pat` in `a + pat + b` is the one after `a`,
      `a` is copied, that occurrence becomes `rep`, and the scan goes on in `b`. */
  lemma {:induction false} ReplaceFirst(a: string, pat: string, b: string, rep: string)
    requires pat != ""
    requires forall i: nat :: i < |a| ==> !MatchAt(a + pat + b, pat, i)
    ensures ReplaceAll(a + pat + b, pat, rep) == a + rep + ReplaceAll(b, pat, rep)
    decreases |a|
  {
    var s := a + pat + b;
    if a == [] {
      assert s == pat + b;
      assert s[..|pat|] == pat;
      assert s[|pat|..] == b;
    } else {
      assert !MatchAt(s, pat, 0);
      assert s[0..|pat|] == s[..|pat|];
      assert s[1..] == a[1..] + pat + b;
      forall i: nat | i < |a[1..]| ensures !MatchAt(a[1..] + pat + b, pat, i) {
        MatchAtTail(s, pat, i);
      }
      ReplaceFirst(a[1..], pat, b, rep);
      assert s[0] == a[0];
      assert [a[0]] + a[1..] == a;
      assert [s[0]] + (a[1..] + rep + ReplaceAll(b, pat, rep)) == a + rep + ReplaceAll(b, pat, rep);
    }
  }

  /** If `a` holds no occurrence of a non-self-overlapping `pat`, no occurrence
      in `a + pat + b` starts inside `a`. */
  lemma NoMatchBefore(a: string, pat: string, b: string)
    requires HeadUnique(pat) && !Occurs(a, pat)
    ensures forall i: nat :: i < |a| ==> !MatchAt(a + pat + b, pat, i)
  {
    var s := a + pat + b;
    forall i: nat | i < |a| ensures !MatchAt(s, pat, i) {
      if i + |pat| <= |a| {
        assert s[i..i + |pat|] == a[i..i + |pat|];
        assert !MatchAt(a, pat, i);
      } else {
        var k := |a| - i;
        assert s[i + k] == pat[0];
        assert s[i..i + |pat|][k] != pat[k];
      }
    }
  }

  /** Every occurrence is replaced: a text made of pattern-free pieces joined
      by a non-self-overlapping `pat` becomes the same pieces joined by `rep`. */
  lemma {:induction false} ReplaceJoin(parts: seq<string>, pat: string, rep: string)
    requires |parts| > 0 && HeadUnique(pat)
    requires forall i :: 0 <= i < |parts| ==> !Occurs(parts[i], pat)
    ensures ReplaceAll(Join(parts, pat), pat, rep) == Join(parts, rep)
    decreases |parts|
  {
    if |parts| == 1 {
      ReplaceAbsent(parts[0], pat, rep);
    } else {
      var rest := Join(parts[1..], pat);
      NoMatchBefore(parts[0], pat, rest);
      ReplaceFirst(parts[0], pat, rest, rep);
      ReplaceJoin(parts[1..], pat, rep);
    }
  }

  /** The UTF-8 encoding of one Unicode scalar value. */
  function CharUtf8(c: char): (r: seq<byte>)
    ensures 1 <= |r| <= 4
    ensures |r| == 1 <==> c as int < 0x80
  {
    var n := c as int;
    if n < 0x80 then [n]
    else if n < 0x800 then [0xC0 + n / 0x40, 0x80 + n % 0x40]
    else if n < 0x1_0000 then [0xE0 + n / 0x1000, 0x80 + n / 0x40 % 0x40, 0x80 + n % 0x40]
    else [0xF0 + n / 0x4_0000, 0x80 + n / 0x1000 % 0x40, 0x80 + n / 0x40 % 0x40, 0x80 + n % 0x40]
  }

  /** `str::as_bytes`: the UTF-8 encoding of a string. An ASCII string is
      encoded one byte per character, each byte being the character's code. */
  function Utf8(s: string): (r: seq<byte>)
    ensures |r| >= |s|
    ensures (forall i :: 0 <= i < |s| ==> s[i] as int < 0x80) ==>
              |r| == |s| && forall i :: 0 <= i < |s| ==> r[i] == s[i] as int
  {
    if s == [] then [] else CharUtf8(s[0]) + Utf8(s[1..])
  }

  /** Encoding distributes over concatenation. */
  lemma {:induction false} Utf8Append(a: string, b: string)
    ensures Utf8(a + b) == Utf8(a) + Utf8(b)
  {
    if a == [] {
      assert a + b == b;
    } else {
      assert (a + b)[0] == a[0];
      assert (a + b)[1..] == a[1..] + b;
      Utf8Append(a[1..], b);
    }
  }
}
