/** JavaScript string operations that several components use. */
module Text {
  /** The white space that `trim` and `\s` know. */
  predicate IsSpace(c: char) {
    c == ' ' || '\t' <= c <= '\r' || c == '\U{A0}' || c == '\U{1680}' || '\U{2000}' <= c <= '\U{200A}'
    || c == '\U{2028}' || c == '\U{2029}' || c == '\U{202F}' || c == '\U{205F}' || c == '\U{3000}' || c == '\U{FEFF}'
  }

  function TrimStart(s: string): (r: string)
    ensures |r| <= |s| && (r == [] || !IsSpace(r[0]))
  {
    if s != [] && IsSpace(s[0]) then TrimStart(s[1..]) else s
  }

  function TrimEnd(s: string): (r: string)
    ensures |r| <= |s|
  {
    if s != [] && IsSpace(s[|s| - 1]) then TrimEnd(s[..|s| - 1]) else s
  }

  function Trim(s: string): string {
    TrimEnd(TrimStart(s))
  }

  /** Nonempty, with no white space at either end. */
  predicate Plain(s: string) {
    s != "" && !IsSpace(s[0]) && !IsSpace(s[|s| - 1])
  }

  predicate StartsWith(s: string, prefix: string)
    ensures StartsWith(s, prefix) ==> |prefix| <= |s|
  {
    prefix <= s
  }

  /** `s.includes(part)` */
  predicate Contains(s: string, part: string) {
    exists i :: 0 <= i <= |s| && StartsWith(s[i..], part)
  }

  function LowerChar(c: char): char {
    if 'A' <= c <= 'Z' then (c as int + 32) as char else if c == '\U{212A}' then 'k' else c
  }

  /** Lower-casing, exact for comparisons with ASCII words: only the Kelvin sign lower-cases into ASCII from outside. */
  function Lower(s: string): string {
    if s == "" then "" else [LowerChar(s[0])] + Lower(s[1..])
  }

  // ---------------------------------------------------------------- what the operations mean

  /** White space by its code points: the ASCII kinds, the no-break and other Unicode spaces, line and paragraph separators, and the byte order mark. */
  lemma SpaceMeans(c: char)
    ensures IsSpace(c) <==>
      c as int in [9, 10, 11, 12, 13, 32, 160, 5760, 8192, 8193, 8194, 8195, 8196, 8197, 8198, 8199, 8200, 8201, 8202,
                   8232, 8233, 8239, 8287, 12288, 65279]
  {
    var n := c as int;
    assert IsSpace(c) <==>
      (n == 32 || 9 <= n <= 13 || n == 160 || n == 5760 || 8192 <= n <= 8202 || n == 8232 || n == 8233
       || n == 8239 || n == 8287 || n == 12288 || n == 65279);
  }

  predicate AllSpace(s: string) {
    forall i :: 0 <= i < |s| ==> IsSpace(s[i])
  }

  /** Trimming takes away white space at both ends, all of it and nothing else. */
  lemma TrimMeans(s: string) returns (before: string, after: string)
    ensures s == before + Trim(s) + after && AllSpace(before) && AllSpace(after)
    ensures Trim(s) != "" ==> !IsSpace(Trim(s)[0]) && !IsSpace(Trim(s)[|Trim(s)| - 1])
  {
    hide IsSpace;
    before := TrimStartMeans(s);
    after := TrimEndMeans(TrimStart(s));
  }

  lemma {:induction false} TrimStartMeans(s: string) returns (before: string)
    ensures s == before + TrimStart(s) && AllSpace(before)
  {
    hide IsSpace;
    before := "";
    if s != "" && IsSpace(s[0]) {
      var rest := TrimStartMeans(s[1..]);
      before := [s[0]] + rest;
      assert s == [s[0]] + s[1..];
    }
  }

  lemma {:induction false} TrimEndMeans(s: string) returns (after: string)
    ensures s == TrimEnd(s) + after && AllSpace(after)
    ensures TrimEnd(s) != "" ==> !IsSpace(TrimEnd(s)[|TrimEnd(s)| - 1]) && TrimEnd(s)[0] == s[0]
  {
    hide IsSpace;
    after := "";
    if s != "" && IsSpace(s[|s| - 1]) {
      var rest := TrimEndMeans(s[..|s| - 1]);
      after := rest + [s[|s| - 1]];
      assert s == s[..|s| - 1] + [s[|s| - 1]];
    }
  }

  /** Lower-casing changes the 26 letters and the Kelvin sign, place by place. */
  lemma {:induction false} LowerMeans(s: string, i: nat)
    requires i < |s|
    ensures |Lower(s)| == |s|
    ensures
      var upper, lower := "ABCDEFGHIJKLMNOPQRSTUVWXYZ", "abcdefghijklmnopqrstuvwxyz";
      && (forall k :: 0 <= k < 26 ==> (s[i] == upper[k] ==> Lower(s)[i] == lower[k]))
      && (s[i] as int == 0x212A ==> Lower(s)[i] == 'k')
      && (s[i] !in upper && s[i] as int != 0x212A ==> Lower(s)[i] == s[i])
  {
    if i > 0 {
      LowerMeans(s[1..], i - 1);
    } else {
      LowerLength(s);
      LetterMeans(s[0]);
    }
  }

  lemma {:induction false} LowerLength(s: string)
    ensures |Lower(s)| == |s|
  {
    if s != "" { LowerLength(s[1..]); }
  }

  lemma LetterMeans(c: char)
    ensures
      var upper, lower := "ABCDEFGHIJKLMNOPQRSTUVWXYZ", "abcdefghijklmnopqrstuvwxyz";
      && (forall k :: 0 <= k < 26 ==> (c == upper[k] ==> LowerChar(c) == lower[k]))
      && (c as int == 0x212A ==> LowerChar(c) == 'k')
      && (c !in upper && c as int != 0x212A ==> LowerChar(c) == c)
  {
    var upper, lower := "ABCDEFGHIJKLMNOPQRSTUVWXYZ", "abcdefghijklmnopqrstuvwxyz";
    assert forall k :: 0 <= k < 26 ==> upper[k] as int == 65 + k && lower[k] as int == 97 + k;
    if 'A' <= c <= 'Z' {
      assert upper[c as int - 65] == c;
    }
  }

  const UPPER := "ABCDEFGHIJKLMNOPQRSTUVWXYZ"
  const LOWER := "abcdefghijklmnopqrstuvwxyz"

  lemma UpperRange(c: char)
    ensures 'A' <= c <= 'Z' <==> c in UPPER
  {
    assert |UPPER| == 26 && forall k :: 0 <= k < |UPPER| ==> UPPER[k] as int == 65 + k;
    if 'A' <= c <= 'Z' { assert UPPER[c as int - 65] == c; }
  }

  lemma LowerRange(c: char)
    ensures 'a' <= c <= 'z' <==> c in LOWER
  {
    assert |LOWER| == 26 && forall k :: 0 <= k < |LOWER| ==> LOWER[k] as int == 97 + k;
    if 'a' <= c <= 'z' { assert LOWER[c as int - 97] == c; }
  }

  const HEX := "0123456789abcdef"

  lemma HexRange(c: char)
    ensures c in HEX <==> '0' <= c <= '9' || 'a' <= c <= 'f'
  {
    assert |HEX| == 16 && forall i :: 0 <= i < |HEX| ==> HEX[i] as int == if i < 10 then 48 + i else 87 + i;
    if '0' <= c <= '9' { assert HEX[c as int - 48] == c; }
    if 'a' <= c <= 'f' { assert HEX[c as int - 87] == c; }
  }

  /** `sha256:` and 64 lower-case hexadecimal digits. */
  ghost predicate Sha256Text(s: string) {
    exists hex: string :: |hex| == 64 && s == "sha256:" + hex && forall c :: c in hex ==> c in HEX
  }

  lemma Sha256Means(s: string)
    ensures Sha256Text(s) <==>
      |s| == 71 && s[..7] == "sha256:" && forall i :: 7 <= i < 71 ==> '0' <= s[i] <= '9' || 'a' <= s[i] <= 'f'
  {
    hide HEX;
    forall c ensures c in HEX <==> '0' <= c <= '9' || 'a' <= c <= 'f' { HexRange(c); }
    if |s| == 71 && s[..7] == "sha256:" && forall i :: 7 <= i < 71 ==> '0' <= s[i] <= '9' || 'a' <= s[i] <= 'f' {
      var hex := s[7..];
      assert s == "sha256:" + hex;
      forall c | c in hex ensures c in HEX {
        var i :| 0 <= i < |hex| && hex[i] == c;
        assert s[i + 7] == c;
      }
    }
    if hex: string :| |hex| == 64 && s == "sha256:" + hex && forall c :: c in hex ==> c in HEX {
      assert s[..7] == "sha256:";
      assert forall i :: 7 <= i < 71 ==> s[i] == hex[i - 7] && hex[i - 7] in hex;
    }
  }

  lemma StartsWithMeans(s: string, prefix: string)
    ensures StartsWith(s, prefix) <==> exists rest: string :: s == prefix + rest
  {
    if StartsWith(s, prefix) {
      assert s == prefix + s[|prefix|..];
    }
  }

  lemma ContainsMeans(s: string, part: string)
    ensures Contains(s, part) <==> exists before: string, after: string :: s == before + part + after
  {
    if Contains(s, part) {
      var i :| 0 <= i <= |s| && StartsWith(s[i..], part);
      assert s == s[..i] + part + s[i + |part|..];
    }
    if before: string, after: string :| s == before + part + after {
      assert s[|before|..] == part + after;
    }
  }
}
