/** What the comparison of digests accepts: the text of a digest in either case of its letters, with white space
    around it. */
module TransferDigest {
  import opened TransferModel

  /** The white space of Unicode. */
  predicate White(c: char) {
    c in [' ', '\t', '\n', '\r', '\U{000B}', '\U{000C}', '\U{0085}', '\U{00A0}', '\U{1680}', '\U{2000}', '\U{2001}',
          '\U{2002}', '\U{2003}', '\U{2004}', '\U{2005}', '\U{2006}', '\U{2007}', '\U{2008}', '\U{2009}', '\U{200A}',
          '\U{2028}', '\U{2029}', '\U{202F}', '\U{205F}', '\U{3000}']
  }

  predicate WhiteIn(s: string, low: nat, high: nat) {
    forall k :: low <= k < high && k < |s| ==> White(s[k])
  }

  /** A SHA-256 digest in lower-case hexadecimal. */
  predicate LowerHexText(d: string) {
    |d| == 64 && forall k :: 0 <= k < |d| ==> '0' <= d[k] <= '9' || 'a' <= d[k] <= 'f'
  }

  /** The letter `c`, or its capital. */
  predicate SameLetter(u: char, c: char) {
    || u == c
    || (c == 'a' && u == 'A') || (c == 'b' && u == 'B') || (c == 'c' && u == 'C')
    || (c == 'd' && u == 'D') || (c == 'e' && u == 'E') || (c == 'f' && u == 'F')
  }

  predicate SameLetters(u: string, d: string) {
    |u| == |d| && forall k :: 0 <= k < |u| ==> SameLetter(u[k], d[k])
  }

  /** `raw` is the digest `d` in either case, with white space around it. */
  ghost predicate Spells(raw: string, d: string) {
    exists i, j :: 0 <= i <= j <= |raw| && SpellsAt(raw, d, i, j)
  }

  ghost predicate SpellsAt(raw: string, d: string, i: nat, j: nat)
    requires i <= j <= |raw|
  {
    WhiteIn(raw, 0, i) && SameLetters(raw[i..j], d) && WhiteIn(raw, j, |raw|)
  }

  lemma WhiteIsBlank(c: char)
    ensures White(c) <==> Blank(c)
  {
  }

  lemma {:induction false} TrimmedLeft(s: string) returns (i: nat)
    ensures i <= |s| && TrimLeft(s) == s[i..] && WhiteIn(s, 0, i)
  {
    if s != [] && Blank(s[0]) {
      WhiteIsBlank(s[0]);
      var k := TrimmedLeft(s[1..]);
      i := k + 1;
      forall m | 0 < m < i ensures White(s[m]) { assert s[m] == s[1..][m - 1]; }
    } else {
      i := 0;
    }
  }

  lemma {:induction false} TrimmedRight(s: string) returns (j: nat)
    ensures j <= |s| && TrimRight(s) == s[..j] && WhiteIn(s, j, |s|)
  {
    if s != [] && Blank(s[|s| - 1]) {
      var front := s[..|s| - 1];
      WhiteIsBlank(s[|s| - 1]);
      j := TrimmedRight(front);
      assert front[..j] == s[..j];
      forall m | j <= m < |s| ensures White(s[m]) {
        if m < |s| - 1 { assert front[m] == s[m]; }
      }
    } else {
      j := |s|;
    }
  }

  lemma {:induction false} TrimLeftSkips(s: string, i: nat)
    requires i <= |s| && WhiteIn(s, 0, i)
    ensures TrimLeft(s) == TrimLeft(s[i..])
  {
    if i > 0 {
      var rest := s[1..];
      WhiteIsBlank(s[0]);
      forall m | 0 <= m < i - 1 ensures White(rest[m]) { assert rest[m] == s[m + 1]; }
      TrimLeftSkips(rest, i - 1);
      assert rest[i - 1..] == s[i..];
    } else {
      assert s[0..] == s;
    }
  }

  lemma {:induction false} TrimRightSkips(s: string, j: nat)
    requires j <= |s| && WhiteIn(s, j, |s|)
    ensures TrimRight(s) == TrimRight(s[..j])
  {
    if j < |s| {
      var front := s[..|s| - 1];
      WhiteIsBlank(s[|s| - 1]);
      forall m | j <= m < |front| ensures White(front[m]) { assert front[m] == s[m]; }
      TrimRightSkips(front, j);
      assert front[..j] == s[..j];
    } else {
      assert s[..j] == s;
    }
  }

  lemma LowerLetter(u: char, c: char)
    requires '0' <= c <= '9' || 'a' <= c <= 'f'
    ensures LowerChar(u) == c <==> SameLetter(u, c)
    ensures SameLetter(u, c) ==> !Blank(u)
  {
  }

  lemma LowerLetters(u: string, d: string)
    requires LowerHexText(d)
    ensures Lower(u) == d <==> SameLetters(u, d)
  {
    if |u| == |d| {
      forall k | 0 <= k < |u| ensures Lower(u)[k] == d[k] <==> SameLetter(u[k], d[k]) { LowerLetter(u[k], d[k]); }
    }
  }

  /** A digest reported as `raw` is compared as `d` exactly when `raw` spells `d`. */
  lemma NormaliseExact(raw: string, d: string)
    requires LowerHexText(d)
    ensures Normalise(raw) == d <==> Spells(raw, d)
  {
    if Normalise(raw) == d {
      var i := TrimmedLeft(raw);
      var k := TrimmedRight(raw[i..]);
      LowerLetters(raw[i..][..k], d);
      assert raw[i..][..k] == raw[i..i + k];
      forall m | i + k <= m < |raw| ensures White(raw[m]) { assert raw[m] == raw[i..][m - i]; }
      assert SpellsAt(raw, d, i, i + k);
    }
    if Spells(raw, d) {
      var i, j :| 0 <= i <= j <= |raw| && SpellsAt(raw, d, i, j);
      SpelledIsNormal(raw, d, i, j);
    }
  }

  lemma SpelledIsNormal(raw: string, d: string, i: nat, j: nat)
    requires LowerHexText(d) && i <= j <= |raw| && SpellsAt(raw, d, i, j)
    ensures Normalise(raw) == d
  {
    var u, rest := raw[i..j], raw[i..];
    LowerLetter(u[0], d[0]);
    LowerLetter(u[63], d[63]);
    assert rest[0] == u[0] && rest[..64] == u;
    forall m | 64 <= m < |rest| ensures White(rest[m]) { assert rest[m] == raw[i + m]; }
    TrimLeftSkips(raw, i);
    TrimRightSkips(rest, 64);
    LowerLetters(u, d);
  }

  /** What is compared is always the lower-case form. */
  lemma NormalIsLower(raw: string)
    requires ValidDigest(Normalise(raw))
    ensures LowerHexText(Normalise(raw)) && Spells(raw, Normalise(raw))
  {
    var d := Normalise(raw);
    var trimmed := TrimRight(TrimLeft(raw));
    forall k | 0 <= k < |d| ensures '0' <= d[k] <= '9' || 'a' <= d[k] <= 'f' { assert d[k] == LowerChar(trimmed[k]); }
    NormaliseExact(raw, d);
  }

  /** The source's check of its digest accepts exactly the texts that spell some digest. */
  lemma WellFormedWhen(raw: string)
    ensures ValidDigest(Normalise(raw)) <==> exists d :: LowerHexText(d) && Spells(raw, d)
  {
    if ValidDigest(Normalise(raw)) { NormalIsLower(raw); }
    forall d | LowerHexText(d) && Spells(raw, d) ensures ValidDigest(Normalise(raw)) { NormaliseExact(raw, d); }
  }
}
