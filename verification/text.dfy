/** The string helpers of Go's standard library that the backend relies on, with the
    characterisations the other modules reason from. */
module Text {

  datatype Option<+T> = None | Some(value: T)

  /** Go's unicode.IsSpace. */
  predicate IsSpace(c: char) {
    c in {'\t', '\n', '\U{0B}', '\U{0C}', '\r', ' ', '\U{85}', '\U{A0}', '\U{1680}', '\U{2028}', '\U{2029}',
          '\U{202F}', '\U{205F}', '\U{3000}'}
    || '\U{2000}' <= c <= '\U{200A}'
  }

  lemma SpaceCodes(c: char)
    ensures IsSpace(c) <==>
              c as int in {9, 10, 11, 12, 13, 32, 0x85, 0xA0, 0x1680, 0x2028, 0x2029, 0x202F, 0x205F, 0x3000}
              || 0x2000 <= c as int <= 0x200A
  {
  }

  predicate IsBlank(s: string) {
    forall c :: c in s ==> IsSpace(c)
  }

  /** A string that strings.TrimSpace leaves as it is. */
  predicate IsTrimmed(s: string) {
    s != "" ==> !IsSpace(s[0]) && !IsSpace(s[|s| - 1])
  }

  function TrimLeft(s: string): (r: string) {
    if s != "" && IsSpace(s[0]) then TrimLeft(s[1..]) else s
  }

  function TrimRight(s: string): (r: string) {
    if s != "" && IsSpace(s[|s| - 1]) then TrimRight(s[..|s| - 1]) else s
  }

  /** strings.TrimSpace. */
  function TrimSpace(s: string): string {
    TrimRight(TrimLeft(s))
  }

  lemma {:induction false} TrimLeftDrops(s: string) returns (k: nat)
    ensures k <= |s| && TrimLeft(s) == s[k..] && IsBlank(s[..k])
    ensures TrimLeft(s) != "" ==> !IsSpace(TrimLeft(s)[0])
  {
    if s != "" && IsSpace(s[0]) {
      var j := TrimLeftDrops(s[1..]);
      k := j + 1;
      assert s[..k] == [s[0]] + s[1..][..j];
    } else {
      k := 0;
    }
  }

  lemma {:induction false} TrimRightDrops(s: string) returns (k: nat)
    ensures k <= |s| && TrimRight(s) == s[..k] && IsBlank(s[k..])
    ensures TrimRight(s) != "" ==> !IsSpace(TrimRight(s)[|TrimRight(s)| - 1])
  {
    if s != "" && IsSpace(s[|s| - 1]) {
      k := TrimRightDrops(s[..|s| - 1]);
      assert s[k..] == s[..|s| - 1][k..] + [s[|s| - 1]];
    } else {
      k := |s|;
      assert s[..k] == s;
    }
  }

  /** TrimSpace removes blank text from both ends and nothing else. */
  lemma TrimSpaceCuts(s: string) returns (lo: nat, hi: nat)
    ensures lo <= hi <= |s| && TrimSpace(s) == s[lo..hi]
    ensures IsBlank(s[..lo]) && IsBlank(s[hi..])
    ensures IsTrimmed(TrimSpace(s))
  {
    lo := TrimLeftDrops(s);
    var k := TrimRightDrops(s[lo..]);
    hi := lo + k;
    assert s[lo..][..k] == s[lo..hi];
    assert s[lo..][k..] == s[hi..];
  }

  lemma TrimSpaceBlank(s: string)
    ensures TrimSpace(s) == "" <==> IsBlank(s)
  {
    var lo, hi := TrimSpaceCuts(s);
    assert s == s[..lo] + s[lo..hi] + s[hi..];
    if TrimSpace(s) == "" {
      assert s == s[..lo] + s[hi..];
    } else {
      assert TrimSpace(s)[0] == s[lo];
      assert s[lo] in s;
    }
  }

  lemma TrimSpaceFixed(s: string)
    ensures TrimSpace(s) == s <==> IsTrimmed(s)
  {
    var _, _ := TrimSpaceCuts(s);
  }
}
