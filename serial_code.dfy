/** `generateSerialCode`: the canonical text of a random UUID with its dashes
    removed, cut to its first ten characters and upper-cased. The random UUID
    itself is an input. */
module SerialCode {

  /** A lower-case hexadecimal digit, as `UUID.toString` writes them. */
  predicate IsLowerHex(c: char) {
    ('0' <= c <= '9') || ('a' <= c <= 'f')
  }

  /** The canonical 36-character text of a UUID: 8-4-4-4-12 lower-case hex
      digits separated by dashes at positions 8, 13, 18 and 23. */
  predicate IsCanonicalUuid(u: string) {
    |u| == 36 &&
    forall i | 0 <= i < 36 ::
      if i == 8 || i == 13 || i == 18 || i == 23 then u[i] == '-' else IsLowerHex(u[i])
  }

  /** `String.replace("-", "")`. */
  function RemoveDashes(s: string): string {
    if s == [] then []
    else (if s[0] == '-' then [] else [s[0]]) + RemoveDashes(s[1..])
  }

  /** `Character.toUpperCase` on the ASCII letters; other characters are kept. */
  function UpperChar(c: char): char {
    if 'a' <= c <= 'z' then (c as int - 'a' as int + 'A' as int) as char else c
  }

  /** `String.toUpperCase` restricted to ASCII: only 'a'..'z' change, which is
      exact on the hexadecimal digits a serial code is cut from. */
  function ToUpper(s: string): (r: string)
    ensures |r| == |s| && forall i | 0 <= i < |s| :: r[i] == UpperChar(s[i])
  {
    if s == [] then [] else [UpperChar(s[0])] + ToUpper(s[1..])
  }

  /** The characters a serial code is made of. */
  const UpperHexDigits: string := "0123456789ABCDEF"

  lemma {:induction false} RemoveDashesAppend(a: string, b: string)
    ensures RemoveDashes(a + b) == RemoveDashes(a) + RemoveDashes(b)
  {
    if a != [] {
      assert (a + b)[1..] == a[1..] + b;
      RemoveDashesAppend(a[1..], b);
    } else {
      assert a + b == b;
    }
  }

  lemma {:induction false} RemoveDashesKeepsDashFree(s: string)
    requires forall i | 0 <= i < |s| :: s[i] != '-'
    ensures RemoveDashes(s) == s
  {
    if s != [] {
      RemoveDashesKeepsDashFree(s[1..]);
    }
  }

  /** The first ten characters left once the dashes are gone are the first
      group of eight digits and the first two digits of the second group. */
  lemma UuidHexPrefix(u: string)
    requires IsCanonicalUuid(u)
    ensures |RemoveDashes(u)| >= 10
    ensures RemoveDashes(u)[..10] == u[..8] + u[9..11]
  {
    assert u == u[..8] + [u[8]] + u[9..13] + u[13..];
    RemoveDashesAppend(u[..8] + [u[8]] + u[9..13], u[13..]);
    RemoveDashesAppend(u[..8] + [u[8]], u[9..13]);
    RemoveDashesAppend(u[..8], [u[8]]);
    RemoveDashesKeepsDashFree(u[..8]);
    RemoveDashesKeepsDashFree(u[9..13]);
    assert RemoveDashes([u[8]]) == [];
    assert RemoveDashes(u) == u[..8] + u[9..13] + RemoveDashes(u[13..]);
  }

  /** `generateSerialCode` for the UUID `uuid`: ten upper-case hexadecimal
      characters, the upper-cased first ten hex digits of the UUID. */
  function GenerateSerialCode(uuid: string): (r: string)
    requires IsCanonicalUuid(uuid)
    ensures |r| == 10
    ensures forall i | 0 <= i < |r| :: r[i] in UpperHexDigits
    ensures r == ToUpper(uuid[..8] + uuid[9..11])
  {
    UuidHexPrefix(uuid);
    var digits := uuid[..8] + uuid[9..11];
    assert forall i | 0 <= i < 10 :: IsLowerHex(digits[i]) by {
      forall i | 0 <= i < 10 ensures IsLowerHex(digits[i]) {
        if i < 8 { assert digits[i] == uuid[i]; } else { assert digits[i] == uuid[i + 1]; }
      }
    }
    ToUpper(RemoveDashes(uuid)[..10])
  }
}
