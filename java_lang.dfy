/**
 * The few pieces of java.lang that the store's business rules lean on:
 * 32-bit `int` arithmetic, `String.hashCode`, `String.toLowerCase` and
 * `String.contains`. Strings are sequences of characters; a character's
 * code is its Unicode scalar value, which is Java's UTF-16 code unit for
 * every character of the Basic Multilingual Plane.
 */
module JavaLang {

  const TWO_31: int := 0x8000_0000
  const TWO_32: int := 0x1_0000_0000

  /** The values of Java's `int`. */
  predicate IsInt32(x: int) {
    -TWO_31 <= x < TWO_31
  }

  /** Java `int` arithmetic: x reduced to 32-bit two's complement. */
  function Wrap32(x: int): int {
    (x + TWO_31) % TWO_32 - TWO_31
  }

  /** Wrapping yields an `int` that differs from x by a multiple of 2^32. */
  lemma Wrap32Spec(x: int)
    ensures IsInt32(Wrap32(x))
    ensures Wrap32(x) == x - TWO_32 * ((x + TWO_31) / TWO_32)
  {
  }

  /** Wrapping only sees x modulo 2^32. */
  lemma {:induction false} Wrap32Periodic(x: int, k: int)
    ensures Wrap32(x + TWO_32 * k) == Wrap32(x)
    decreases if k < 0 then -k else k
  {
    if k > 0 {
      Wrap32Periodic(x, k - 1);
      assert x + TWO_32 * k == (x + TWO_32 * (k - 1)) + TWO_32;
    } else if k < 0 {
      Wrap32Periodic(x, k + 1);
      assert x + TWO_32 * (k + 1) == (x + TWO_32 * k) + TWO_32;
    }
  }

  /** `String.hashCode`: h = 31 * h + c over the characters, in `int` arithmetic. */
  function StringHash(s: string): int {
    if |s| == 0 then 0
    else Wrap32(31 * StringHash(s[..|s| - 1]) + s[|s| - 1] as int)
  }

  /**
   * The closed form that the Java documentation gives for `String.hashCode`:
   * s[0]*31^(n-1) + s[1]*31^(n-2) + ... + s[n-1], with unbounded integers.
   */
  function HashPolynomial(s: string): int {
    if |s| == 0 then 0
    else 31 * HashPolynomial(s[..|s| - 1]) + s[|s| - 1] as int
  }

  /** The iterative `int` hash is the polynomial reduced to 32 bits. */
  lemma {:induction false} StringHashIsPolynomial(s: string)
    ensures IsInt32(StringHash(s))
    ensures StringHash(s) == Wrap32(HashPolynomial(s))
  {
    if |s| == 0 {
    } else {
      var init, c := s[..|s| - 1], s[|s| - 1] as int;
      StringHashIsPolynomial(init);
      var h, p := StringHash(init), HashPolynomial(init);
      Wrap32Spec(p);
      var q := (p + TWO_31) / TWO_32;
      assert h == p - TWO_32 * q;
      assert 31 * h + c == (31 * p + c) + TWO_32 * (-31 * q);
      Wrap32Periodic(31 * p + c, -31 * q);
      Wrap32Spec(31 * h + c);
    }
  }

  /**
   * `Character.toLowerCase` for the letters the catalogue uses: Latin A-Z and
   * the Cyrillic capitals U+0400..U+042F. Every other character is kept.
   */
  function LowerChar(c: char): char {
    if 'A' <= c <= 'Z' then (c as int + 32) as char
    else if '\U{0410}' <= c <= '\U{042F}' then (c as int + 32) as char
    else if '\U{0400}' <= c <= '\U{040F}' then (c as int + 80) as char
    else c
  }

  /** `String.toLowerCase`, character by character. */
  function ToLower(s: string): string {
    seq(|s|, i requires 0 <= i < |s| => LowerChar(s[i]))
  }

  /** `sub` occurs in `s` starting at index i. */
  predicate OccursAt(s: string, sub: string, i: int) {
    0 <= i && i + |sub| <= |s| && s[i..i + |sub|] == sub
  }

  /** `String.contains`: try each start position in turn. */
  predicate Contains(s: string, sub: string) {
    if sub <= s then true
    else if |s| == 0 then false
    else Contains(s[1..], sub)
  }

  /** `contains` holds exactly when `sub` occurs somewhere in `s`. */
  lemma {:induction false} ContainsIff(s: string, sub: string)
    ensures Contains(s, sub) <==> exists i :: OccursAt(s, sub, i)
  {
    if sub <= s {
      assert OccursAt(s, sub, 0);
    } else if |s| == 0 {
      assert forall i :: !OccursAt(s, sub, i);
    } else {
      ContainsIff(s[1..], sub);
      assert |sub| <= |s| ==> s[..|sub|] != sub;
      forall i | OccursAt(s, sub, i)
        ensures OccursAt(s[1..], sub, i - 1)
      {
        assert s[1..][i - 1..i - 1 + |sub|] == s[i..i + |sub|];
      }
      forall i | OccursAt(s[1..], sub, i)
        ensures OccursAt(s, sub, i + 1)
      {
        assert s[1..][i..i + |sub|] == s[i + 1..i + 1 + |sub|];
      }
    }
  }
}
