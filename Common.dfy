/** Small value helpers shared by the storefront's components: optional values,
    JavaScript's `x || default` on strings, `String.prototype.replace` with a
    string pattern, ASCII lower-casing, `includes`, and decimal printing. */
module Common {

  datatype Option<+T> = None | Some(value: T)

  /** The WhatsApp click-to-chat address every link starts with. */
  const WaPrefix: string := "https://wa.me/"

  /** JavaScript truthiness of an optional string: absent and "" are falsy. */
  predicate Truthy(o: Option<string>)
  {
    o.Some? && o.value != ""
  }

  /** `o || fallback` for an optional string. */
  function OrDefault(o: Option<string>, fallback: string): (r: string)
    ensures Truthy(o) ==> r == o.value
    ensures !Truthy(o) ==> r == fallback
  {
    if Truthy(o) then o.value else fallback
  }

  /** `o || ''`: the value of a present field, the empty string otherwise. */
  function OrEmpty(o: Option<string>): (r: string)
    ensures o.Some? ==> r == o.value
    ensures o.None? ==> r == ""
  {
    OrDefault(o, "")
  }

  /** `s` is a subsequence of `t`: `t` with some elements deleted, order kept. */
  predicate IsSubseq<T(==)>(s: seq<T>, t: seq<T>)
    decreases |t|
  {
    s == [] || (t != [] && ((s[0] == t[0] && IsSubseq(s[1..], t[1..])) || IsSubseq(s, t[1..])))
  }

  lemma {:induction false} SubseqNoLonger<T>(s: seq<T>, t: seq<T>)
    requires IsSubseq(s, t)
    ensures |s| <= |t|
    decreases |t|
  {
    if s != [] {
      if s[0] == t[0] && IsSubseq(s[1..], t[1..]) {
        SubseqNoLonger(s[1..], t[1..]);
      } else {
        SubseqNoLonger(s, t[1..]);
      }
    }
  }

  /** JavaScript's `s.length`: the number of UTF-16 code units, where a
      character above U+FFFF takes two (a surrogate pair). */
  function Utf16Length(s: string): (n: nat)
    ensures |s| <= n <= 2 * |s|
  {
    if s == [] then 0 else (if s[0] as int > 0xFFFF then 2 else 1) + Utf16Length(s[1..])
  }

  /** The code-unit length equals the character count exactly when every
      character lies in the Basic Multilingual Plane. */
  lemma {:induction false} Utf16LengthIsCountInBmp(s: string)
    ensures Utf16Length(s) == |s| <==> forall i :: 0 <= i < |s| ==> s[i] as int <= 0xFFFF
  {
    if s != [] {
      Utf16LengthIsCountInBmp(s[1..]);
      if forall i :: 0 <= i < |s| ==> s[i] as int <= 0xFFFF {
        assert forall i :: 0 <= i < |s| - 1 ==> s[1..][i] == s[i + 1];
      } else if s[0] as int <= 0xFFFF {
        var i :| 0 <= i < |s| && s[i] as int > 0xFFFF;
        assert s[1..][i - 1] == s[i];
      }
    }
  }

  /** `s.startsWith('0')`. */
  predicate StartsWithZero(s: string)
  {
    |s| > 0 && s[0] == '0'
  }

  /** Index of the first '+' in `s`, if any (the reference definition). */
  predicate IsFirstPlus(s: string, k: int)
  {
    0 <= k < |s| && s[k] == '+' && forall j :: 0 <= j < k ==> s[j] != '+'
  }

  /** `s.replace("+", "")`: a string pattern replaces only its first occurrence. */
  function StripFirstPlus(s: string): (r: string)
  {
    if s == [] then []
    else if s[0] == '+' then s[1..]
    else [s[0]] + StripFirstPlus(s[1..])
  }

  /** Only the first '+' is removed: with no '+' the string is unchanged,
      otherwise exactly the character at the first '+' is dropped. */
  lemma {:induction false} StripFirstPlusRemovesFirstOnly(s: string)
    ensures (forall j :: 0 <= j < |s| ==> s[j] != '+') ==> StripFirstPlus(s) == s
    ensures forall k :: IsFirstPlus(s, k) ==> StripFirstPlus(s) == s[..k] + s[k + 1..]
  {
    if s != [] {
      StripFirstPlusRemovesFirstOnly(s[1..]);
      forall k | IsFirstPlus(s, k)
        ensures StripFirstPlus(s) == s[..k] + s[k + 1..]
      {
        if k > 0 {
          assert IsFirstPlus(s[1..], k - 1);
          assert s[1..][..k - 1] + s[1..][k..] == s[1..k] + s[k + 1..];
          assert [s[0]] + s[1..k] == s[..k];
        }
      }
    }
  }

  /** `String.prototype.toLowerCase` on the ASCII letters. */
  function LowerChar(c: char): (r: char)
    ensures 'A' <= c <= 'Z' ==> 'a' <= r <= 'z'
    ensures !('A' <= c <= 'Z') ==> r == c
  {
    if 'A' <= c <= 'Z' then (c as int + 32) as char else c
  }

  function Lower(s: string): (r: string)
    ensures |r| == |s|
    ensures forall i :: 0 <= i < |s| ==> r[i] == LowerChar(s[i])
  {
    if s == [] then [] else [LowerChar(s[0])] + Lower(s[1..])
  }

  predicate StartsWith(s: string, prefix: string)
  {
    |prefix| <= |s| && s[..|prefix|] == prefix
  }

  predicate EndsWith(s: string, suffix: string)
  {
    |suffix| <= |s| && s[|s| - |suffix|..] == suffix
  }

  lemma ConcatAssoc(a: string, b: string, c: string)
    ensures (a + b) + c == a + (b + c)
  {
  }

  lemma ConcatSplits(a: string, b: string)
    ensures StartsWith(a + b, a) && EndsWith(a + b, b)
  {
    assert (a + b)[..|a|] == a;
    assert (a + b)[|a|..] == b;
  }

  /** A text made of four parts starts with the first and ends with the last two. */
  lemma ConcatShape(a: string, b: string, c: string, d: string)
    ensures StartsWith(a + b + c + d, a) && EndsWith(a + b + c + d, c + d)
  {
    ConcatSplits(a, b + c + d);
    ConcatSplits(a + b, c + d);
    assert a + b + c + d == a + (b + c + d) == (a + b) + (c + d);
  }

  /** `needle` occurs in `hay` at position `i` (the reference definition of a substring). */
  predicate OccursAt(hay: string, needle: string, i: int)
  {
    0 <= i <= |hay| - |needle| && hay[i..i + |needle|] == needle
  }

  /** `hay.includes(needle)`, computed by scanning from the left. */
  function Includes(hay: string, needle: string): (r: bool)
  {
    if StartsWith(hay, needle) then true
    else if hay == [] then false
    else Includes(hay[1..], needle)
  }

  /** An occurrence in the tail is an occurrence one place later in the whole. */
  lemma OccursInTail(hay: string, needle: string, i: int)
    requires hay != [] && 0 <= i
    ensures OccursAt(hay[1..], needle, i) <==> OccursAt(hay, needle, i + 1)
  {
    if i <= |hay| - 1 - |needle| {
      assert hay[1..][i..i + |needle|] == hay[i + 1..i + 1 + |needle|];
    }
  }

  /** The scan agrees with the reference definition in both directions. */
  lemma {:induction false} IncludesIffOccurs(hay: string, needle: string)
    ensures Includes(hay, needle) <==> exists i :: OccursAt(hay, needle, i)
  {
    if StartsWith(hay, needle) {
      assert OccursAt(hay, needle, 0);
    } else if hay == [] {
    } else {
      IncludesIffOccurs(hay[1..], needle);
      if Includes(hay[1..], needle) {
        var i :| OccursAt(hay[1..], needle, i);
        OccursInTail(hay, needle, i);
      } else {
        forall i | OccursAt(hay, needle, i) ensures false {
          assert i != 0;
          OccursInTail(hay, needle, i - 1);
        }
      }
    }
  }

  function DigitChar(d: int): (c: char)
    requires 0 <= d < 10
    ensures '0' <= c <= '9'
  {
    ('0' as int + d) as char
  }

  /** Decimal digits of a natural number, most significant first. */
  function NatDigits(n: nat): (r: string)
    ensures |r| > 0
    decreases n
  {
    if n < 10 then [DigitChar(n)] else NatDigits(n / 10) + [DigitChar(n % 10)]
  }

  lemma {:induction false} NatDigitsAreDigits(n: nat)
    ensures forall i :: 0 <= i < |NatDigits(n)| ==> '0' <= NatDigits(n)[i] <= '9'
    decreases n
  {
    if n >= 10 {
      NatDigitsAreDigits(n / 10);
    }
  }

  /** JavaScript's `${n}` for an integer: decimal, with a leading '-' when negative. */
  function IntString(n: int): (r: string)
    ensures |r| > 0
  {
    if n < 0 then "-" + NatDigits(-n) else NatDigits(n)
  }

  /** The sign is printed exactly for negative numbers, and every other character is a digit. */
  lemma IntStringShape(n: int)
    ensures n < 0 <==> IntString(n)[0] == '-'
    ensures forall i :: (if n < 0 then 1 else 0) <= i < |IntString(n)| ==> '0' <= IntString(n)[i] <= '9'
  {
    if n < 0 {
      NatDigitsAreDigits(-n);
      assert forall i :: 1 <= i < |IntString(n)| ==> IntString(n)[i] == NatDigits(-n)[i - 1];
    } else {
      NatDigitsAreDigits(n);
    }
  }
}
