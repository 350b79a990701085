/** Small building blocks shared by every screen model: optional values, the
    outcome of a remote request, and the handful of string operations the
    application performs on URIs, file names and form fields. */
module Common {

  /** A value that may be `undefined` in the application. */
  datatype Option<+T> = None | Some(value: T)

  /** The outcome of one awaited request: it resolved with `data`, or it
      rejected (network error, server error, storage error). */
  datatype Reply<+T> = Ok(data: T) | Rejected

  /** JavaScript truthiness of a string: only the empty string is falsy. */
  predicate Truthy(s: string) {
    s != ""
  }

  predicate IsAsciiDigit(ch: char) {
    '0' <= ch <= '9'
  }

  predicate IsAsciiLower(ch: char) {
    'a' <= ch <= 'z'
  }

  predicate IsAsciiUpper(ch: char) {
    'A' <= ch <= 'Z'
  }

  /** The number of UTF-16 code units of a character: two for a character
      outside the Basic Multilingual Plane, one otherwise. */
  function CodeUnits(ch: char): nat {
    if ch as int >= 0x10000 then 2 else 1
  }

  /** `String.prototype.length`: the number of UTF-16 code units, which is
      what JavaScript counts, not the number of characters. */
  function Utf16Length(s: string): (r: nat)
    ensures |s| <= r <= 2 * |s|
    ensures r == |s| <==> forall i :: 0 <= i < |s| ==> s[i] as int < 0x10000
  {
    if |s| == 0 then 0
    else
      var r := Utf16Length(s[..|s| - 1]) + CodeUnits(s[|s| - 1]);
      assert forall i :: 0 <= i < |s| - 1 ==> s[..|s| - 1][i] == s[i];
      r
  }

  /** The length of a concatenation is the sum of the lengths. */
  lemma {:induction false} Utf16LengthConcat(a: string, b: string)
    ensures Utf16Length(a + b) == Utf16Length(a) + Utf16Length(b)
    decreases |b|
  {
    if |b| == 0 {
      assert a + b == a;
    } else {
      var b' := b[..|b| - 1];
      assert (a + b)[..|a + b| - 1] == a + b';
      assert (a + b)[|a + b| - 1] == b[|b| - 1];
      Utf16LengthConcat(a, b');
      assert Utf16Length(a + b) == Utf16Length(a + b') + CodeUnits(b[|b| - 1]);
      assert Utf16Length(b) == Utf16Length(b') + CodeUnits(b[|b| - 1]);
    }
  }

  /** A character outside the Basic Multilingual Plane counts twice: four
      ASCII characters and one emoji make a length of six. */
  lemma EmojiCountsTwice()
    ensures |"Aa1!\U{1F600}"| == 5
    ensures Utf16Length("Aa1!\U{1F600}") == 6
  {
    var s := "Aa1!\U{1F600}";
    assert s[..4] == "Aa1!";
    Utf16LengthConcat("Aa1!", "\U{1F600}");
  }

  /** Lower-cases one character; only the ASCII letters are mapped. */
  function LowerChar(ch: char): (r: char)
    ensures IsAsciiUpper(ch) ==> IsAsciiLower(r) && r as int == ch as int + 32
    ensures !IsAsciiUpper(ch) ==> r == ch
  {
    if IsAsciiUpper(ch) then (ch as int + 32) as char else ch
  }

  /** `String.prototype.toLowerCase`, restricted to the ASCII letters. */
  function ToLower(s: string): (r: string)
    ensures |r| == |s|
    ensures forall i :: 0 <= i < |s| ==> r[i] == LowerChar(s[i])
  {
    if |s| == 0 then "" else ToLower(s[..|s| - 1]) + [LowerChar(s[|s| - 1])]
  }

  /** Lower-casing twice is lower-casing once. */
  lemma ToLowerIdempotent(s: string)
    ensures ToLower(ToLower(s)) == ToLower(s)
  {
    var t := ToLower(s);
    assert forall i :: 0 <= i < |t| ==> ToLower(t)[i] == LowerChar(LowerChar(s[i])) == t[i];
  }

  /** Lower-casing distributes over concatenation, so a fixed lower-case
      prefix such as "a." survives it unchanged. */
  lemma ToLowerConcat(a: string, b: string)
    ensures ToLower(a + b) == ToLower(a) + ToLower(b)
  {
    assert forall i :: 0 <= i < |a + b| ==> ToLower(a + b)[i] == (ToLower(a) + ToLower(b))[i];
  }

  /** Lower-casing neither adds nor removes a character that is not an
      ASCII letter. */
  lemma ToLowerKeepsNonLetters(s: string, c: char)
    requires !IsAsciiUpper(c) && !IsAsciiLower(c)
    ensures c in ToLower(s) <==> c in s
  {
    if c in ToLower(s) {
      var k :| 0 <= k < |s| && ToLower(s)[k] == c;
      assert s[k] == c;
    }
    if c in s {
      var k :| 0 <= k < |s| && s[k] == c;
      assert ToLower(s)[k] == c;
    }
  }

  /** `s.split(c).pop()`: the text after the last occurrence of `c`, or all
      of `s` when `c` does not occur. The result is the suffix of `s` that
      holds no `c` and is either all of `s` or preceded by a `c`. */
  function AfterLast(s: string, c: char): (r: string)
    ensures |r| <= |s| && r == s[|s| - |r|..]
    ensures c !in r
    ensures |r| < |s| ==> s[|s| - |r| - 1] == c
  {
    if |s| == 0 then ""
    else if s[|s| - 1] == c then ""
    else AfterLast(s[..|s| - 1], c) + [s[|s| - 1]]
  }

  /** When `c` does not occur, the split yields one piece: the whole string. */
  lemma AfterLastNoSeparator(s: string, c: char)
    requires c !in s
    ensures AfterLast(s, c) == s
  {
  }

  /** The contract of `AfterLast` pins the result down: any suffix with the
      same two properties is that result. */
  lemma AfterLastUnique(s: string, c: char, t: string)
    requires |t| <= |s| && t == s[|s| - |t|..]
    requires c !in t
    requires |t| < |s| ==> s[|s| - |t| - 1] == c
    ensures t == AfterLast(s, c)
  {
  }

  /** Removes every occurrence of `c`, as `s.replace(/c/g, '')` does. */
  function RemoveAll(s: string, c: char): (r: string)
    ensures c !in r
    ensures |r| <= |s|
    ensures c !in s ==> r == s
    ensures forall ch :: ch != c ==> (ch in r <==> ch in s)
  {
    if |s| == 0 then ""
    else if s[0] == c then RemoveAll(s[1..], c)
    else [s[0]] + RemoveAll(s[1..], c)
  }

  /** The picker's size guard `size && size / 1024 / 1024 > 5`: an unknown or
      zero size passes; the division is carried out on reals. */
  predicate TooLarge(size: Option<int>) {
    size.Some? && size.value != 0 && (size.value as real) / 1024.0 / 1024.0 > 5.0
  }

  /** The guard rejects exactly the sizes above 5 MiB = 5242880 bytes; a file
      of exactly 5 MiB is accepted. */
  lemma TooLargeIff(size: Option<int>)
    ensures TooLarge(size) <==> size.Some? && size.value > 5242880
  {
  }
}
