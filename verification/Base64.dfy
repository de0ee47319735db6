/** Base64 in both alphabets (sections 4 and 5 of RFC 4648), with the lenient decoder of
    Node's Buffer: either alphabet, other characters skipped, padding ends the text. */
module Base64 {
  import opened Wrappers
  import opened Bytes

  type sextet = x: nat | x < 64

  function ToSextets(b: bytes): seq<sextet> {
    if |b| == 0 then []
    else
      var b0 := b[0] as nat;
      if |b| == 1 then [b0 / 4, b0 % 4 * 16]
      else
        var b1 := b[1] as nat;
        if |b| == 2 then [b0 / 4, b0 % 4 * 16 + b1 / 16, b1 % 16 * 4]
        else
          var b2 := b[2] as nat;
          [b0 / 4, b0 % 4 * 16 + b1 / 16, b1 % 16 * 4 + b2 / 64, b2 % 64] + ToSextets(b[3..])
  }

  function FromSextets(s: seq<sextet>): bytes {
    if |s| < 2 then []
    else
      var first := (s[0] as nat * 4 + s[1] as nat / 16) as byte;
      if |s| == 2 then [first]
      else
        var second := (s[1] as nat % 16 * 16 + s[2] as nat / 4) as byte;
        if |s| == 3 then [first, second]
        else [first, second, (s[2] as nat % 4 * 64 + s[3] as nat) as byte] + FromSextets(s[4..])
  }

  function Digit(n: sextet, url: bool): char {
    if n < 26 then 'A' + (n as char)
    else if n < 52 then 'a' + ((n - 26) as char)
    else if n < 62 then '0' + ((n - 52) as char)
    else if n == 62 then (if url then '-' else '+')
    else if url then '_' else '/'
  }

  function Value(c: char): Option<sextet> {
    if 'A' <= c <= 'Z' then Some((c - 'A') as nat)
    else if 'a' <= c <= 'z' then Some((c - 'a') as nat + 26)
    else if '0' <= c <= '9' then Some((c - '0') as nat + 52)
    else if c == '-' || c == '+' then Some(62)
    else if c == '_' || c == '/' then Some(63)
    else None
  }

  function Print(s: seq<sextet>, url: bool): string {
    if s == [] then "" else [Digit(s[0], url)] + Print(s[1..], url)
  }

  function Scan(text: string): seq<sextet> {
    if text == "" || text[0] == '=' then []
    else (match Value(text[0]) case Some(n) => [n] case None => []) + Scan(text[1..])
  }

  /** `toString("base64url")`: no padding. */
  function EncodeUrl(b: bytes): string { Print(ToSextets(b), true) }

  function Padding(n: nat): string {
    if n % 3 == 1 then "==" else if n % 3 == 2 then "=" else ""
  }

  /** `toString("base64")`: padded. */
  function Encode(b: bytes): string { Print(ToSextets(b), false) + Padding(|b|) }

  /** `Buffer.from(text, "base64")` and `Buffer.from(text, "base64url")`. */
  function Decode(text: string): bytes { FromSextets(Scan(text)) }

  lemma {:induction false} SextetsRoundTrip(b: bytes)
    ensures FromSextets(ToSextets(b)) == b
  {
    if |b| >= 3 {
      SextetsRoundTrip(b[3..]);
      assert ToSextets(b)[4..] == ToSextets(b[3..]);
      assert b == b[..3] + b[3..];
    }
  }

  lemma DigitRoundTrip(n: sextet, url: bool)
    ensures Value(Digit(n, url)) == Some(n)
    ensures Digit(n, url) != '=' && Digit(n, url) != '.'
  {
  }

  /** Reading stops at padding, or at the end. */
  lemma {:induction false} ScanPrint(s: seq<sextet>, url: bool, tail: string)
    requires tail == "" || tail[0] == '='
    ensures Scan(Print(s, url) + tail) == s
  {
    var text := Print(s, url) + tail;
    if s == [] {
      assert text == tail;
    } else {
      DigitRoundTrip(s[0], url);
      ScanPrint(s[1..], url, tail);
      assert text[1..] == Print(s[1..], url) + tail;
    }
  }

  lemma DecodeEncodeUrl(b: bytes)
    ensures Decode(EncodeUrl(b)) == b
  {
    ScanPrint(ToSextets(b), true, "");
    assert EncodeUrl(b) + "" == EncodeUrl(b);
    SextetsRoundTrip(b);
  }

  lemma DecodeEncode(b: bytes)
    ensures Decode(Encode(b)) == b
  {
    ScanPrint(ToSextets(b), false, Padding(|b|));
    SextetsRoundTrip(b);
  }

  lemma {:induction false} PrintHasNoDot(s: seq<sextet>, url: bool)
    ensures '.' !in Print(s, url)
    ensures |Print(s, url)| == |s|
  {
    if s != [] {
      DigitRoundTrip(s[0], url);
      PrintHasNoDot(s[1..], url);
    }
  }

  lemma {:induction false} DecodedLength(s: seq<sextet>)
    ensures |FromSextets(s)| == |s| * 3 / 4
  {
    if |s| >= 4 { DecodedLength(s[4..]); }
  }

  lemma {:induction false} EncodedLength(b: bytes)
    ensures |ToSextets(b)| == (|b| * 4 + 2) / 3
  {
    if |b| >= 3 { EncodedLength(b[3..]); }
  }

  lemma {:induction false} ScanIsShorter(text: string)
    ensures |Scan(text)| <= |text|
  {
    if text != "" && text[0] != '=' { ScanIsShorter(text[1..]); }
  }

  lemma DecodeIsShorter(text: string)
    ensures |Decode(text)| <= |text|
  {
    ScanIsShorter(text);
    DecodedLength(Scan(text));
  }

  // ---------- Torn writes ----------

  lemma {:induction false} PrintTake(s: seq<sextet>, url: bool, n: nat)
    requires n <= |s|
    ensures n <= |Print(s, url)| && Print(s[..n], url) == Print(s, url)[..n]
  {
    PrintHasNoDot(s, url);
    if n > 0 {
      PrintTake(s[1..], url, n - 1);
      assert s[..n][1..] == s[1..][..n - 1];
    }
  }

  /** A prefix of the text of a 32-byte key either decodes to the key or to fewer bytes. */
  lemma PrefixOfKeyText(key: bytes, n: nat)
    requires |key| == 32 && n <= |Encode(key)|
    ensures |Encode(key)| == 44
    ensures Decode(Encode(key)[..n]) == key <==> n >= 43
    ensures n < 43 ==> |Decode(Encode(key)[..n])| < 32
  {
    var s := ToSextets(key);
    EncodedLength(key);
    PrintHasNoDot(s, false);
    SextetsRoundTrip(key);
    if n >= 43 {
      var tail := "="[..n - 43];
      assert Encode(key)[..n] == Print(s, false) + tail;
      ScanPrint(s, false, tail);
    } else {
      PrintTake(s, false, n);
      assert Encode(key)[..n] == Print(s[..n], false) + "";
      ScanPrint(s[..n], false, "");
      DecodedLength(s[..n]);
    }
  }
}
