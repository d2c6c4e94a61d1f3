/** urlBase64ToUint8Array of the push-notifications hook: the VAPID public key
    arrives in the URL-safe base64 alphabet (section 5 of RFC 4648) without
    padding; the hook pads it, maps it to the standard alphabet (section 4),
    decodes it with the browser's atob, and copies the character codes of the
    decoded string into a Uint8Array. */
module PushKey {
  import opened JsValues

  /** How many '=' the key is padded with: `(4 - length % 4) % 4`. */
  function PaddingLength(n: nat): (p: nat)
    ensures p <= 3
    ensures (n + p) % 4 == 0
    ensures p == 0 <==> n % 4 == 0
  {
    (4 - n % 4) % 4
  }

  function Repeat(c: char, n: nat): (r: string)
    ensures |r| == n && forall i :: 0 <= i < n ==> r[i] == c
  {
    if n == 0 then [] else [c] + Repeat(c, n - 1)
  }

  /** `base64String + padding`: the shortest extension by '=' to a multiple of
      four characters. */
  function Pad(s: string): (r: string)
    ensures |r| % 4 == 0 && |s| <= |r| <= |s| + 3
    ensures r[..|s|] == s
    ensures forall i :: |s| <= i < |r| ==> r[i] == '='
  {
    s + Repeat('=', PaddingLength(|s|))
  }

  /** `s.replace(/from/g, to)` for a single character. */
  function ReplaceAll(s: string, from: char, to: char): (r: string)
    ensures |r| == |s|
    ensures forall i :: 0 <= i < |s| ==> r[i] == (if s[i] == from then to else s[i])
  {
    if s == [] then []
    else [if s[0] == from then to else s[0]] + ReplaceAll(s[1..], from, to)
  }

  /** The character of the standard alphabet for one of the URL-safe
      alphabet: '-' is 62 and '_' is 63. */
  function ToStandard(c: char): char {
    if c == '-' then '+' else if c == '_' then '/' else c
  }

  /** The inverse mapping, from the standard alphabet to the URL-safe one. */
  function ToUrlSafe(c: char): char {
    if c == '+' then '-' else if c == '/' then '_' else c
  }

  /** The string handed to atob. */
  function Normalize(s: string): (r: string)
    ensures |r| == |Pad(s)| && |r| % 4 == 0
    ensures forall i :: 0 <= i < |r| ==> r[i] == ToStandard(Pad(s)[i])
    ensures forall i :: 0 <= i < |r| ==> r[i] != '-' && r[i] != '_'
  {
    ReplaceAll(ReplaceAll(Pad(s), '-', '+'), '_', '/')
  }

  /** For a key in the URL-safe alphabet, normalising loses nothing: mapping
      back gives the padded key. */
  lemma NormalizeRoundTrip(s: string)
    requires forall i :: 0 <= i < |s| ==> s[i] != '+' && s[i] != '/'
    ensures |Normalize(s)| == |Pad(s)|
    ensures forall i :: 0 <= i < |Pad(s)| ==> ToUrlSafe(Normalize(s)[i]) == Pad(s)[i]
  {
    var p := Pad(s);
    forall i | 0 <= i < |p|
      ensures ToUrlSafe(Normalize(s)[i]) == p[i]
    {
      if i < |s| {
        assert p[i] == p[..|s|][i] == s[i];
      }
    }
  }

  /** An element of a Uint8Array. */
  newtype byte = b: int | 0 <= b < 256

  /** A Uint8Array store: the code modulo 2^8 (ToUint8 of ECMA-262). */
  function ToUint8(code: int): byte {
    (code % 256) as byte
  }

  /** The bytes the copy loop stores for a decoded string. */
  function CharCodes(raw: string): (bytes: seq<byte>)
    ensures |bytes| == |raw|
    ensures forall i :: 0 <= i < |raw| && raw[i] as int < 256 ==> bytes[i] as int == raw[i] as int
  {
    seq(|raw|, i requires 0 <= i < |raw| => ToUint8(raw[i] as int))
  }

  /** The loop that fills `outputArray` with `rawData.charCodeAt(i)`. Every
      character atob produces is below 256, so no code is truncated. */
  method CopyCharCodes(rawData: string) returns (outputArray: array<byte>)
    ensures fresh(outputArray)
    ensures outputArray.Length == |rawData|
    ensures forall i :: 0 <= i < |rawData| && rawData[i] as int < 256 ==>
              outputArray[i] as int == rawData[i] as int
    ensures outputArray[..] == CharCodes(rawData)
  {
    outputArray := new byte[|rawData|];
    var i := 0;
    while i < |rawData|
      invariant 0 <= i <= |rawData|
      invariant forall k :: 0 <= k < i ==> outputArray[k] == ToUint8(rawData[k] as int)
    {
      outputArray[i] := ToUint8(rawData[i] as int);
      i := i + 1;
    }
  }

  /** atob: the decoded string, or the error it throws on malformed input. */
  type Atob = string -> Attempt<string>

  /** The bytes urlBase64ToUint8Array returns, or the error atob throws. */
  function KeyBytes(base64String: string, atob: Atob): Attempt<seq<byte>>
  {
    match atob(Normalize(base64String))
    case Threw(m) => Threw(m)
    case Returned(rawData) => Returned(CharCodes(rawData))
  }

  /** urlBase64ToUint8Array: atob is applied to the normalised key, and its
      error, if it throws, propagates to the caller. */
  method UrlBase64ToUint8Array(base64String: string, atob: Atob) returns (r: Attempt<array<byte>>)
    ensures r.Threw? <==> atob(Normalize(base64String)).Threw?
    ensures r.Threw? ==> r.message == atob(Normalize(base64String)).message
    ensures r.Returned? ==> r.value.Length == |atob(Normalize(base64String)).value|
    ensures r.Returned? ==> r.value[..] == CharCodes(atob(Normalize(base64String)).value)
    ensures r.Returned? ==> KeyBytes(base64String, atob) == Returned(r.value[..])
  {
    var base64 := Normalize(base64String);
    var rawData := atob(base64);
    if rawData.Threw? {
      return Threw(rawData.message);
    }
    var outputArray := CopyCharCodes(rawData.value);
    r := Returned(outputArray);
  }
}
