/** Issuing a per-user webhook secret: its hexadecimal form, the provider it is for, and
    when an existing secret is kept rather than replaced. */
module WebhookSecret {
  import opened Wrappers
  import opened Json
  import opened Text

  /** A lower-case hexadecimal digit. */
  function HexDigit(d: nat): char
    requires d < 16
  {
    if d < 10 then ('0' as int + d) as char else ('a' as int + d - 10) as char
  }

  /** `n.toString(16)`. */
  function Radix16(n: nat): (r: string)
    ensures |r| > 0
    decreases n
  {
    if n < 16 then [HexDigit(n)] else Radix16(n / 16) + [HexDigit(n % 16)]
  }

  /** `s.padStart(width, c)`. */
  function PadStart(s: string, width: nat, c: char): (r: string)
    ensures |r| == if |s| >= width then |s| else width
  {
    if |s| >= width then s else seq(width - |s|, _ => c) + s
  }

  /** One byte as `b.toString(16).padStart(2, "0")`. */
  function HexByte(b: byte): string {
    PadStart(Radix16(b), 2, '0')
  }

  /** `generateSecret` on the random bytes it drew: their hex forms joined with "". */
  function SecretOf(bytes: seq<byte>): string {
    Join(seq(|bytes|, i requires 0 <= i < |bytes| => HexByte(bytes[i])), "")
  }

  /** Each byte is two characters, high nibble first. */
  lemma HexByteDigits(b: byte)
    ensures HexByte(b) == [HexDigit(b / 16), HexDigit(b % 16)]
  {
    if b < 16 {
      assert Radix16(b) == [HexDigit(b)];
    } else {
      assert Radix16(b / 16) == [HexDigit(b / 16)];
    }
  }

  /** The value of a lower-case hexadecimal digit. */
  function DigitValue(c: char): nat {
    if '0' <= c <= '9' then c as int - '0' as int
    else if 'a' <= c <= 'f' then c as int - 'a' as int + 10
    else 0
  }

  predicate IsHexDigit(c: char) {
    ('0' <= c <= '9') || ('a' <= c <= 'f')
  }

  /** Reading a secret back: each pair of digits is one byte. */
  function Unhex(s: string): seq<int>
    decreases |s|
  {
    if |s| < 2 then [] else [DigitValue(s[0]) * 16 + DigitValue(s[1])] + Unhex(s[2..])
  }

  lemma DigitValueOf(d: nat)
    requires d < 16
    ensures DigitValue(HexDigit(d)) == d && IsHexDigit(HexDigit(d))
  {
  }

  /** Joining with "" is concatenation. */
  lemma {:induction false} SecretCons(bytes: seq<byte>)
    requires bytes != []
    ensures SecretOf(bytes) == HexByte(bytes[0]) + SecretOf(bytes[1..])
  {
    var parts := seq(|bytes|, i requires 0 <= i < |bytes| => HexByte(bytes[i]));
    var rest := seq(|bytes| - 1, i requires 0 <= i < |bytes| - 1 => HexByte(bytes[1..][i]));
    assert parts[1..] == rest;
    if |bytes| == 1 {
      assert SecretOf(bytes[1..]) == "";
    } else {
      assert Join(parts, "") == parts[0] + "" + Join(parts[1..], "");
    }
  }

  /** The secret is two lower-case hex digits per byte, in byte order, and reads back to the
      bytes it was made from. */
  lemma {:induction false} SecretIsHex(bytes: seq<byte>)
    ensures var s := SecretOf(bytes);
      && |s| == 2 * |bytes|
      && (forall i :: 0 <= i < |s| ==> IsHexDigit(s[i]))
      && (forall i :: 0 <= i < |bytes| ==> s[2 * i..2 * i + 2] == HexByte(bytes[i]))
      && Unhex(s) == bytes
    decreases |bytes|
  {
    var s := SecretOf(bytes);
    if bytes == [] {
      assert s == "";
    } else {
      SecretCons(bytes);
      SecretIsHex(bytes[1..]);
      HexByteDigits(bytes[0]);
      DigitValueOf(bytes[0] / 16);
      DigitValueOf(bytes[0] % 16);
      var t := SecretOf(bytes[1..]);
      assert s == HexByte(bytes[0]) + t;
      assert s[2..] == t;
      forall i | 0 <= i < |bytes|
        ensures s[2 * i..2 * i + 2] == HexByte(bytes[i])
      {
        if i > 0 {
          assert s[2 * i..2 * i + 2] == t[2 * (i - 1)..2 * (i - 1) + 2];
        }
      }
      forall i | 0 <= i < |s|
        ensures IsHexDigit(s[i])
      {
        if i >= 2 {
          assert s[i] == t[i - 2];
        }
      }
      assert Unhex(s) == [bytes[0]] + Unhex(t);
      assert [bytes[0]] + bytes[1..] == bytes;
    }
  }

  /** The 32 random bytes make a 64-character secret. */
  lemma SecretLength(bytes: seq<byte>)
    requires |bytes| == 32
    ensures |SecretOf(bytes)| == 64
  {
    SecretIsHex(bytes);
  }

  /** Different random bytes give different secrets. */
  lemma SecretInjective(a: seq<byte>, b: seq<byte>)
    requires SecretOf(a) == SecretOf(b)
    ensures a == b
  {
    SecretIsHex(a);
    SecretIsHex(b);
  }

  /** `typeof body.provider === "string" ? body.provider.toUpperCase() : "MESHY"`, refused
      with 400 unless it is MESHY or TRIPO. */
  function ProviderOf(body: Record): (r: Result<string, (int, string)>)
    ensures GetString(body, "provider").None? ==> r == Success("MESHY")
    ensures GetString(body, "provider").Some? ==>
              r == (if Upper(body["provider"].s) in {"MESHY", "TRIPO"} then Success(Upper(body["provider"].s))
                    else Failure((400, "Unsupported provider")))
    ensures r.Success? ==> r.value in {"MESHY", "TRIPO"}
  {
    var provider := if GetString(body, "provider").Some? then Upper(body["provider"].s) else "MESHY";
    if provider != "MESHY" && provider != "TRIPO" then Failure((400, "Unsupported provider")) else Success(provider)
  }

  /** The reply: the secret and whether it is new, or an error. */
  datatype SecretReply = Secret(secret: string, rotated: bool) | Refused(code: int, message: string)

  /** The handler after authentication. `existing` is the stored secret for the provider
      (None when there is no row or no secret), `bytes` the random bytes a new secret would be
      made of, `upsertError` the store's error. The upsert written is returned beside the
      reply. */
  function SecretOutcome(userId: string, body: Record, existing: Option<string>, bytes: seq<byte>,
                         upsertError: Option<string>): (r: (SecretReply, Option<(string, string, string)>))
    ensures ProviderOf(body).Failure? ==> r == (Refused(400, "Unsupported provider"), None)
    ensures ProviderOf(body).Success? && Filled(existing) && Get(body, "rotate") != Some(Bool(true)) ==>
              r == (Secret(existing.value, false), None)
    ensures ProviderOf(body).Success? && !(Filled(existing) && Get(body, "rotate") != Some(Bool(true))) ==>
              && r.1 == Some((userId, ProviderOf(body).value, SecretOf(bytes)))
              && r.0 == (if upsertError.Some? then Refused(500, "Failed to store secret") else Secret(SecretOf(bytes), true))
  {
    match ProviderOf(body)
    case Failure(e) => (Refused(e.0, e.1), None)
    case Success(provider) =>
      if Filled(existing) && Get(body, "rotate") != Some(Bool(true)) then (Secret(existing.value, false), None)
      else
        var secret := SecretOf(bytes);
        (if upsertError.Some? then Refused(500, "Failed to store secret") else Secret(secret, true),
         Some((userId, provider, secret)))
  }

  predicate Filled(s: Option<string>) {
    s.Some? && s.value != ""
  }

  /** Asking twice without `rotate: true` gives the same secret, and the second call writes
      nothing: the secret a first call stored is kept. */
  lemma SecretIsStable(userId: string, body: Record, bytes1: seq<byte>, bytes2: seq<byte>)
    requires ProviderOf(body).Success? && Get(body, "rotate") != Some(Bool(true))
    requires |bytes1| == 32
    ensures var first := SecretOutcome(userId, body, None, bytes1, None);
      && first.0 == Secret(SecretOf(bytes1), true)
      && SecretOutcome(userId, body, Some(first.0.secret), bytes2, None) == (Secret(SecretOf(bytes1), false), None)
  {
    SecretLength(bytes1);
  }

  /** Only the boolean `true` rotates: the string "true" keeps the existing secret. */
  lemma OnlyTrueRotates(userId: string, body: Record, existing: string, bytes: seq<byte>)
    requires ProviderOf(body).Success? && existing != ""
    ensures SecretOutcome(userId, body["rotate" := Str("true")], Some(existing), bytes, None).0 == Secret(existing, false)
    ensures SecretOutcome(userId, body["rotate" := Bool(true)], Some(existing), bytes, None).0 == Secret(SecretOf(bytes), true)
  {
    assert ProviderOf(body["rotate" := Str("true")]) == ProviderOf(body);
    assert ProviderOf(body["rotate" := Bool(true)]) == ProviderOf(body);
  }
}
