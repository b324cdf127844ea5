/**
 * The signature codec of lib/Payout/Client.php: the fields of a message are
 * converted to strings, joined with '|' and hashed with SHA-256
 * (`pack('A*', $m)` is the identity on a string). Verification appends the
 * client secret as the last field and compares the digests exactly.
 */
module Signature {
  import opened Php

  const Delimiter: char := '|'

  /** `implode('|', $parts)` */
  function Implode(parts: seq<string>): string
  {
    if parts == [] then ""
    else if |parts| == 1 then parts[0]
    else parts[0] + [Delimiter] + Implode(parts[1..])
  }

  /** Each field in its string form, as `implode` converts it. */
  function Strings(fields: seq<Value>): (r: seq<string>)
    ensures |r| == |fields|
    ensures forall i :: 0 <= i < |fields| ==> r[i] == StrVal(fields[i])
  {
    if fields == [] then [] else [StrVal(fields[0])] + Strings(fields[1..])
  }

  /** The signed text of a message. */
  function Message(fields: seq<Value>): string
  {
    Implode(Strings(fields))
  }

  /** `getSignature($message)` */
  function GetSignature(sha256: string -> string, fields: seq<Value>): string
  {
    sha256(Message(fields))
  }

  /** `verifySignature($message, $signature)` with the configured secret. */
  predicate VerifySignature(sha256: string -> string, secret: Value, fields: seq<Value>, signature: string)
  {
    GetSignature(sha256, fields + [secret]) == signature
  }

  /** `verifySignature` on decoded fields and a signature as received:
      `implode` throws on an object among the fields, then `strcmp` throws
      on a signature that is an array or an object, and otherwise compares
      string forms. */
  function CheckSignature(sha256: string -> string, secret: Value, fields: seq<Value>, signature: Value): (r: Result<bool>)
    ensures HasObject(fields) ==> r == Err(ObjectToString)
    ensures !HasObject(fields) ==> (IsArray(signature) <==> r.Err?)
    ensures r.Ok? ==> (r.value <==> StrVal(signature) == GetSignature(sha256, fields + [secret]))
  {
    if HasObject(fields) then Err(ObjectToString)
    else if IsArray(signature) then Err(TypeError("strcmp(): Argument #2 ($string2) must be of type string"))
    else Ok(VerifySignature(sha256, secret, fields, StrVal(signature)))
  }

  /** Splitting on the delimiter: the inverse of `Implode` on fields that do
      not contain it. */
  function Split(s: string): (r: seq<string>)
    ensures |r| > 0
  {
    if s == [] then [""]
    else
      var rest := Split(s[1..]);
      if s[0] == Delimiter then [""] + rest
      else [[s[0]] + rest[0]] + rest[1..]
  }

  predicate NoDelimiter(parts: seq<string>) {
    forall i :: 0 <= i < |parts| ==> Delimiter !in parts[i]
  }

  lemma {:induction false} SplitPrefix(p: string, t: string)
    requires Delimiter !in p
    ensures Split(p + t) == [p + Split(t)[0]] + Split(t)[1..]
  {
    if p != [] {
      assert (p + t)[1..] == p[1..] + t;
      SplitPrefix(p[1..], t);
      assert [p[0]] + (p[1..] + Split(t)[0]) == p + Split(t)[0];
    } else {
      var r := Split(t);
      assert p + t == t && p + r[0] == r[0] && r == [r[0]] + r[1..];
    }
  }

  /** When no field contains '|', the signed text determines the fields. */
  lemma {:induction false} SplitImplode(parts: seq<string>)
    requires |parts| > 0 && NoDelimiter(parts)
    ensures Split(Implode(parts)) == parts
  {
    if |parts| == 1 {
      SplitPrefix(parts[0], "");
      assert parts[0] + "" == parts[0];
    } else {
      var tail := Implode(parts[1..]);
      SplitImplode(parts[1..]);
      assert Implode(parts) == parts[0] + ([Delimiter] + tail);
      SplitPrefix(parts[0], [Delimiter] + tail);
      assert ([Delimiter] + tail)[1..] == tail;
      assert Split([Delimiter] + tail) == [""] + Split(tail);
      assert parts[0] + "" == parts[0];
      assert parts == [parts[0]] + parts[1..];
    }
  }

  /** Hence two field lists free of '|' that are signed alike (same joined
      text) are the same list. */
  lemma ImplodeInjective(a: seq<string>, b: seq<string>)
    requires |a| > 0 && |b| > 0 && NoDelimiter(a) && NoDelimiter(b)
    requires Implode(a) == Implode(b)
    ensures a == b
  {
    SplitImplode(a);
    SplitImplode(b);
  }

  /** Fields that do contain '|' do collide: ["a|b", "c"] and ["a", "b|c"]
      are joined to the same text and so get the same signature. */
  lemma DelimiterCollision(sha256: string -> string)
    ensures Message([Str("a|b"), Str("c")]) == Message([Str("a"), Str("b|c")])
    ensures GetSignature(sha256, [Str("a|b"), Str("c")]) == GetSignature(sha256, [Str("a"), Str("b|c")])
  {
    assert Strings([Str("a|b"), Str("c")]) == ["a|b", "c"];
    assert Strings([Str("a"), Str("b|c")]) == ["a", "b|c"];
    assert Implode(["a|b", "c"]) == "a|b|c";
    assert Implode(["a", "b|c"]) == "a|b|c";
  }

  /** For fields whose string forms are free of '|', two messages sign the
      same text exactly when their fields have the same string forms. */
  lemma MessageDeterminesFields(f: seq<Value>, g: seq<Value>)
    requires |f| > 0 && |g| > 0 && NoDelimiter(Strings(f)) && NoDelimiter(Strings(g))
    ensures Message(f) == Message(g) <==> Strings(f) == Strings(g)
  {
    if Message(f) == Message(g) {
      ImplodeInjective(Strings(f), Strings(g));
    }
  }

  /** Appending the secret adds exactly one '|'-separated field at the end. */
  lemma {:induction false} ImplodeAppend(parts: seq<string>, last: string)
    requires |parts| > 0
    ensures Implode(parts + [last]) == Implode(parts) + [Delimiter] + last
  {
    if |parts| == 1 {
      assert parts + [last] == [parts[0], last];
      assert Implode([last]) == last;
    } else {
      assert (parts + [last])[1..] == parts[1..] + [last];
      ImplodeAppend(parts[1..], last);
    }
  }

  /** The text hashed by verification is the message text, '|', the secret. */
  lemma VerifiedText(fields: seq<Value>, secret: Value)
    requires |fields| > 0
    ensures Message(fields + [secret]) == Message(fields) + [Delimiter] + StrVal(secret)
  {
    assert Strings(fields + [secret]) == Strings(fields) + [StrVal(secret)];
    ImplodeAppend(Strings(fields), StrVal(secret));
  }

  /** A signature over the fields followed by the secret verifies, and it is
      the only string that does. */
  lemma VerifyAcceptsExactlyOwnSignature(sha256: string -> string, secret: Value, fields: seq<Value>, s: string)
    ensures VerifySignature(sha256, secret, fields, GetSignature(sha256, fields + [secret]))
    ensures VerifySignature(sha256, secret, fields, s) <==> s == GetSignature(sha256, fields + [secret])
  {
  }
}
