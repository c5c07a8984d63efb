/** Verification of a Stripe signature header. The MAC and the hex decoding are
    parameters: nothing here depends on what they compute. */
module StripeSignatures {
  import opened Foundation
  import opened Decimals
  import opened StripeHeaders

  const DEFAULT_TOLERANCE := 300

  /** HMAC-SHA256 of a secret and a message, and `hex::decode`. */
  datatype Crypto = Crypto(
    mac: (seq<Byte>, seq<Byte>) -> seq<Byte>,
    decode: string -> Option<seq<Byte>>)

  function Ascii(text: string): (bytes: seq<Byte>)
    requires Digits(text)
    ensures |bytes| == |text| && forall i :: 0 <= i < |text| ==> bytes[i] == text[i] as int
  {
    seq(|text|, i requires 0 <= i < |text| => text[i] as int)
  }

  const DOT: Byte := 46

  /** What the sender signs: the timestamp in decimal, a dot, the body. */
  function Payload(timestamp: nat, body: seq<Byte>): seq<Byte> {
    Ascii(Decimal(timestamp)) + [DOT] + body
  }

  function AbsDiff(a: nat, b: nat): nat {
    if a < b then b - a else a - b
  }

  predicate Fresh(now: nat, timestamp: nat, tolerance: Option<nat>) {
    AbsDiff(now, timestamp) <= if tolerance.Some? then tolerance.value else DEFAULT_TOLERANCE
  }

  /** Some listed signature is the MAC of the payload. */
  ghost predicate Signed(crypto: Crypto, secret: seq<Byte>, payload: seq<Byte>, signatures: seq<string>) {
    exists s :: s in signatures && crypto.decode(s) == Some(crypto.mac(secret, payload))
  }

  /** The verdict on what a header says. */
  ghost predicate Accepts(crypto: Crypto, secret: seq<Byte>, body: seq<Byte>, said: seq<Said>,
                          tolerance: Option<nat>, now: nat) {
    var timestamp := LastTimestamp(said);
    && timestamp.Some?
    && Fresh(now, timestamp.value, tolerance)
    && Signed(crypto, secret, Payload(timestamp.value, body), Signatures(said))
  }

  method AnyMatch(crypto: Crypto, secret: seq<Byte>, payload: seq<Byte>, signatures: seq<string>) returns (found: bool)
    ensures found <==> Signed(crypto, secret, payload, signatures)
  {
    for k := 0 to |signatures|
      invariant !Signed(crypto, secret, payload, signatures[..k])
    {
      var expected := crypto.decode(signatures[k]);
      if expected.Some? && crypto.mac(secret, payload) == expected.value {
        return true;
      }
    }
    assert signatures[..|signatures|] == signatures;
    return false;
  }

  /** A header is accepted exactly when its last well-formed timestamp is within the
      tolerance and one of its signatures is the MAC. */
  method Verify(crypto: Crypto, secret: seq<Byte>, body: seq<Byte>, header: string, tolerance: Option<nat>, now: nat)
    returns (ok: bool)
    ensures ok <==> Accepts(crypto, secret, body, Meanings(Split(header)), tolerance, now)
  {
    var timestamp, signatures := ParseHeader(header);
    if timestamp.None? || signatures == [] {
      return false;
    }
    var ts := timestamp.value;
    var limit := if tolerance.Some? then tolerance.value else DEFAULT_TOLERANCE;
    if AbsDiff(now, ts) > limit {
      return false;
    }
    var payload: seq<Byte> := Ascii(Decimal(ts));
    payload := payload + [DOT];
    payload := payload + body;
    ok := AnyMatch(crypto, secret, payload, signatures);
  }

  // ------------------------------------------------------- what the verdict rests on

  /** The verdict depends on the timestamp and on which signatures are listed. */
  lemma VerdictDependsOn(crypto: Crypto, secret: seq<Byte>, body: seq<Byte>, a: seq<Said>, b: seq<Said>,
                         tolerance: Option<nat>, now: nat)
    requires LastTimestamp(a) == LastTimestamp(b)
    requires forall s :: s in Signatures(a) <==> s in Signatures(b)
    ensures Accepts(crypto, secret, body, a, tolerance, now) <==> Accepts(crypto, secret, body, b, tolerance, now)
  {
  }

  lemma {:induction false} SignaturesListed(said: seq<Said>, s: string)
    ensures s in Signatures(said) <==> SignedBy(s) in said
  {
    if said != [] {
      SignaturesListed(said[..|said| - 1], s);
      assert said == said[..|said| - 1] + [said[|said| - 1]];
    }
  }

  /** The items that are not signatures, in order. */
  function WithoutSignatures(said: seq<Said>): seq<Said> {
    if said == [] then []
    else
      var before := WithoutSignatures(said[..|said| - 1]);
      if said[|said| - 1].SignedBy? then before else before + [said[|said| - 1]]
  }

  lemma {:induction false} TimestampIgnoresSignatures(said: seq<Said>)
    ensures LastTimestamp(WithoutSignatures(said)) == LastTimestamp(said)
  {
    if said != [] {
      TimestampIgnoresSignatures(said[..|said| - 1]);
    }
  }

  /** Rearranging the signatures, among themselves and between the other items,
      never changes the verdict. */
  lemma PermutingSignatures(crypto: Crypto, secret: seq<Byte>, body: seq<Byte>, header: string, other: string,
                            tolerance: Option<nat>, now: nat)
    requires var a, b := Meanings(Split(header)), Meanings(Split(other));
      multiset(a) == multiset(b) && WithoutSignatures(a) == WithoutSignatures(b)
    ensures Accepts(crypto, secret, body, Meanings(Split(header)), tolerance, now)
       <==> Accepts(crypto, secret, body, Meanings(Split(other)), tolerance, now)
  {
    var a, b := Meanings(Split(header)), Meanings(Split(other));
    TimestampIgnoresSignatures(a);
    TimestampIgnoresSignatures(b);
    forall s
      ensures s in Signatures(a) <==> s in Signatures(b)
    {
      SignaturesListed(a, s);
      SignaturesListed(b, s);
      assert SignedBy(s) in a <==> SignedBy(s) in multiset(a);
      assert SignedBy(s) in b <==> SignedBy(s) in multiset(b);
    }
    VerdictDependsOn(crypto, secret, body, a, b, tolerance, now);
  }

  lemma NothingSaysNothing(a: seq<Said>, b: seq<Said>)
    ensures LastTimestamp(a + [Nothing] + b) == LastTimestamp(a + b)
    ensures Signatures(a + [Nothing] + b) == Signatures(a + b)
  {
    MeaningsAppend(a + [Nothing], b);
    MeaningsAppend(a, b);
    assert (a + [Nothing])[..|a|] == a;
  }

  lemma UnknownItemSaysNothing(before: seq<string>, item: string, after: seq<string>)
    requires Meaning(item).Nothing?
    ensures LastTimestamp(Meanings(before + [item] + after)) == LastTimestamp(Meanings(before + after))
    ensures Signatures(Meanings(before + [item] + after)) == Signatures(Meanings(before + after))
  {
    MeaningsOfConcat(before + [item], after);
    MeaningsOfConcat(before, [item]);
    MeaningsOfConcat(before, after);
    assert Meanings([item]) == [Nothing];
    NothingSaysNothing(Meanings(before), Meanings(after));
  }

  /** Inserting an item that is neither a well-formed timestamp nor a signature,
      anywhere in the header, never changes the verdict. */
  lemma UnknownItemsNeverMatter(crypto: Crypto, secret: seq<Byte>, body: seq<Byte>, header: string, longer: string,
                                i: nat, item: string, tolerance: Option<nat>, now: nat)
    requires i <= |Split(header)| && Meaning(item).Nothing? && ',' !in item
    requires longer == Join(Split(header)[..i] + [item] + Split(header)[i..])
    ensures Accepts(crypto, secret, body, Meanings(Split(longer)), tolerance, now)
       <==> Accepts(crypto, secret, body, Meanings(Split(header)), tolerance, now)
  {
    var items := Split(header);
    SplitOfJoin(items[..i] + [item] + items[i..]);
    UnknownItemSaysNothing(items[..i], item, items[i..]);
    assert items == items[..i] + items[i..];
  }

  /** A header printed for a body is accepted exactly when its timestamp is within
      the tolerance and one of its signatures decodes to the MAC. */
  lemma PrintedHeaderVerdict(crypto: Crypto, secret: seq<Byte>, body: seq<Byte>, timestamp: nat,
                             signatures: seq<string>, tolerance: Option<nat>, now: nat)
    requires timestamp <= U64_MAX && forall i :: 0 <= i < |signatures| ==> IsClean(signatures[i])
    ensures Accepts(crypto, secret, body, Meanings(Split(PrintHeader(timestamp, signatures))), tolerance, now)
       <==> Fresh(now, timestamp, tolerance) && Signed(crypto, secret, Payload(timestamp, body), signatures)
  {
    PrintedHeaderParses(timestamp, signatures);
  }

  lemma DotEndsTimestamp(t: nat, body: seq<Byte>, i: nat)
    requires i <= |Decimal(t)|
    ensures Payload(t, body)[i] == DOT <==> i == |Decimal(t)|
    ensures i < |Decimal(t)| ==> Payload(t, body)[i] == Decimal(t)[i] as int
  {
    assert i < |Decimal(t)| ==> IsDigit(Decimal(t)[i]);
  }

  /** No two pairs of timestamp and body sign the same payload. */
  lemma PayloadIsInjective(t: nat, a: seq<Byte>, u: nat, b: seq<Byte>)
    ensures Payload(t, a) == Payload(u, b) <==> t == u && a == b
  {
    var p := Payload(t, a);
    if p == Payload(u, b) {
      var m, n := |Decimal(t)|, |Decimal(u)|;
      var k := Min(m, n);
      DotEndsTimestamp(t, a, k);
      DotEndsTimestamp(u, b, k);
      forall i | 0 <= i < m
        ensures Decimal(t)[i] == Decimal(u)[i]
      {
        DotEndsTimestamp(t, a, i);
        DotEndsTimestamp(u, b, i);
      }
      assert Decimal(t) == Decimal(u);
      ValueOfDecimal(t);
      ValueOfDecimal(u);
      assert a == p[m + 1..] && b == p[m + 1..];
    }
  }

  // ------------------------------------------------------------ in plain numbers

  /** The bytes are the decimal notation of the number, in ASCII, without leading zeros. */
  predicate IsNumeral(bytes: seq<Byte>, n: nat) {
    && (forall b :: b in bytes ==> 48 <= b <= 57)
    && if n < 10 then bytes == [48 + n]
       else |bytes| > 1 && bytes[|bytes| - 1] == 48 + n % 10 && IsNumeral(bytes[..|bytes| - 1], n / 10)
  }

  lemma {:induction false} AsciiIsNumeral(n: nat, bytes: seq<Byte>)
    ensures IsNumeral(bytes, n) <==> bytes == Ascii(Decimal(n))
  {
    var text := Decimal(n);
    if n >= 10 {
      assert text[..|text| - 1] == Decimal(n / 10);
      if bytes != [] {
        AsciiIsNumeral(n / 10, bytes[..|bytes| - 1]);
        assert Ascii(text) == Ascii(Decimal(n / 10)) + [48 + n % 10];
        assert IsNumeral(bytes, n) ==> bytes == bytes[..|bytes| - 1] + [bytes[|bytes| - 1]];
        assert Ascii(text)[..|text| - 1] == Ascii(Decimal(n / 10));
      }
    }
  }

  /** What is signed: the timestamp in decimal, byte 46, the body. */
  lemma PayloadIs(timestamp: nat, body: seq<Byte>, numeral: seq<Byte>)
    requires IsNumeral(numeral, timestamp)
    ensures Payload(timestamp, body) == numeral + [46] + body
  {
    AsciiIsNumeral(timestamp, numeral);
  }

  /** The timestamp may lie on either side of the clock, by the tolerance, or by 300
      seconds when none is given. */
  lemma WindowIs(now: nat, timestamp: nat, tolerance: Option<nat>)
    ensures Fresh(now, timestamp, tolerance) <==>
      var limit := if tolerance.Some? then tolerance.value else 300;
      timestamp <= now + limit && now <= timestamp + limit
  {
  }

  /** The verdict, in plain numbers. */
  lemma AcceptsIff(crypto: Crypto, secret: seq<Byte>, body: seq<Byte>, said: seq<Said>, tolerance: Option<nat>,
                   now: nat, numeral: seq<Byte>)
    requires LastTimestamp(said).Some? ==> IsNumeral(numeral, LastTimestamp(said).value)
    ensures Accepts(crypto, secret, body, said, tolerance, now) <==>
      && LastTimestamp(said).Some?
      && (var limit := if tolerance.Some? then tolerance.value else 300;
          LastTimestamp(said).value <= now + limit && now <= LastTimestamp(said).value + limit)
      && exists s :: s in Signatures(said) && crypto.decode(s) == Some(crypto.mac(secret, numeral + [46] + body))
  {
    if LastTimestamp(said).Some? {
      PayloadIs(LastTimestamp(said).value, body, numeral);
      WindowIs(now, LastTimestamp(said).value, tolerance);
    }
  }
}
