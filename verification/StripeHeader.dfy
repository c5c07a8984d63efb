/** The Stripe signature header: splitting, trimming, and what the items say. */
module StripeHeaders {
  import opened Foundation
  import opened Decimals

  // ------------------------------------------------------------------ splitting

  /** `text.split(',')`: always at least one piece. */
  function Split(text: string): (pieces: seq<string>)
    ensures pieces != []
    ensures forall i :: 0 <= i < |pieces| ==> ',' !in pieces[i]
  {
    if text == [] then [[]]
    else
      var n := |text| - 1;
      var before := Split(text[..n]);
      if text[n] == ',' then before + [[]]
      else before[..|before| - 1] + [before[|before| - 1] + [text[n]]]
  }

  function Join(pieces: seq<string>): string
    requires pieces != []
  {
    if |pieces| == 1 then pieces[0]
    else Join(pieces[..|pieces| - 1]) + "," + pieces[|pieces| - 1]
  }

  lemma AppendLast(front: seq<string>, pieces: seq<string>, c: char)
    requires pieces != []
    ensures var all, k := front + pieces, |front + pieces| - 1;
      all[..k] + [all[k] + [c]] == front + (pieces[..|pieces| - 1] + [pieces[|pieces| - 1] + [c]])
    ensures front + pieces + [[]] == front + (pieces + [[]])
  {
  }

  lemma {:induction false} SplitAtComma(a: string, b: string)
    ensures Split(a + "," + b) == Split(a) + Split(b)
  {
    var text := a + "," + b;
    if b == [] {
      assert text[..|text| - 1] == a;
    } else {
      var n := |b| - 1;
      SplitAtComma(a, b[..n]);
      assert text[..|text| - 1] == a + "," + b[..n];
      AppendLast(Split(a), Split(b[..n]), b[n]);
    }
  }

  lemma {:induction false} SplitWhole(text: string)
    requires ',' !in text
    ensures Split(text) == [text]
  {
    if text != [] {
      SplitWhole(text[..|text| - 1]);
      assert text == text[..|text| - 1] + [text[|text| - 1]];
    }
  }

  /** Splitting undoes joining. */
  lemma {:induction false} SplitOfJoin(pieces: seq<string>)
    requires pieces != [] && forall i :: 0 <= i < |pieces| ==> ',' !in pieces[i]
    ensures Split(Join(pieces)) == pieces
  {
    var n := |pieces| - 1;
    SplitWhole(pieces[n]);
    if n > 0 {
      SplitOfJoin(pieces[..n]);
      SplitAtComma(Join(pieces[..n]), pieces[n]);
      assert pieces == pieces[..n] + [pieces[n]];
    } else {
      assert pieces == [pieces[0]];
    }
  }

  /** Joining undoes splitting, so every header is the join of its items. */
  lemma {:induction false} JoinOfSplit(text: string)
    ensures Join(Split(text)) == text
  {
    if text != [] {
      var n := |text| - 1;
      JoinOfSplit(text[..n]);
      var before, pieces := Split(text[..n]), Split(text);
      assert text == text[..n] + [text[n]];
      if text[n] == ',' {
        assert pieces[..|pieces| - 1] == before;
      } else {
        assert pieces[..|pieces| - 1] == before[..|before| - 1];
      }
    }
  }

  // ------------------------------------------------------------------- trimming

  /** The White_Space property of Unicode, as `char::is_whitespace` uses it. */
  predicate IsSpace(c: char) {
    var u := c as int;
    || 0x9 <= u <= 0xD || u == 0x20 || u == 0x85 || u == 0xA0 || u == 0x1680
    || 0x2000 <= u <= 0x200A || u == 0x2028 || u == 0x2029 || u == 0x202F || u == 0x205F || u == 0x3000
  }

  function TrimStart(text: string): string {
    if text != [] && IsSpace(text[0]) then TrimStart(text[1..]) else text
  }

  function TrimEnd(text: string): string {
    if text != [] && IsSpace(text[|text| - 1]) then TrimEnd(text[..|text| - 1]) else text
  }

  function Trim(text: string): string {
    TrimEnd(TrimStart(text))
  }

  predicate IsTrimmed(text: string) {
    text != [] ==> !IsSpace(text[0]) && !IsSpace(text[|text| - 1])
  }

  // ---------------------------------------------------------------------- items

  function FirstEquals(item: string): (i: nat)
    ensures i <= |item| && '=' !in item[..i]
    ensures i < |item| ==> item[i] == '='
  {
    if item == [] || item[0] == '=' then 0
    else
      var i := FirstEquals(item[1..]) + 1;
      assert item[..i] == [item[0]] + item[1..][..i - 1];
      i
  }

  /** `item.splitn(2, '=')` has two parts exactly when there is a '='. */
  function Field(item: string): Option<(string, string)> {
    var i := FirstEquals(item);
    if i == |item| then None else Some((Trim(item[..i]), Trim(item[i + 1..])))
  }

  /** `text.parse::<u64>()`: an optional plus sign, then digits that fit. */
  function ParseU64(text: string): (value: Option<nat>)
    ensures value.Some? ==> value.value <= U64_MAX
  {
    var digits := if |text| > 1 && text[0] == '+' then text[1..] else text;
    if digits == [] || !Digits(digits) || Value(digits) > U64_MAX then None else Some(Value(digits))
  }

  /** What one item contributes. */
  datatype Said = At(timestamp: nat) | SignedBy(signature: string) | Nothing

  function Meaning(item: string): Said {
    match Field(item)
    case None => Nothing
    case Some((key, val)) =>
      if key == "t" then
        match ParseU64(val) {
          case Some(timestamp) => At(timestamp)
          case None => Nothing
        }
      else if key == "v1" then SignedBy(val)
      else Nothing
  }

  function Meanings(items: seq<string>): (said: seq<Said>)
    ensures |said| == |items| && forall i :: 0 <= i < |items| ==> said[i] == Meaning(items[i])
  {
    seq(|items|, i requires 0 <= i < |items| => Meaning(items[i]))
  }

  /** The last well-formed timestamp. */
  function LastTimestamp(said: seq<Said>): Option<nat> {
    if said == [] then None
    else if said[|said| - 1].At? then Some(said[|said| - 1].timestamp)
    else LastTimestamp(said[..|said| - 1])
  }

  /** All signatures, in order. */
  function Signatures(said: seq<Said>): seq<string> {
    if said == [] then []
    else
      var before := Signatures(said[..|said| - 1]);
      if said[|said| - 1].SignedBy? then before + [said[|said| - 1].signature] else before
  }

  /** The parsing loop. */
  method ParseHeader(header: string) returns (timestamp: Option<nat>, signatures: seq<string>)
    ensures timestamp == LastTimestamp(Meanings(Split(header)))
    ensures signatures == Signatures(Meanings(Split(header)))
  {
    timestamp, signatures := None, [];
    var items := Split(header);
    ghost var said := Meanings(items);
    for k := 0 to |items|
      invariant timestamp == LastTimestamp(said[..k])
      invariant signatures == Signatures(said[..k])
    {
      assert said[..k + 1][..k] == said[..k];
      var field := Field(items[k]);
      if field.Some? {
        var (key, val) := field.value;
        if key == "t" {
          var ts := ParseU64(val);
          if ts.Some? {
            timestamp := ts;
          }
        } else if key == "v1" {
          signatures := signatures + [val];
        }
      }
    }
    assert said[..|items|] == said;
  }

  lemma MeaningsOfConcat(a: seq<string>, b: seq<string>)
    ensures Meanings(a + b) == Meanings(a) + Meanings(b)
  {
  }

  /** What a header says is what its first items say, overridden and extended by
      what the rest says. */
  lemma {:induction false} MeaningsAppend(a: seq<Said>, b: seq<Said>)
    ensures LastTimestamp(a + b) == if LastTimestamp(b).Some? then LastTimestamp(b) else LastTimestamp(a)
    ensures Signatures(a + b) == Signatures(a) + Signatures(b)
  {
    if b == [] {
      assert a + b == a;
    } else {
      var n := |b| - 1;
      MeaningsAppend(a, b[..n]);
      assert (a + b)[..|a| + n] == a + b[..n];
    }
  }

  // ----------------------------------------------------------------- round trip

  function SignatureItems(signatures: seq<string>): (items: seq<string>)
    ensures |items| == |signatures|
  {
    seq(|signatures|, i requires 0 <= i < |signatures| => "v1=" + signatures[i])
  }

  /** The header a sender prints: t=<seconds>,v1=<hex>,v1=<hex>... */
  function PrintHeader(timestamp: nat, signatures: seq<string>): string {
    Join(["t=" + Decimal(timestamp)] + SignatureItems(signatures))
  }

  lemma TrimmedStays(text: string)
    requires IsTrimmed(text)
    ensures Trim(text) == text
  {
  }

  predicate IsClean(signature: string) {
    IsTrimmed(signature) && ',' !in signature
  }

  lemma TimeItem(timestamp: nat)
    requires timestamp <= U64_MAX
    ensures var item := "t=" + Decimal(timestamp);
      ',' !in item && Meaning(item) == At(timestamp)
  {
    var item := "t=" + Decimal(timestamp);
    assert item[0] == 't' && item[1] == '=';
    assert item[..1] == "t" && item[2..] == Decimal(timestamp);
    assert item[1..][0] == '=';
    assert FirstEquals(item) == 1;
    TrimmedStays(Decimal(timestamp));
    TrimmedStays("t");
    ValueOfDecimal(timestamp);
  }

  lemma SignatureItem(signature: string)
    requires IsClean(signature)
    ensures var item := "v1=" + signature;
      ',' !in item && Meaning(item) == SignedBy(signature)
  {
    var item := "v1=" + signature;
    assert item[0] == 'v' && item[1] == '1' && item[2] == '=';
    assert item[1..][0] == '1' && item[1..][1..][0] == '=';
    assert FirstEquals(item[1..][1..]) == 0;
    assert FirstEquals(item[1..]) == 1;
    assert FirstEquals(item) == 2;
    assert item[..2] == "v1" && item[3..] == signature;
    TrimmedStays(signature);
    TrimmedStays("v1");
  }

  lemma {:induction false} ListedSignatures(said: seq<Said>, signatures: seq<string>)
    requires |said| == |signatures| && forall i :: 0 <= i < |said| ==> said[i] == SignedBy(signatures[i])
    ensures Signatures(said) == signatures && LastTimestamp(said).None?
  {
    if said != [] {
      var n := |said| - 1;
      ListedSignatures(said[..n], signatures[..n]);
      assert signatures == signatures[..n] + [signatures[n]];
    }
  }

  lemma SignatureItemsMean(signatures: seq<string>)
    requires forall i :: 0 <= i < |signatures| ==> IsClean(signatures[i])
    ensures forall i :: 0 <= i < |signatures| ==> ',' !in SignatureItems(signatures)[i]
    ensures Signatures(Meanings(SignatureItems(signatures))) == signatures
    ensures LastTimestamp(Meanings(SignatureItems(signatures))).None?
  {
    var items := SignatureItems(signatures);
    forall i | 0 <= i < |items|
      ensures ',' !in items[i] && Meaning(items[i]) == SignedBy(signatures[i])
    {
      SignatureItem(signatures[i]);
    }
    ListedSignatures(Meanings(items), signatures);
  }

  lemma PrintedItems(timestamp: nat, signatures: seq<string>)
    requires timestamp <= U64_MAX
    requires forall i :: 0 <= i < |signatures| ==> IsClean(signatures[i])
    ensures var items := ["t=" + Decimal(timestamp)] + SignatureItems(signatures);
      && (forall i :: 0 <= i < |items| ==> ',' !in items[i])
      && LastTimestamp(Meanings(items)) == Some(timestamp)
      && Signatures(Meanings(items)) == signatures
  {
    TimeItem(timestamp);
    SignatureItemsMean(signatures);
    var first, rest := ["t=" + Decimal(timestamp)], SignatureItems(signatures);
    MeaningsOfConcat(first, rest);
    MeaningsAppend(Meanings(first), Meanings(rest));
    assert Meanings(first)[..0] == [];
  }

  lemma {:induction false} TrimStartCleans(text: string)
    ensures var s := TrimStart(text);
      (s != [] ==> !IsSpace(s[0])) && (',' !in text ==> ',' !in s)
  {
    if text != [] && IsSpace(text[0]) {
      TrimStartCleans(text[1..]);
    }
  }

  lemma {:induction false} TrimEndCleans(text: string)
    ensures var s := TrimEnd(text);
      && (s != [] ==> !IsSpace(s[|s| - 1]))
      && (',' !in text ==> ',' !in s)
      && (s != [] ==> s[0] == text[0])
  {
    if text != [] && IsSpace(text[|text| - 1]) {
      TrimEndCleans(text[..|text| - 1]);
    }
  }

  lemma ItemIsClean(item: string)
    requires ',' !in item && Meaning(item).SignedBy?
    ensures IsClean(Meaning(item).signature)
  {
    var val := item[FirstEquals(item) + 1..];
    TrimStartCleans(val);
    TrimEndCleans(TrimStart(val));
  }

  /** Whatever the header, the signatures it yields are trimmed and free of commas. */
  lemma {:induction false} SignaturesAreClean(items: seq<string>)
    requires forall i :: 0 <= i < |items| ==> ',' !in items[i]
    ensures forall i :: 0 <= i < |Signatures(Meanings(items))| ==> IsClean(Signatures(Meanings(items))[i])
  {
    if items != [] {
      var n := |items| - 1;
      SignaturesAreClean(items[..n]);
      assert Meanings(items)[..n] == Meanings(items[..n]);
      if Meaning(items[n]).SignedBy? {
        ItemIsClean(items[n]);
      }
    }
  }

  /** Parsing undoes printing, for every 64-bit timestamp, exactly when the
      signatures are trimmed and free of commas. */
  lemma PrintedHeaderParses(timestamp: nat, signatures: seq<string>)
    requires timestamp <= U64_MAX
    ensures
      var said := Meanings(Split(PrintHeader(timestamp, signatures)));
      (forall i :: 0 <= i < |signatures| ==> IsClean(signatures[i])) <==>
      LastTimestamp(said) == Some(timestamp) && Signatures(said) == signatures
  {
    SignaturesAreClean(Split(PrintHeader(timestamp, signatures)));
    if forall i :: 0 <= i < |signatures| ==> IsClean(signatures[i]) {
      PrintedItems(timestamp, signatures);
      SplitOfJoin(["t=" + Decimal(timestamp)] + SignatureItems(signatures));
    }
  }
}
