/** White space and numbers in a Stripe signature header, in terms of the characters
    themselves: what is ignored around keys and values, and what reads as a timestamp. */
module StripeBlanks {
  import opened Foundation
  import opened Decimals
  import opened StripeHeaders

  /** The 25 characters of Unicode's White_Space. */
  const WHITE_SPACE: string :=
    "\U{9}\U{A}\U{B}\U{C}\U{D} \U{85}\U{A0}\U{1680}" +
    "\U{2000}\U{2001}\U{2002}\U{2003}\U{2004}\U{2005}\U{2006}\U{2007}\U{2008}\U{2009}\U{200A}" +
    "\U{2028}\U{2029}\U{202F}\U{205F}\U{3000}"

  predicate IsBlank(text: string) {
    forall c :: c in text ==> c in WHITE_SPACE
  }

  /** No white space at either end. */
  predicate IsBare(text: string) {
    text != [] ==> text[0] !in WHITE_SPACE && text[|text| - 1] !in WHITE_SPACE
  }

  lemma SpacesAreListed(c: char)
    ensures IsSpace(c) <==> c in WHITE_SPACE
  {
    var u := c as int;
    if IsSpace(c) {
      var i := if u <= 0xD then u - 9 else if u == 0x20 then 5 else if u == 0x85 then 6 else if u == 0xA0 then 7
        else if u == 0x1680 then 8 else if u <= 0x200A then u - 0x2000 + 9 else if u == 0x2028 then 20
        else if u == 0x2029 then 21 else if u == 0x202F then 22 else if u == 0x205F then 23 else 24;
      assert WHITE_SPACE[i] == c;
    }
  }

  // ------------------------------------------------------------------- trimming

  lemma {:induction false} LeadingBlanksGo(blank: string, text: string)
    requires IsBlank(blank) && (text != [] ==> text[0] !in WHITE_SPACE)
    ensures TrimStart(blank + text) == text
  {
    if blank == [] {
      assert blank + text == text;
      if text != [] {
        SpacesAreListed(text[0]);
      }
    } else {
      assert blank[0] in blank;
      SpacesAreListed(blank[0]);
      LeadingBlanksGo(blank[1..], text);
      assert (blank + text)[1..] == blank[1..] + text;
    }
  }

  lemma {:induction false} TrailingBlanksGo(text: string, blank: string)
    requires IsBlank(blank) && (text != [] ==> text[|text| - 1] !in WHITE_SPACE)
    ensures TrimEnd(text + blank) == text
  {
    if blank == [] {
      assert text + blank == text;
      if text != [] {
        SpacesAreListed(text[|text| - 1]);
      }
    } else {
      var n := |blank| - 1;
      assert blank[n] in blank;
      SpacesAreListed(blank[n]);
      TrailingBlanksGo(text, blank[..n]);
      assert (text + blank)[..|text| + n] == text + blank[..n];
    }
  }

  /** Trimming takes off all white space at both ends, and nothing else. */
  lemma TrimIgnoresBlanks(before: string, text: string, after: string)
    requires IsBlank(before) && IsBlank(after) && IsBare(text)
    ensures Trim(before + text + after) == text
  {
    if text == [] {
      assert before + text + after == (before + after) + [];
      LeadingBlanksGo(before + after, []);
    } else {
      assert before + text + after == before + (text + after);
      LeadingBlanksGo(before, text + after);
      TrailingBlanksGo(text, after);
    }
  }

  // ----------------------------------------------------------------------- items

  lemma {:induction false} FirstEqualsAt(key: string, rest: string)
    requires '=' !in key
    ensures FirstEquals(key + "=" + rest) == |key|
  {
    var item := key + "=" + rest;
    if key == [] {
      assert item[0] == '=';
    } else {
      assert key[0] in key && item[0] == key[0];
      FirstEqualsAt(key[1..], rest);
      assert item[1..] == key[1..] + "=" + rest;
    }
  }

  lemma BlanksHoldNoSigns(blank: string)
    requires IsBlank(blank)
    ensures '=' !in blank && ',' !in blank
  {
    assert '=' !in WHITE_SPACE && ',' !in WHITE_SPACE;
  }

  /** An item is its key and its value, whatever white space surrounds either. */
  lemma FieldIgnoresBlanks(a: string, key: string, b: string, c: string, val: string, d: string)
    requires IsBlank(a) && IsBlank(b) && IsBlank(c) && IsBlank(d)
    requires IsBare(key) && IsBare(val) && '=' !in key
    ensures Field(a + key + b + "=" + (c + val + d)) == Some((key, val))
  {
    var left, right := a + key + b, c + val + d;
    BlanksHoldNoSigns(a);
    BlanksHoldNoSigns(b);
    FirstEqualsAt(left, right);
    var item := left + "=" + right;
    assert item[..|left|] == left && item[|left| + 1..] == right;
    TrimIgnoresBlanks(a, key, b);
    TrimIgnoresBlanks(c, val, d);
  }

  lemma PlainField(key: string, val: string)
    requires IsBare(key) && IsBare(val) && '=' !in key
    ensures Field(key + "=" + val) == Some((key, val))
  {
    FieldIgnoresBlanks([], key, [], [], val, []);
    assert [] + key + [] + "=" + ([] + val + []) == key + "=" + val;
  }

  lemma SameFieldSameMeaning(item: string, other: string)
    requires Field(item) == Field(other)
    ensures Meaning(item) == Meaning(other)
  {
  }

  lemma MeaningIgnoresBlanks(a: string, key: string, b: string, c: string, val: string, d: string)
    requires IsBlank(a) && IsBlank(b) && IsBlank(c) && IsBlank(d)
    requires IsBare(key) && IsBare(val) && '=' !in key
    ensures Meaning(a + key + b + "=" + (c + val + d)) == Meaning(key + "=" + val)
  {
    FieldIgnoresBlanks(a, key, b, c, val, d);
    PlainField(key, val);
    SameFieldSameMeaning(a + key + b + "=" + (c + val + d), key + "=" + val);
  }

  /** A signature is any bare value under the key v1; a timestamp any number under t. */
  lemma ItemsMean(a: string, b: string, c: string, val: string, d: string)
    requires IsBlank(a) && IsBlank(b) && IsBlank(c) && IsBlank(d) && IsBare(val)
    ensures Meaning(a + "v1" + b + "=" + (c + val + d)) == SignedBy(val)
    ensures Meaning(a + "t" + b + "=" + (c + val + d)) ==
            match ParseU64(val) { case Some(timestamp) => At(timestamp) case None => Nothing }
  {
    FieldIgnoresBlanks(a, "v1", b, c, val, d);
    FieldIgnoresBlanks(a, "t", b, c, val, d);
  }

  /** An item with no equals sign, or under any other key, says nothing. */
  lemma OtherItemsSayNothing(a: string, key: string, b: string, rest: string, item: string)
    requires IsBlank(a) && IsBlank(b) && IsBare(key) && '=' !in key && key != "t" && key != "v1"
    ensures Meaning(a + key + b + "=" + rest) == Nothing
    ensures '=' !in item ==> Meaning(item) == Nothing
  {
    var left := a + key + b;
    BlanksHoldNoSigns(a);
    BlanksHoldNoSigns(b);
    FirstEqualsAt(left, rest);
    assert (left + "=" + rest)[..|left|] == left;
    TrimIgnoresBlanks(a, key, b);
  }

  // --------------------------------------------------------------------- numbers

  /** What reads as a number: decimal digits, at most one plus sign before them, and a
      value of less than 2^64. */
  lemma ParsesIff(text: string, n: nat)
    ensures ParseU64(text) == Some(n) <==>
      exists digits ::
        && (text == digits || text == "+" + digits) && digits != []
        && (forall c :: c in digits ==> c in "0123456789")
        && Reads(digits, n) && n < 0x1_0000_0000_0000_0000
  {
    var signed := |text| > 1 && text[0] == '+';
    var digits := if signed then text[1..] else text;
    if ParseU64(text) == Some(n) {
      assert text == digits || text == "+" + digits;
      DigitsAreListed(digits);
      ValueReads(digits, n);
    }
    if other :|
      && (text == other || text == "+" + other) && other != []
      && (forall c :: c in other ==> c in "0123456789")
      && Reads(other, n) && n < 0x1_0000_0000_0000_0000
    {
      assert other[0] in other && other[0] != '+';
      assert text == "+" + other ==> text[1..] == other;
      assert digits == other;
      DigitsAreListed(digits);
      ValueReads(digits, n);
    }
  }

  lemma DigitIsListed(c: char)
    ensures IsDigit(c) <==> c in "0123456789"
  {
    if IsDigit(c) {
      assert "0123456789"[c as int - 48] == c;
    }
  }

  lemma DigitsAreListed(text: string)
    ensures Digits(text) <==> forall c :: c in text ==> c in "0123456789"
  {
    forall c | c in text
      ensures IsDigit(c) <==> c in "0123456789"
    {
      DigitIsListed(c);
    }
    forall i | 0 <= i < |text|
      ensures text[i] in text
    {
    }
  }

  /** The text is a positional notation of the number, to base ten. */
  predicate Reads(text: string, n: nat) {
    if text == [] then n == 0
    else
      exists d :: 0 <= d < 10 && d <= n && (n - d) % 10 == 0 &&
        text[|text| - 1] == "0123456789"[d] && Reads(text[..|text| - 1], (n - d) / 10)
  }

  lemma {:induction false} ValueReads(text: string, n: nat)
    requires Digits(text)
    ensures Value(text) == n <==> Reads(text, n)
  {
    if text != [] {
      var last, before := text[|text| - 1], text[..|text| - 1];
      var d := DigitValue(last);
      assert "0123456789"[d] == last;
      forall e | 0 <= e < 10 && last == "0123456789"[e]
        ensures e == d
      {
      }
      if n >= d && (n - d) % 10 == 0 {
        ValueReads(before, (n - d) / 10);
      }
    }
  }

  // --------------------------------------------------------------- a spaced header

  /** Items separated by a comma and a space. */
  function JoinSpaced(items: seq<string>): string
    requires items != []
  {
    if |items| == 1 then items[0]
    else JoinSpaced(items[..|items| - 1]) + ", " + items[|items| - 1]
  }

  /** The same items, each but the first behind a space. */
  function Indented(items: seq<string>): (indented: seq<string>)
    ensures |indented| == |items|
  {
    seq(|items|, i requires 0 <= i < |items| => if i == 0 then items[0] else " " + items[i])
  }

  lemma {:induction false} SpacedIsIndented(items: seq<string>)
    requires items != []
    ensures JoinSpaced(items) == Join(Indented(items))
  {
    var n := |items| - 1;
    if n > 0 {
      SpacedIsIndented(items[..n]);
      assert Indented(items)[..n] == Indented(items[..n]);
    }
  }

  function HeaderItems(timestamp: nat, signatures: seq<string>): seq<string> {
    ["t=" + Decimal(timestamp)] + SignatureItems(signatures)
  }

  lemma IndentedIsSpaced(key: string, val: string)
    ensures " " + key + "" + "=" + ("" + val + "") == " " + (key + "=" + val)
  {
  }

  lemma IndentedItemMeans(key: string, val: string, item: string)
    requires IsBare(key) && IsBare(val) && '=' !in key && item == key + "=" + val
    ensures Meaning(" " + item) == Meaning(item)
  {
    assert IsBlank(" ") by {
      assert WHITE_SPACE[5] == ' ';
    }
    MeaningIgnoresBlanks(" ", key, "", "", val, "");
    IndentedIsSpaced(key, val);
  }

  lemma CleanIsBare(text: string)
    ensures IsTrimmed(text) <==> IsBare(text)
  {
    if text != [] {
      SpacesAreListed(text[0]);
      SpacesAreListed(text[|text| - 1]);
    }
  }

  lemma V1IsBare(signature: string)
    ensures "v1" + "=" + signature == "v1=" + signature && IsBare("v1") && '=' !in "v1"
  {
    SpacesAreListed('v');
    SpacesAreListed('1');
  }

  lemma SpacedSignatureMeans(signature: string)
    requires IsBare(signature)
    ensures Meaning(" " + ("v1=" + signature)) == Meaning("v1=" + signature)
  {
    V1IsBare(signature);
    IndentedItemMeans("v1", signature, "v1=" + signature);
  }

  lemma IndentedItemsMean(timestamp: nat, signatures: seq<string>, i: nat)
    requires forall i :: 0 <= i < |signatures| ==> IsBare(signatures[i]) && ',' !in signatures[i]
    requires i <= |signatures|
    ensures var items := HeaderItems(timestamp, signatures);
      Meaning(Indented(items)[i]) == Meaning(items[i]) && ',' !in Indented(items)[i]
  {
    var items := HeaderItems(timestamp, signatures);
    if i > 0 {
      assert items[i] == "v1=" + signatures[i - 1];
      SpacedSignatureMeans(signatures[i - 1]);
    } else {
      var numeral := Decimal(timestamp);
      assert ',' !in numeral;
    }
  }

  /** A header printed with a space after each comma says what it says without. */
  lemma SpacedHeaderParses(timestamp: nat, signatures: seq<string>)
    requires timestamp < 0x1_0000_0000_0000_0000
    requires forall i :: 0 <= i < |signatures| ==> IsBare(signatures[i]) && ',' !in signatures[i]
    ensures var said := Meanings(Split(JoinSpaced(HeaderItems(timestamp, signatures))));
      && said == Meanings(Split(PrintHeader(timestamp, signatures)))
      && LastTimestamp(said) == Some(timestamp) && Signatures(said) == signatures
  {
    var items := HeaderItems(timestamp, signatures);
    forall i | 0 <= i < |items|
      ensures Meaning(Indented(items)[i]) == Meaning(items[i]) && ',' !in Indented(items)[i]
    {
      IndentedItemsMean(timestamp, signatures, i);
    }
    assert Meanings(Indented(items)) == Meanings(items);
    SpacedIsIndented(items);
    SplitOfJoin(Indented(items));
    forall i | 0 <= i < |signatures|
      ensures IsClean(signatures[i])
    {
      CleanIsBare(signatures[i]);
    }
    PrintedItems(timestamp, signatures);
    SplitOfJoin(items);
  }
}
