/** Small shared vocabulary: optional values, identifiers, time, and rounding. */
module Foundation {

  datatype Option<+T> = None | Some(value: T)

  type Byte = x: int | 0 <= x < 256

  /** A UUID. Version 7 identifiers are compared as text; only their order and
      their freshness matter here, so a number stands for one. */
  type Id = nat

  /** A reading of the monotone clock, and a length of time, in milliseconds. */
  type Instant = nat
  type Duration = nat

  const U64_MAX: nat := 0xFFFF_FFFF_FFFF_FFFF

  function Min(a: int, b: int): int {
    if a <= b then a else b
  }

  function Max(a: int, b: int): int {
    if a <= b then b else a
  }

  /** A limit of zero acts as a limit of one: the source compares with `>=`
      only after it has counted one more. */
  function AtLeastOne(n: nat): (m: nat)
    ensures m >= 1
  {
    if n == 0 then 1 else n
  }

  // Products of two unknowns, kept linear in the proofs: repeated addition, and
  // the lemmas that turn it back into `*` and `/`.

  function Times(n: nat, d: nat): nat {
    if n == 0 then 0 else Times(n - 1, d) + d
  }

  lemma {:induction false} TimesIsProduct(n: nat, d: nat)
    ensures Times(n, d) == n * d
  {
    if n > 0 {
      TimesIsProduct(n - 1, d);
    }
  }

  lemma {:induction false} TimesGrows(a: nat, b: nat, d: nat)
    requires a <= b
    ensures Times(a, d) <= Times(b, d)
  {
    if a < b {
      TimesGrows(a, b - 1, d);
    }
  }

  lemma TimesFits(n: nat, d: nat, length: nat)
    requires d > 0 && Times(n, d) <= length
    ensures n <= length / d
  {
    var q := length / d;
    TimesIsProduct(q, d);
    if n > q {
      TimesGrows(q + 1, n, d);
      assert false;
    }
  }
}
