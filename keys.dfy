/**
 * The idempotency keys the payment gateway deduplicates charges by: one
 * namespace for the nightly settlement and one for a manual assignment.
 */
module Keys {
  import opened Text

  /** `nightly:{dateKey}:{uid}:{amountCents}`. */
  function NightlyKey(dateKey: string, uid: string, amountCents: nat): (k: string)
    ensures |k| > 8 && k[..8] == "nightly:"
  {
    "nightly:" + dateKey + ":" + uid + ":" + Decimal(amountCents)
  }

  /** `admin-assign:{date}:{uid}:{amountCents}`. */
  function AdminAssignKey(dateKey: string, uid: string, amountCents: nat): (k: string)
    ensures |k| > 13 && k[..13] == "admin-assign:"
  {
    "admin-assign:" + dateKey + ":" + uid + ":" + Decimal(amountCents)
  }

  /** A nightly key and a manual-assignment key are never the same string. */
  lemma KeyNamespacesDisjoint(d1: string, u1: string, a1: nat, d2: string, u2: string, a2: nat)
    ensures NightlyKey(d1, u1, a1) != AdminAssignKey(d2, u2, a2)
  {
    var n, m := NightlyKey(d1, u1, a1), AdminAssignKey(d2, u2, a2);
    assert n[0] == "nightly:"[0] == 'n';
    assert m[0] == "admin-assign:"[0] == 'a';
  }

  /** Cutting at the first colon: a colon-free head is recovered exactly. */
  lemma FirstColonSplit(x1: string, y1: string, x2: string, y2: string)
    requires ':' !in x1 && ':' !in x2
    requires x1 + ":" + y1 == x2 + ":" + y2
    ensures x1 == x2 && y1 == y2
  {
    var s := x1 + ":" + y1;
    var m := if |x1| < |x2| then |x1| else |x2|;
    assert s[m] == (x2 + ":" + y2)[m];
    assert |x1| == |x2|;
    assert x1 == s[..|x1|] == x2;
    assert y1 == s[|x1| + 1..] == y2;
  }

  /** Cutting at the last colon: a colon-free tail is recovered exactly. */
  lemma LastColonSplit(y1: string, z1: string, y2: string, z2: string)
    requires ':' !in z1 && ':' !in z2
    requires y1 + ":" + z1 == y2 + ":" + z2
    ensures y1 == y2 && z1 == z2
  {
    var s := y1 + ":" + z1;
    var n := |s|;
    var m := if |z1| < |z2| then |z1| else |z2|;
    assert s[n - 1 - m] == (y2 + ":" + z2)[n - 1 - m];
    assert |z1| == |z2|;
    assert z1 == s[n - |z1|..] == z2;
    assert y1 == s[..|y1|] == y2;
  }

  lemma DecimalHasNoColon(a: nat)
    ensures ':' !in Decimal(a)
  {
    var d := Decimal(a);
    forall i | 0 <= i < |d| ensures d[i] != ':' {
      assert IsDigit(d[i]);
    }
  }

  /** The part after the namespace: `{dateKey}:{uid}:{amountCents}` names its parts. */
  lemma {:induction false} KeyTailInjective(d1: string, u1: string, a1: nat, d2: string, u2: string, a2: nat)
    requires ':' !in d1 && ':' !in d2
    requires d1 + ":" + u1 + ":" + Decimal(a1) == d2 + ":" + u2 + ":" + Decimal(a2)
    ensures d1 == d2 && u1 == u2 && a1 == a2
  {
    DecimalHasNoColon(a1);
    DecimalHasNoColon(a2);
    var t1, t2 := u1 + ":" + Decimal(a1), u2 + ":" + Decimal(a2);
    assert d1 + ":" + t1 == d1 + ":" + u1 + ":" + Decimal(a1);
    assert d2 + ":" + t2 == d2 + ":" + u2 + ":" + Decimal(a2);
    FirstColonSplit(d1, t1, d2, t2);
    LastColonSplit(u1, Decimal(a1), u2, Decimal(a2));
    DecimalInjective(a1, a2);
  }

  /** Two strings with the same prefix are equal when the whole strings are. */
  lemma DropPrefix(p: string, x: string, y: string)
    requires p + x == p + y
    ensures x == y
  {
    assert x == (p + x)[|p|..];
  }

  /**
   * The key names its charge: for date keys without a colon (they are
   * YYYY-MM-DD), equal keys mean the same date, uid and amount.
   */
  lemma NightlyKeyInjective(d1: string, u1: string, a1: nat, d2: string, u2: string, a2: nat)
    requires ':' !in d1 && ':' !in d2
    requires NightlyKey(d1, u1, a1) == NightlyKey(d2, u2, a2)
    ensures d1 == d2 && u1 == u2 && a1 == a2
  {
    var t1, t2 := d1 + ":" + u1 + ":" + Decimal(a1), d2 + ":" + u2 + ":" + Decimal(a2);
    assert NightlyKey(d1, u1, a1) == "nightly:" + t1;
    assert NightlyKey(d2, u2, a2) == "nightly:" + t2;
    DropPrefix("nightly:", t1, t2);
    KeyTailInjective(d1, u1, a1, d2, u2, a2);
  }

  /** The same holds for manual-assignment keys. */
  lemma AdminAssignKeyInjective(d1: string, u1: string, a1: nat, d2: string, u2: string, a2: nat)
    requires ':' !in d1 && ':' !in d2
    requires AdminAssignKey(d1, u1, a1) == AdminAssignKey(d2, u2, a2)
    ensures d1 == d2 && u1 == u2 && a1 == a2
  {
    var t1, t2 := d1 + ":" + u1 + ":" + Decimal(a1), d2 + ":" + u2 + ":" + Decimal(a2);
    assert AdminAssignKey(d1, u1, a1) == "admin-assign:" + t1;
    assert AdminAssignKey(d2, u2, a2) == "admin-assign:" + t2;
    DropPrefix("admin-assign:", t1, t2);
    KeyTailInjective(d1, u1, a1, d2, u2, a2);
  }
}
