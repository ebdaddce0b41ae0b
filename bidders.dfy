/**
 * The bidder side of settlement: the fields of a user document the engine
 * reads, the fallback chains that turn them into a charge amount, a payment
 * method and a tie-break time, and the ranking of candidates (highest price
 * first, then the earliest tie-break time, then the uid).
 */
module Bidders {
  import opened Wrappers
  import opened Text
  import opened Sorting

  /** A timestamp-like field value, as tieBreakMillis sees it. */
  datatype Stamp =
    | Unset                   // absent, null, or another falsy value
    | Timestamp(millis: int)  // a store Timestamp or a Date: an object, hence truthy
    | Millis(n: int)          // a raw number of milliseconds: falsy when it is 0
    | Opaque                  // any other truthy value, such as a non-empty string

  predicate Truthy(s: Stamp) {
    s.Timestamp? || (s.Millis? && s.n != 0) || s.Opaque?
  }

  /** The milliseconds a truthy stamp yields; anything else counts as 0. */
  function StampMillis(s: Stamp): int {
    match s
    case Timestamp(m) => m
    case Millis(n) => n
    case _ => 0
  }

  /**
   * The fields of users/{uid} that settlement and manual assignment read.
   * Prices are whole dollars and amounts whole cents; Some(n) means the field
   * holds a finite number, None that it is absent or not a number. A payment
   * method field is Some(s) when it holds a string. stripeCustomerId is ""
   * when it is absent or falsy. isActive is true exactly when the field holds
   * the boolean true.
   */
  datatype UserDoc = UserDoc(
    crownPrice: Option<int>,
    crownPriceCents: Option<int>,
    crownOfferCents: Option<int>,
    amountCents: Option<int>,
    amount: Option<int>,
    isActive: bool,
    stripeCustomerId: string,
    stripeDefaultPaymentMethodId: Option<string>,
    defaultPaymentMethodId: Option<string>,
    crownPriceUpdatedAt: Stamp,
    crownOfferUpdatedAt: Stamp,
    updatedAt: Stamp,
    createdAt: Stamp)

  /** One query row: the document id and the document's data. */
  datatype Candidate = Candidate(uid: string, u: UserDoc)

  /** The smallest charge, in cents, either path will attempt. */
  const MinChargeCents: int := 50

  predicate NonEmptyString(f: Option<string>) {
    f.Some? && f.value != ""
  }

  /** paymentMethodFromUser: the first of the two fields that holds a non-empty string. */
  function PaymentMethodFromUser(u: UserDoc): (r: Option<string>)
    ensures r.Some? ==> r.value != ""
    ensures NonEmptyString(u.stripeDefaultPaymentMethodId) ==> r == u.stripeDefaultPaymentMethodId
    ensures !NonEmptyString(u.stripeDefaultPaymentMethodId) ==>
              r == (if NonEmptyString(u.defaultPaymentMethodId) then u.defaultPaymentMethodId else None)
  {
    if NonEmptyString(u.stripeDefaultPaymentMethodId) then u.stripeDefaultPaymentMethodId
    else if NonEmptyString(u.defaultPaymentMethodId) then u.defaultPaymentMethodId
    else None
  }

  /** amountCentsFromUser: the dollar price in cents, else the cents field, else nothing. */
  function AmountCentsFromUser(u: UserDoc): Option<int> {
    if u.crownPrice.Some? then Some(u.crownPrice.value * 100) else u.crownPriceCents
  }

  /** The amount check both paths apply: `!amountCents || amountCents < 50` rejects. */
  predicate AmountValid(amount: Option<int>) {
    amount.Some? && amount.value >= MinChargeCents
  }

  /** Every row the price query returns has a positive dollar price, so its amount always passes. */
  lemma PositivePriceIsChargeable(u: UserDoc)
    requires u.crownPrice.Some? && u.crownPrice.value > 0
    ensures AmountValid(AmountCentsFromUser(u))
    ensures AmountCentsFromUser(u) == Some(u.crownPrice.value * 100)
  {
  }

  /** Without a numeric dollar price the cents field decides, and below 50 it is refused. */
  lemma CentsFieldDecidesWithoutPrice(u: UserDoc)
    requires u.crownPrice.None?
    ensures AmountCentsFromUser(u) == u.crownPriceCents
    ensures AmountValid(AmountCentsFromUser(u)) <==> u.crownPriceCents.Some? && u.crownPriceCents.value >= 50
  {
  }

  /** The first truthy stamp of a `a || b || ... || null` chain, or Unset. */
  function FirstTruthy(stamps: seq<Stamp>): (r: Stamp)
    ensures r == Unset <==> forall i :: 0 <= i < |stamps| ==> !Truthy(stamps[i])
    ensures r != Unset ==> exists i :: 0 <= i < |stamps| && stamps[i] == r && Truthy(r) &&
                                       forall j :: 0 <= j < i ==> !Truthy(stamps[j])
    decreases |stamps|
  {
    if stamps == [] then Unset
    else if Truthy(stamps[0]) then stamps[0]
    else
      var r := FirstTruthy(stamps[1..]);
      assert r != Unset ==> exists i :: 1 <= i < |stamps| && stamps[i] == r && Truthy(r) &&
                                        forall j :: 0 <= j < i ==> !Truthy(stamps[j]) by {
        if r != Unset {
          var i :| 0 <= i < |stamps[1..]| && stamps[1..][i] == r && Truthy(r) &&
                   forall j :: 0 <= j < i ==> !Truthy(stamps[1..][j]);
          assert stamps[i + 1] == r;
          forall j | 0 <= j < i + 1 ensures !Truthy(stamps[j]) {
            if j > 0 { assert stamps[j] == stamps[1..][j - 1]; }
          }
        }
      }
      r
  }

  /** The fields tieBreakMillis consults, in order. */
  function TieBreakFields(u: UserDoc): seq<Stamp> {
    [u.crownPriceUpdatedAt, u.crownOfferUpdatedAt, u.updatedAt, u.createdAt]
  }

  /** tieBreakMillis: the first truthy of the four fields, in milliseconds; 0 when none is. */
  function TieBreakMillis(u: UserDoc): (t: int)
    ensures (forall i :: 0 <= i < 4 ==> !Truthy(TieBreakFields(u)[i])) ==> t == 0
    ensures Truthy(u.crownPriceUpdatedAt) ==> t == StampMillis(u.crownPriceUpdatedAt)
    ensures forall i :: (0 <= i < 4 && Truthy(TieBreakFields(u)[i]) && forall j :: 0 <= j < i ==> !Truthy(TieBreakFields(u)[j])) ==>
              t == StampMillis(TieBreakFields(u)[i])
  {
    var f := TieBreakFields(u);
    var r := FirstTruthy(f);
    forall i | 0 <= i < 4 && Truthy(f[i]) && (forall j :: 0 <= j < i ==> !Truthy(f[j]))
      ensures r == f[i]
    {
      var k :| 0 <= k < |f| && f[k] == r && Truthy(r) && forall j :: 0 <= j < k ==> !Truthy(f[j]);
      assert !(k < i) && !(i < k);
    }
    StampMillis(r)
  }

  /** The price the comparator sees: a non-number counts as 0. */
  function RankPrice(u: UserDoc): int {
    if u.crownPrice.Some? then u.crownPrice.value else 0
  }

  /** The sort comparator: negative when a ranks before b. */
  function Compare(a: Candidate, b: Candidate): int {
    var ap, bp := RankPrice(a.u), RankPrice(b.u);
    if bp != ap then bp - ap
    else
      var at, bt := TieBreakMillis(a.u), TieBreakMillis(b.u);
      if at != bt then at - bt else StrCompare(a.uid, b.uid)
  }

  /** a strictly outranks b: a higher price, or the same price and an earlier time, or both equal and a smaller uid. */
  predicate Outranks(a: Candidate, b: Candidate) {
    || RankPrice(a.u) > RankPrice(b.u)
    || (RankPrice(a.u) == RankPrice(b.u) && TieBreakMillis(a.u) < TieBreakMillis(b.u))
    || (RankPrice(a.u) == RankPrice(b.u) && TieBreakMillis(a.u) == TieBreakMillis(b.u) && StrLess(a.uid, b.uid))
  }

  /** The comparator's sign is the ranking: negative exactly when a outranks b, zero exactly on equal keys. */
  lemma CompareMeansOutranks(a: Candidate, b: Candidate)
    ensures Compare(a, b) < 0 <==> Outranks(a, b)
    ensures Compare(a, b) > 0 <==> Outranks(b, a)
    ensures Compare(a, b) == 0 <==> RankPrice(a.u) == RankPrice(b.u) &&
                                    TieBreakMillis(a.u) == TieBreakMillis(b.u) && a.uid == b.uid
  {
  }

  /** Ranking is a strict total order on candidates with different uids. */
  lemma OutranksIsStrictTotalOrder(a: Candidate, b: Candidate, c: Candidate)
    ensures !Outranks(a, a)
    ensures Outranks(a, b) ==> !Outranks(b, a)
    ensures a.uid != b.uid ==> Outranks(a, b) || Outranks(b, a)
    ensures Outranks(a, b) && Outranks(b, c) ==> Outranks(a, c)
  {
    StrLessIrreflexive(a.uid);
    StrLessAsymmetric(a.uid, b.uid);
    StrLessTotal(a.uid, b.uid);
    if Outranks(a, b) && Outranks(b, c) && StrLess(a.uid, b.uid) && StrLess(b.uid, c.uid) {
      StrLessTransitive(a.uid, b.uid, c.uid);
    }
  }

  /** a may stand before b in the ranking. */
  predicate NotAfter(a: Candidate, b: Candidate) {
    Compare(a, b) <= 0
  }

  lemma NotAfterTransitive(a: Candidate, b: Candidate, c: Candidate)
    requires NotAfter(a, b) && NotAfter(b, c)
    ensures NotAfter(a, c)
  {
    CompareMeansOutranks(a, b);
    CompareMeansOutranks(b, c);
    CompareMeansOutranks(a, c);
    if Outranks(a, b) && Outranks(b, c) {
      OutranksIsStrictTotalOrder(a, b, c);
    }
  }

  lemma NotAfterTotal(a: Candidate, b: Candidate)
    ensures NotAfter(a, b) || NotAfter(b, a)
    ensures NotAfter(a, b) && NotAfter(b, a) ==> a.uid == b.uid
  {
    CompareMeansOutranks(a, b);
    OutranksIsStrictTotalOrder(a, b, a);
  }

  /** Every pair of candidates compares one way or the other, and "not after" chains. */
  lemma NotAfterIsTotalPreorder()
    ensures TotalPreorder(NotAfter)
  {
    forall a, b, c | NotAfter(a, b) && NotAfter(b, c) ensures NotAfter(a, c) {
      NotAfterTransitive(a, b, c);
    }
    forall a, b ensures NotAfter(a, b) || NotAfter(b, a) {
      NotAfterTotal(a, b);
    }
  }

  /** candidates.sort(comparator). */
  function Rank(cs: seq<Candidate>): seq<Candidate> {
    SortBy(NotAfter, cs)
  }

  predicate Ranked(s: seq<Candidate>) {
    forall i, j :: 0 <= i < j < |s| ==> NotAfter(s[i], s[j])
  }

  /** The ranking is sorted by the comparator and holds exactly the candidates it was given. */
  lemma RankSortsAndPermutes(cs: seq<Candidate>)
    ensures Ranked(Rank(cs))
    ensures multiset(Rank(cs)) == multiset(cs)
  {
    NotAfterIsTotalPreorder();
    SortBySortsAndPermutes(NotAfter, cs);
  }

  /** Within s a uid names one candidate (document ids are unique). */
  predicate UidsIdentify(s: seq<Candidate>) {
    forall i, j :: 0 <= i < |s| && 0 <= j < |s| && s[i].uid == s[j].uid ==> s[i] == s[j]
  }

  /**
   * The ranking is deterministic: when uids identify candidates, every sorted
   * arrangement of them (whatever sort algorithm produced it) is Rank's.
   */
  lemma RankIsTheOnlySortedOrder(cs: seq<Candidate>, r: seq<Candidate>)
    requires UidsIdentify(cs)
    requires Ranked(r) && multiset(r) == multiset(cs)
    ensures r == Rank(cs)
  {
    NotAfterIsTotalPreorder();
    assert NoTies(NotAfter, cs) by {
      forall i, j | 0 <= i < |cs| && 0 <= j < |cs| && NotAfter(cs[i], cs[j]) && NotAfter(cs[j], cs[i])
        ensures cs[i] == cs[j]
      {
        NotAfterTotal(cs[i], cs[j]);
      }
    }
    SortIsUnique(NotAfter, cs, r);
  }

  /** Equal prices: the earlier tie-break time ranks first, whatever the input order. */
  lemma EarlierTimeWinsTie(a: Candidate, b: Candidate)
    requires RankPrice(a.u) == RankPrice(b.u) && TieBreakMillis(b.u) < TieBreakMillis(a.u)
    ensures Rank([a, b]) == [b, a] && Rank([b, a]) == [b, a]
  {
    CompareMeansOutranks(a, b);
    assert !NotAfter(a, b) && NotAfter(b, a);
    assert [a, b][1..] == [b] && [b, a][1..] == [a];
    assert [a][1..] == [] && [b][1..] == [];
    assert SortBy(NotAfter, [b]) == Insert(NotAfter, b, []) == [b];
    assert SortBy(NotAfter, [a]) == Insert(NotAfter, a, []) == [a];
    assert Insert(NotAfter, a, [b]) == [b] + Insert(NotAfter, a, [b][1..]) == [b, a];
    assert Insert(NotAfter, b, [a]) == [b, a];
  }

  /** The `isActive === true` filter, keeping the query order. */
  function ActiveOnly(cs: seq<Candidate>): (r: seq<Candidate>)
    ensures forall c :: c in r <==> c in cs && c.u.isActive
    ensures multiset(r) <= multiset(cs)
    decreases |cs|
  {
    if cs == [] then []
    else
      var rest := ActiveOnly(cs[1..]);
      assert cs == [cs[0]] + cs[1..];
      if cs[0].u.isActive then [cs[0]] + rest else rest
  }

  /** Every member of the ranking of the active candidates is an active candidate of the input. */
  lemma RankedAreActive(cs: seq<Candidate>, i: int)
    requires 0 <= i < |Rank(ActiveOnly(cs))|
    ensures Rank(ActiveOnly(cs))[i] in cs && Rank(ActiveOnly(cs))[i].u.isActive
  {
    RankSortsAndPermutes(ActiveOnly(cs));
    assert Rank(ActiveOnly(cs))[i] in multiset(ActiveOnly(cs));
  }
}
