/**
 The order of keys in stable text, said by code units and by numbers: array indices first, in ascending order, then the
 other keys as section 3.2.3 of RFC 8785 sorts them, by UTF-16 code unit; and what printed text looks like unit by unit.
 */
module JsonOrder {
  import opened JsonText
  import opened JsonCanonical

  // ---------------------------------------------------------------- code units

  /** `a` is a proper prefix of `b`, or has the smaller code unit at the first place where they differ. */
  ghost predicate UnitsBefore(a: Text, b: Text) {
    (|a| < |b| && a == b[..|a|]) || exists n: nat :: DifferFirst(a, b, n) && a[n] < b[n]
  }

  predicate DifferFirst(a: Text, b: Text, n: nat)
    ensures DifferFirst(a, b, n) ==> n < |a| && n < |b|
  {
    n < |a| && n < |b| && a[..n] == b[..n] && a[n] != b[n]
  }

  lemma {:induction false} LessMeans(a: Text, b: Text)
    ensures Less(a, b) <==> UnitsBefore(a, b)
    decreases |a|
  {
    if a == [] {
      assert b != [] ==> a == b[..0];
    } else if b == [] {
    } else if a[0] != b[0] {
      assert a[..0] == b[..0] && DifferFirst(a, b, 0);
      forall n: nat ensures DifferFirst(a, b, n) ==> n == 0 { DifferAtOnce(a, b, n); }
      assert |a| < |b| ==> b[..|a|][0] == b[0];
    } else {
      LessMeans(a[1..], b[1..]);
      forall n: nat ensures DifferFirst(a, b, n + 1) <==> DifferFirst(a[1..], b[1..], n) { DifferLater(a, b, n); }
      assert !DifferFirst(a, b, 0);
      if n: nat :| DifferFirst(a, b, n) && a[n] < b[n] {
        assert DifferFirst(a[1..], b[1..], n - 1);
      }
      if n: nat :| DifferFirst(a[1..], b[1..], n) && a[1..][n] < b[1..][n] {
        assert DifferFirst(a, b, n + 1);
      }
      if |a| < |b| {
        assert b[..|a|] == [b[0]] + b[1..][..|a| - 1] && a == [a[0]] + a[1..];
        assert b[..|a|][1..] == b[1..][..|a| - 1];
      }
    }
  }

  lemma DifferAtOnce(a: Text, b: Text, n: nat)
    requires a != [] && b != [] && a[0] != b[0]
    ensures DifferFirst(a, b, n) ==> n == 0
  {
    if 0 < n < |a| && n < |b| {
      assert a[..n][0] == a[0] && b[..n][0] == b[0];
    }
  }

  lemma DifferLater(a: Text, b: Text, n: nat)
    requires a != [] && b != [] && a[0] == b[0]
    ensures DifferFirst(a, b, n + 1) <==> DifferFirst(a[1..], b[1..], n)
  {
    if n + 1 < |a| && n + 1 < |b| {
      assert a[..n + 1] == [a[0]] + a[1..][..n] && b[..n + 1] == [b[0]] + b[1..][..n];
      assert a[..n + 1][1..] == a[1..][..n] && b[..n + 1][1..] == b[1..][..n];
    }
  }

  // ---------------------------------------------------------------- numerals

  /** The decimal digits of a number, as units. */
  function Decimal(n: nat): (k: Text)
    ensures k != []
    decreases n
  {
    if n < 10 then [48 + n] else Decimal(n / 10) + [48 + n % 10]
  }

  function Pow10(n: nat): (p: nat)
    ensures p >= 1
  {
    if n == 0 then 1 else 10 * Pow10(n - 1)
  }

  predicate Digits(k: Text) {
    forall i :: 0 <= i < |k| ==> 48 <= k[i] <= 57
  }

  predicate Numeral(k: Text) {
    k != [] && Digits(k) && (k[0] == 48 ==> |k| == 1)
  }

  function ValueOf(k: Text): nat
    requires Digits(k)
  {
    if k == [] then 0 else (k[0] - 48) * Pow10(|k| - 1) + ValueOf(k[1..])
  }

  lemma {:induction false} ValueBound(k: Text)
    requires Digits(k)
    ensures ValueOf(k) < Pow10(|k|)
  {
    if k != [] {
      ValueBound(k[1..]);
      var p := Pow10(|k| - 1);
      ScaleUp(k[0] - 48, 9, p);
    }
  }

  lemma ScaleUp(a: int, b: int, p: nat)
    requires a <= b
    ensures a * p <= b * p
  {
  }

  lemma {:induction false} ValueAppend(k: Text, d: Unit)
    requires Digits(k) && 48 <= d <= 57
    ensures Digits(k + [d]) && ValueOf(k + [d]) == 10 * ValueOf(k) + (d - 48)
  {
    if k == [] {
      assert k + [d] == [d] && [d][1..] == [];
      assert ValueOf([d]) == (d - 48) * Pow10(0) + ValueOf([]);
    } else {
      ValueAppend(k[1..], d);
      assert (k + [d])[1..] == k[1..] + [d];
      var p := Pow10(|k| - 1);
      assert Pow10(|k|) == 10 * p;
      Regroup(k[0] - 48, p);
    }
  }

  lemma Regroup(a: int, p: int)
    ensures a * (10 * p) == 10 * (a * p)
  {
  }

  lemma {:induction false} DecimalIsNumeral(n: nat)
    ensures Numeral(Decimal(n)) && ValueOf(Decimal(n)) == n && (n > 0 ==> Decimal(n)[0] != 48)
  {
    if n < 10 {
      assert Decimal(n)[1..] == [];
      assert ValueOf(Decimal(n)) == n * Pow10(0) + ValueOf([]);
    } else {
      DecimalIsNumeral(n / 10);
      ValueAppend(Decimal(n / 10), 48 + n % 10);
    }
  }

  lemma HeadDecides(d: int, e: int, p: nat, x: nat, y: nat)
    requires d < e && x < p
    ensures d * p + x < e * p + y
  {
    ScaleUp(d + 1, e, p);
    assert (d + 1) * p == d * p + p;
  }

  lemma ValueUnfold(k: Text)
    requires Digits(k) && k != []
    ensures ValueOf(k) == (k[0] - 48) * Pow10(|k| - 1) + ValueOf(k[1..])
  {
  }

  lemma {:induction false} SameLengthOrder(a: Text, b: Text)
    requires |a| == |b| && Digits(a) && Digits(b)
    ensures Less(a, b) <==> ValueOf(a) < ValueOf(b)
    ensures a == b <==> ValueOf(a) == ValueOf(b)
  {
    if a != [] {
      hide Pow10, ValueOf;
      SameLengthOrder(a[1..], b[1..]);
      ValueUnfold(a);
      ValueUnfold(b);
      ValueBound(a[1..]);
      ValueBound(b[1..]);
      assert a == [a[0]] + a[1..] && b == [b[0]] + b[1..];
      var p, x, y := Pow10(|a| - 1), ValueOf(a[1..]), ValueOf(b[1..]);
      if a[0] < b[0] {
        HeadDecides(a[0] - 48, b[0] - 48, p, x, y);
      } else if b[0] < a[0] {
        HeadDecides(b[0] - 48, a[0] - 48, p, y, x);
      }
    }
  }

  lemma {:induction false} Pow10Grows(m: nat, n: nat)
    requires m <= n
    ensures Pow10(m) <= Pow10(n)
    decreases n
  {
    if m < n { Pow10Grows(m, n - 1); }
  }

  lemma LongerIsMore(a: Text, b: Text)
    requires Numeral(a) && Numeral(b) && |a| < |b|
    ensures ValueOf(a) < ValueOf(b)
  {
    ValueBound(a);
    Pow10Grows(|a|, |b| - 1);
    ScaleUp(1, b[0] - 48, Pow10(|b| - 1));
  }

  /** Numerals compare as their values. */
  lemma NumeralOrder(a: Text, b: Text)
    requires Numeral(a) && Numeral(b)
    ensures NumeralLess(a, b) <==> ValueOf(a) < ValueOf(b)
    ensures a == b <==> ValueOf(a) == ValueOf(b)
  {
    hide Less;
    if |a| == |b| {
      SameLengthOrder(a, b);
    } else if |a| < |b| {
      LongerIsMore(a, b);
    } else {
      LongerIsMore(b, a);
    }
  }

  lemma NumeralIsDecimal(k: Text)
    requires Numeral(k)
    ensures k == Decimal(ValueOf(k))
  {
    DecimalIsNumeral(ValueOf(k));
    NumeralOrder(k, Decimal(ValueOf(k)));
  }

  const LAST_INDEX := 4_294_967_294

  lemma MaxIndexValue()
    ensures Numeral(MAX_INDEX) && ValueOf(MAX_INDEX) == LAST_INDEX
  {
    assert Decimal(4) == [52] && Decimal(42) == Decimal(4) + [50] && Decimal(429) == Decimal(42) + [57];
    assert Decimal(4294) == Decimal(429) + [52] && Decimal(42949) == Decimal(4294) + [57];
    assert Decimal(429496) == Decimal(42949) + [54] && Decimal(4294967) == Decimal(429496) + [55];
    assert Decimal(42949672) == Decimal(4294967) + [50] && Decimal(429496729) == Decimal(42949672) + [57];
    assert Decimal(LAST_INDEX) == Decimal(429496729) + [52];
    assert Decimal(LAST_INDEX) == MAX_INDEX;
    DecimalIsNumeral(LAST_INDEX);
  }

  /** The key is the decimal text of an array index. */
  predicate IndexText(k: Text, n: nat) {
    n <= 4_294_967_294 && k == Decimal(n)
  }

  /** The keys that count as array indices are the decimal texts of the numbers from 0 to 2^32 - 2. */
  lemma IndexMeans(k: Text)
    ensures IsArrayIndex(k) <==> exists n: nat :: IndexText(k, n)
  {
    hide Less, Decimal;
    MaxIndexValue();
    if Numeral(k) {
      NumeralIsDecimal(k);
      assert IndexText(k, ValueOf(k)) <==> ValueOf(k) <= LAST_INDEX;
      if |k| == 10 {
        SameLengthOrder(MAX_INDEX, k);
      } else if |k| < 10 {
        LongerIsMore(k, MAX_INDEX);
      } else {
        LongerIsMore(MAX_INDEX, k);
      }
    }
    forall n: nat | IndexText(k, n) ensures Numeral(k) && ValueOf(k) == n {
      DecimalIsNumeral(n);
    }
  }

  // ---------------------------------------------------------------- keys of sorted objects

  function KeyList(ms: Members): seq<Text> {
    match ms
    case NoMembers => []
    case Member(k, _, rest) => [k] + KeyList(rest)
  }

  lemma {:induction false} KeyListKeys(ms: Members)
    ensures forall k :: k in KeyList(ms) <==> k in Keys(ms)
  {
    if ms.Member? { KeyListKeys(ms.rest); }
  }

  lemma {:induction false} OrderedKeys(ms: Members, i: nat, j: nat)
    requires InOrder(ms) && i < j < |KeyList(ms)|
    ensures Before(KeyList(ms)[i], KeyList(ms)[j])
  {
    hide Before;
    if i == 0 {
      BeforeAllKeys(ms.key, ms.rest);
      KeyListKeys(ms.rest);
      assert KeyList(ms)[j] == KeyList(ms.rest)[j - 1];
    } else {
      OrderedKeys(ms.rest, i - 1, j - 1);
    }
  }

  lemma IndexOrder(a: Text, m: nat, b: Text, n: nat)
    requires IndexText(a, m) && IndexText(b, n)
    ensures NumeralLess(a, b) <==> m < n
  {
    hide Less, NumeralLess, Decimal;
    DecimalIsNumeral(m);
    DecimalIsNumeral(n);
    NumeralOrder(a, b);
  }

  /** Which of two keys comes first, said by numbers and code units. */
  lemma BeforeMeans(a: Text, b: Text)
    requires Before(a, b)
    ensures a != b
    ensures forall n: nat :: IndexText(b, n) ==> exists m: nat :: m < n && IndexText(a, m)
    ensures (forall n: nat :: !IndexText(a, n)) ==> UnitsBefore(a, b)
  {
    hide Less, IsArrayIndex, NumeralLess, IndexText, UnitsBefore;
    BeforeStrict(a, b);
    IndexMeans(a);
    IndexMeans(b);
    LessMeans(a, b);
    forall n: nat | IndexText(b, n)
      ensures exists m: nat :: m < n && IndexText(a, m)
    {
      var m: nat :| IndexText(a, m);
      IndexOrder(a, m, b, n);
    }
  }

  /**
   The keys of a sorted object: those of the object, `__proto__` aside, each once; array indices before all others and in
   ascending order of their numbers; and the others ascending by code unit.
   */
  lemma SortedKeys(ms: Members, i: nat, j: nat)
    requires IsJs(Obj(ms)) && SortJson(Obj(ms)).Obj? && i < j < |KeyList(SortJson(Obj(ms)).members)|
    ensures
      var keys := KeyList(SortJson(Obj(ms)).members);
      && (forall k :: k in keys <==> k in KeyList(ms) && k != PROTO)
      && keys[i] != keys[j]
      && (forall n: nat :: IndexText(keys[j], n) ==> exists m: nat :: m < n && IndexText(keys[i], m))
      && ((forall n: nat :: !IndexText(keys[i], n)) ==> UnitsBefore(keys[i], keys[j]))
  {
    hide IndexText, SortJson, IsJs, Before, UnitsBefore, InOrder, KeyList, Keys;
    var sorted := SortJson(Obj(ms)).members;
    SortedParts(ms);
    KeyListKeys(sorted);
    KeyListKeys(ms);
    OrderedKeys(sorted, i, j);
    BeforeMeans(KeyList(sorted)[i], KeyList(sorted)[j]);
  }

  lemma SortedIsObject(ms: Members)
    ensures SortJson(Obj(ms)).Obj?
  {
  }

  lemma SortedParts(ms: Members)
    requires IsJs(Obj(ms))
    ensures SortJson(Obj(ms)).Obj?
    ensures InOrder(SortJson(Obj(ms)).members) && Keys(SortJson(Obj(ms)).members) == Keys(ms) - {PROTO}
  {
    hide SortJson, IsJs, InOrder;
    SortedIsObject(ms);
    SortJsonMeans(Obj(ms));
    var sorted := SortJson(Obj(ms)).members;
    assert RecordOf(sorted, {}) == RecordOf(ms, {PROTO});
    assert RecordOf(sorted, {}).Keys == Keys(sorted) - {};
  }

  // ---------------------------------------------------------------- text

  /** `{"b":2,"a":1}` has the stable text `{"a":1,"b":2}`. */
  lemma StableExample()
    ensures StableJson(Obj(Member([98], Num([50]), Member([97], Num([49]), NoMembers))))
      == [123, 34, 97, 34, 58, 49, 44, 34, 98, 34, 58, 50, 125]
  {
    var one, two := Member([97], Num([49]), NoMembers), Member([98], Num([50]), NoMembers);
    var ms := Member([98], Num([50]), one);
    assert SortValues(one) == one;
    assert SortValues(ms) == ms;
    assert SortKeys(one) == one;
    assert !Less([98], [97]) && SortKeys(ms) == Member([97], Num([49]), Insert([98], Num([50]), NoMembers));
    var sorted := Member([97], Num([49]), two);
    assert SortKeys(ms) == sorted;
    assert !IsArrayIndex([97]) && !IsArrayIndex([98]);
    assert Put(NoMembers, [97], Num([49])) == one;
    assert Put(one, [98], Num([50])) == sorted;
    assert Assemble(sorted, NoMembers) == sorted;
    assert Assemble(one, two) == sorted;
    assert Assemble(NoMembers, sorted) == sorted;
    QuotedLetter(97);
    QuotedLetter(98);
    assert Print(Num([49])) == [49] && Print(Num([50])) == [50];
    assert PrintMembers(two) == Quoted([98]) + [COLON] + [50];
    assert PrintMembers(sorted) == Quoted([97]) + [COLON] + [49] + [COMMA] + PrintMembers(two);
  }

  lemma QuotedLetter(u: Unit)
    requires 97 <= u <= 122
    ensures Quoted([u]) == [34, u, 34]
  {
    assert [u][1..] == [] && Escaped([]) == [];
    assert Escaped([u]) == [u] + Escaped([u][1..]);
  }
}
