/**
 `sortJson` and `stableJson`: the text that configuration and proof digests are taken over.

 What a value means, order of object keys aside, is a tree of maps. The stable text of two
 values is the same exactly when they mean the same once every `__proto__` member is left out:
 `sortJson` rebuilds objects by assignment, and assigning to `__proto__` adds no member.
 */
module JsonCanonical {
  import opened JsonText

  const PROTO: Text := [95, 95, 112, 114, 111, 116, 111, 95, 95]  // __proto__

  // ---------------------------------------------------------------- sortJson

  function SortJson(v: Value): Value {
    match v
    case Arr(items) => Arr(SortItems(items))
    case Obj(ms) => Obj(Assemble(NoMembers, SortKeys(SortValues(ms))))
    case _ => v
  }

  function SortItems(items: Items): Items {
    match items
    case NoItems => NoItems
    case Item(v, others) => Item(SortJson(v), SortItems(others))
  }

  function SortValues(ms: Members): Members {
    match ms
    case NoMembers => NoMembers
    case Member(k, v, rest) => Member(k, SortJson(v), SortValues(rest))
  }

  /** `Object.keys(value).sort()`, each key with its value. */
  function SortKeys(ms: Members): Members {
    match ms
    case NoMembers => NoMembers
    case Member(k, v, rest) => Insert(k, v, SortKeys(rest))
  }

  function Insert(k: Text, v: Value, ms: Members): Members {
    if ms.NoMembers? || Less(k, ms.key) then Member(k, v, ms) else Member(ms.key, ms.value, Insert(k, v, ms.rest))
  }

  /** The `reduce` over the sorted keys: `acc[key] = ...` for each. */
  function Assemble(acc: Members, ms: Members): Members
    decreases ms
  {
    match ms
    case NoMembers => acc
    case Member(k, v, rest) => Assemble(if k == PROTO then acc else Put(acc, k, v), rest)
  }

  function StableJson(v: Value): Text {
    Print(SortJson(v))
  }

  // ---------------------------------------------------------------- meaning

  datatype Meaning = Atom(v: Value) | List(items: seq<Meaning>) | Record(members: map<Text, Meaning>)

  /** What a value says, key order aside, with the members named in `hidden` left out at every depth. */
  function MeaningOf(v: Value, hidden: set<Text>): Meaning {
    match v
    case Arr(items) => List(ItemsMeaning(items, hidden))
    case Obj(ms) => Record(RecordOf(ms, hidden))
    case _ => Atom(v)
  }

  function ItemsMeaning(items: Items, hidden: set<Text>): seq<Meaning> {
    match items
    case NoItems => []
    case Item(v, others) => [MeaningOf(v, hidden)] + ItemsMeaning(others, hidden)
  }

  function RecordOf(ms: Members, hidden: set<Text>): (r: map<Text, Meaning>)
    ensures r.Keys == Keys(ms) - hidden
  {
    match ms
    case NoMembers => map[]
    case Member(k, v, rest) =>
      if k in hidden then RecordOf(rest, hidden) else RecordOf(rest, hidden)[k := MeaningOf(v, hidden)]
  }

  function Keys(ms: Members): set<Text> {
    if ms.NoMembers? then {} else {ms.key} + Keys(ms.rest)
  }

  predicate Distinct(ms: Members) {
    ms.Member? ==> ms.key !in Keys(ms.rest) && Distinct(ms.rest)
  }

  lemma {:induction false} OwnOrderDistinct(ms: Members)
    requires OwnOrder(ms)
    ensures Distinct(ms)
  {
    if ms.Member? {
      OwnOrderDistinct(ms.rest);
      PrecedesFresh(ms.key, ms.rest);
    }
  }

  lemma {:induction false} PrecedesFresh(k: Text, ms: Members)
    requires PrecedesAll(k, ms)
    ensures k !in Keys(ms)
  {
    if ms.Member? { PrecedesFresh(k, ms.rest); }
  }

  predicate NoProto(v: Value) {
    match v
    case Arr(items) => ItemsNoProto(items)
    case Obj(ms) => MembersNoProto(ms)
    case _ => true
  }

  predicate ItemsNoProto(items: Items) {
    items.Item? ==> NoProto(items.first) && ItemsNoProto(items.others)
  }

  predicate MembersNoProto(ms: Members) {
    ms.Member? ==> ms.key != PROTO && NoProto(ms.value) && MembersNoProto(ms.rest)
  }

  // ---------------------------------------------------------------- canonical order

  /** The order an object ends up in when its keys were added in sorted order. */
  predicate Before(a: Text, b: Text) {
    if IsArrayIndex(b) then IsArrayIndex(a) && NumeralLess(a, b) else IsArrayIndex(a) || Less(a, b)
  }

  lemma BeforeStrict(a: Text, b: Text)
    ensures !(Before(a, b) && Before(b, a))
    ensures Before(a, b) ==> MayPrecede(a, b)
  {
    LessTotal(a, b);
    LessTotal(a, a);
  }

  lemma BeforeTransitive(a: Text, b: Text, c: Text)
    requires Before(a, b) && Before(b, c)
    ensures Before(a, c)
  {
    if Less(a, b) && Less(b, c) {
      LessTransitive(a, b, c);
    }
  }

  predicate BeforeAll(k: Text, ms: Members) {
    ms.Member? ==> Before(k, ms.key) && BeforeAll(k, ms.rest)
  }

  predicate InOrder(ms: Members) {
    ms.Member? ==> BeforeAll(ms.key, ms.rest) && InOrder(ms.rest)
  }

  predicate Canonical(v: Value) {
    match v
    case Num(lexeme) => IsNumber(lexeme)
    case Arr(items) => ItemsCanonical(items)
    case Obj(ms) => InOrder(ms) && PROTO !in Keys(ms) && ValuesCanonical(ms)
    case _ => true
  }

  predicate ItemsCanonical(items: Items) {
    items.Item? ==> Canonical(items.first) && ItemsCanonical(items.others)
  }

  predicate ValuesCanonical(ms: Members) {
    ms.Member? ==> Canonical(ms.value) && ValuesCanonical(ms.rest)
  }

  lemma {:induction false} BeforeAllKeys(k: Text, ms: Members)
    ensures BeforeAll(k, ms) <==> forall k' :: k' in Keys(ms) ==> Before(k, k')
  {
    if ms.Member? { BeforeAllKeys(k, ms.rest); }
  }

  lemma {:induction false} CanonicalIsJs(v: Value)
    requires Canonical(v)
    ensures IsJs(v) && NoProto(v)
    decreases v
  {
    match v
    case Arr(items) => CanonicalItemsJs(items);
    case Obj(ms) => CanonicalMembersJs(ms);
    case _ =>
  }

  lemma {:induction false} CanonicalItemsJs(items: Items)
    requires ItemsCanonical(items)
    ensures ItemsJs(items) && ItemsNoProto(items)
    decreases items
  {
    if items.Item? {
      CanonicalIsJs(items.first);
      CanonicalItemsJs(items.others);
    }
  }

  lemma {:induction false} CanonicalMembersJs(ms: Members)
    requires InOrder(ms) && PROTO !in Keys(ms) && ValuesCanonical(ms)
    ensures OwnOrder(ms) && MembersJs(ms) && MembersNoProto(ms)
    decreases ms
  {
    if ms.Member? {
      CanonicalIsJs(ms.value);
      CanonicalMembersJs(ms.rest);
      BeforeAllPrecedes(ms.key, ms.rest);
    }
  }

  lemma {:induction false} BeforeAllPrecedes(k: Text, ms: Members)
    requires BeforeAll(k, ms)
    ensures PrecedesAll(k, ms)
  {
    if ms.Member? {
      BeforeStrict(k, ms.key);
      BeforeAllPrecedes(k, ms.rest);
    }
  }

  // ---------------------------------------------------------------- sortJson is canonical

  predicate LexSorted(ms: Members) {
    ms.Member? ==> (forall k :: k in Keys(ms.rest) ==> Less(ms.key, k)) && LexSorted(ms.rest)
  }

  lemma {:induction false} InsertSorted(k: Text, v: Value, ms: Members)
    requires LexSorted(ms) && k !in Keys(ms) && ValuesCanonical(ms) && Canonical(v)
    ensures LexSorted(Insert(k, v, ms)) && Keys(Insert(k, v, ms)) == {k} + Keys(ms)
    ensures ValuesCanonical(Insert(k, v, ms))
    ensures RecordOf(Insert(k, v, ms), {}) == RecordOf(Member(k, v, ms), {})
  {
    hide Less, Canonical;
    if ms.Member? {
      LessTotal(k, ms.key);
      if Less(k, ms.key) {
        forall k' | k' in Keys(ms.rest) ensures Less(k, k') {
          LessTransitive(k, ms.key, k');
        }
      } else {
        InsertSorted(k, v, ms.rest);
      }
    }
  }

  lemma {:induction false} SortKeysSorts(ms: Members)
    requires Distinct(ms) && ValuesCanonical(ms)
    ensures LexSorted(SortKeys(ms)) && Keys(SortKeys(ms)) == Keys(ms)
    ensures ValuesCanonical(SortKeys(ms))
    ensures RecordOf(SortKeys(ms), {}) == RecordOf(ms, {})
  {
    hide Canonical;
    if ms.Member? {
      SortKeysSorts(ms.rest);
      InsertSorted(ms.key, ms.value, SortKeys(ms.rest));
    }
  }

  /** Where `Put` places a new key relative to an old one. */
  lemma PutBefore(k: Text, k0: Text)
    requires k != k0
    requires !IsArrayIndex(k0) ==> Less(k0, k)
    ensures if IsArrayIndex(k) && !(IsArrayIndex(k0) && NumeralLess(k0, k)) then Before(k, k0) else Before(k0, k)
  {
    LessTotal(k, k0);
  }

  lemma {:induction false} PutInOrder(ms: Members, k: Text, v: Value)
    requires InOrder(ms) && k !in Keys(ms)
    requires forall k' :: k' in Keys(ms) && !IsArrayIndex(k') ==> Less(k', k)
    ensures InOrder(Put(ms, k, v)) && Keys(Put(ms, k, v)) == {k} + Keys(ms)
  {
    hide Less, NumeralLess, IsArrayIndex, Before;
    if ms.Member? {
      var k0 := ms.key;
      PutBefore(k, k0);
      BeforeAllKeys(k0, ms.rest);
      if Before(k, k0) {
        forall k' | k' in Keys(ms.rest) ensures Before(k, k') {
          BeforeTransitive(k, k0, k');
        }
        BeforeAllKeys(k, ms);
        BeforeStrict(k, k0);
      } else {
        PutInOrder(ms.rest, k, v);
        BeforeAllKeys(k0, Put(ms.rest, k, v));
      }
    }
  }

  lemma {:induction false} PutKeys(ms: Members, k: Text, v: Value)
    requires k !in Keys(ms) && ValuesCanonical(ms) && Canonical(v)
    ensures ValuesCanonical(Put(ms, k, v)) && Keys(Put(ms, k, v)) == {k} + Keys(ms)
  {
    hide IsArrayIndex, NumeralLess, Canonical;
    if ms.Member? { PutKeys(ms.rest, k, v); }
  }

  lemma {:induction false} PutRecord(ms: Members, k: Text, v: Value)
    requires k !in Keys(ms) && ValuesCanonical(ms) && Canonical(v)
    ensures ValuesCanonical(Put(ms, k, v)) && Keys(Put(ms, k, v)) == {k} + Keys(ms)
    ensures RecordOf(Put(ms, k, v), {}) == RecordOf(ms, {})[k := MeaningOf(v, {})]
  {
    hide IsArrayIndex, NumeralLess, Canonical, MeaningOf;
    PutKeys(ms, k, v);
    if ms.Member? { PutRecord(ms.rest, k, v); }
  }

  lemma {:induction false} AssembleInOrder(acc: Members, ms: Members)
    requires InOrder(acc) && PROTO !in Keys(acc) && LexSorted(ms)
    requires forall a, b :: a in Keys(acc) && b in Keys(ms) ==> Less(a, b)
    ensures InOrder(Assemble(acc, ms)) && PROTO !in Keys(Assemble(acc, ms))
    decreases ms
  {
    hide Less, Put, InOrder;
    if ms.Member? {
      var k, v := ms.key, ms.value;
      if k == PROTO {
        AssembleInOrder(acc, ms.rest);
      } else {
        LessTotal(k, k);
        PutInOrder(acc, k, v);
        AssembleInOrder(Put(acc, k, v), ms.rest);
      }
    }
  }

  lemma {:induction false} AssembleRecord(acc: Members, ms: Members)
    requires Distinct(ms) && Keys(acc) !! Keys(ms) && ValuesCanonical(acc) && ValuesCanonical(ms)
    ensures ValuesCanonical(Assemble(acc, ms))
    ensures RecordOf(Assemble(acc, ms), {}) == RecordOf(acc, {}) + (RecordOf(ms, {}) - {PROTO})
    decreases ms
  {
    hide Put, Canonical, MeaningOf;
    if ms.Member? {
      var k, v := ms.key, ms.value;
      if k == PROTO {
        AssembleRecord(acc, ms.rest);
        assert RecordOf(ms, {}) - {PROTO} == RecordOf(ms.rest, {}) - {PROTO};
      } else {
        PutRecord(acc, k, v);
        AssembleRecord(Put(acc, k, v), ms.rest);
        MoveMember(RecordOf(acc, {}), RecordOf(ms.rest, {}), k, MeaningOf(v, {}));
      }
    }
  }

  lemma MoveMember(a: map<Text, Meaning>, b: map<Text, Meaning>, k: Text, m: Meaning)
    requires k != PROTO && k !in b
    ensures a[k := m] + (b - {PROTO}) == a + (b[k := m] - {PROTO})
  {
  }

  lemma {:induction false} LexSortedDistinct(ms: Members)
    requires LexSorted(ms)
    ensures Distinct(ms)
  {
    if ms.Member? {
      LexSortedDistinct(ms.rest);
      LessTotal(ms.key, ms.key);
    }
  }

  lemma {:induction false} SortJsonMeans(v: Value)
    requires IsJs(v)
    ensures Canonical(SortJson(v))
    ensures MeaningOf(SortJson(v), {}) == MeaningOf(v, {PROTO})
    decreases v
  {
    hide Assemble, SortKeys, OwnOrder, Distinct, InOrder, RecordOf, SortValues, SameKeys;
    match v
    case Arr(items) => SortItemsMeans(items);
    case Obj(ms) =>
      SortValuesMeans(ms);
      OwnOrderDistinct(ms);
      DistinctKeys(ms, SortValues(ms));
      SortedObject(SortValues(ms));
    case _ =>
  }

  /** Sorting and re-adding members with sorted values gives a canonical object of the same record. */
  lemma SortedObject(ms: Members)
    requires Distinct(ms) && ValuesCanonical(ms)
    ensures
      var sorted := Assemble(NoMembers, SortKeys(ms));
      Canonical(Obj(sorted)) && RecordOf(sorted, {}) == RecordOf(ms, {}) - {PROTO}
  {
    hide SortKeys, Assemble, LexSorted, Distinct;
    SortKeysSorts(ms);
    LexSortedDistinct(SortKeys(ms));
    AssembleInOrder(NoMembers, SortKeys(ms));
    AssembleRecord(NoMembers, SortKeys(ms));
  }

  lemma {:induction false} SortItemsMeans(items: Items)
    requires ItemsJs(items)
    ensures ItemsCanonical(SortItems(items))
    ensures ItemsMeaning(SortItems(items), {}) == ItemsMeaning(items, {PROTO})
    decreases items
  {
    if items.Item? {
      SortJsonMeans(items.first);
      SortItemsMeans(items.others);
    }
  }

  predicate SameKeys(a: Members, b: Members) {
    if a.NoMembers? then b.NoMembers? else b.Member? && a.key == b.key && SameKeys(a.rest, b.rest)
  }

  lemma {:induction false} DistinctKeys(a: Members, b: Members)
    requires SameKeys(a, b) && Distinct(a)
    ensures Keys(a) == Keys(b) && Distinct(b)
  {
    if a.Member? { DistinctKeys(a.rest, b.rest); }
  }

  lemma {:induction false} SortValuesMeans(ms: Members)
    requires MembersJs(ms)
    ensures ValuesCanonical(SortValues(ms)) && SameKeys(ms, SortValues(ms))
    ensures RecordOf(SortValues(ms), {}) - {PROTO} == RecordOf(ms, {PROTO})
    decreases ms
  {
    if ms.Member? {
      SortJsonMeans(ms.value);
      SortValuesMeans(ms.rest);
    }
  }

  // ---------------------------------------------------------------- canonical values are unique

  lemma {:induction false} CanonicalUnique(a: Value, b: Value)
    requires Canonical(a) && Canonical(b)
    requires MeaningOf(a, {}) == MeaningOf(b, {})
    ensures a == b
    decreases a
  {
    match a
    case Arr(items) => CanonicalItemsUnique(items, b.items);
    case Obj(ms) => CanonicalMembersUnique(ms, b.members);
    case _ =>
  }

  lemma {:induction false} CanonicalItemsUnique(a: Items, b: Items)
    requires ItemsCanonical(a) && ItemsCanonical(b)
    requires ItemsMeaning(a, {}) == ItemsMeaning(b, {})
    ensures a == b
    decreases a
  {
    if a.Item? && b.Item? {
      var ma, mb := ItemsMeaning(a, {}), ItemsMeaning(b, {});
      assert ma[0] == mb[0] && ma[1..] == mb[1..];
      CanonicalUnique(a.first, b.first);
      CanonicalItemsUnique(a.others, b.others);
    }
  }

  lemma {:induction false} CanonicalMembersUnique(a: Members, b: Members)
    requires InOrder(a) && InOrder(b) && ValuesCanonical(a) && ValuesCanonical(b)
    requires RecordOf(a, {}) == RecordOf(b, {})
    ensures a == b
    decreases a
  {
    hide Before, Canonical, MeaningOf;
    var r := RecordOf(a, {});
    assert Keys(a) == r.Keys == Keys(b);
    if a.Member? {
      assert a.key in Keys(b);
      BeforeAllKeys(a.key, a.rest);
      BeforeAllKeys(b.key, b.rest);
      BeforeStrict(a.key, b.key);
      BeforeStrict(a.key, a.key);
      BeforeStrict(b.key, b.key);
      assert b.key in Keys(a);
      assert a.key == b.key;
      assert r[a.key] == MeaningOf(a.value, {}) == MeaningOf(b.value, {});
      CanonicalUnique(a.value, b.value);
      BeforeAllPrecedes(a.key, a.rest);
      BeforeAllPrecedes(b.key, b.rest);
      PrecedesFresh(a.key, a.rest);
      PrecedesFresh(b.key, b.rest);
      assert RecordOf(a.rest, {}) == r - {a.key} == RecordOf(b.rest, {});
      CanonicalMembersUnique(a.rest, b.rest);
    }
  }

  // ---------------------------------------------------------------- theorems

  /** Equal stable texts are exactly equal meanings, key order and `__proto__` members aside. */
  lemma StableJsonCanonical(a: Value, b: Value)
    requires IsJs(a) && IsJs(b)
    ensures StableJson(a) == StableJson(b) <==> MeaningOf(a, {PROTO}) == MeaningOf(b, {PROTO})
  {
    SortJsonMeans(a);
    SortJsonMeans(b);
    CanonicalIsJs(SortJson(a));
    CanonicalIsJs(SortJson(b));
    if StableJson(a) == StableJson(b) {
      PrintInjective(SortJson(a), SortJson(b));
    }
    if MeaningOf(a, {PROTO}) == MeaningOf(b, {PROTO}) {
      CanonicalUnique(SortJson(a), SortJson(b));
    }
  }

  lemma {:induction false} NoProtoMeans(v: Value)
    requires NoProto(v)
    ensures MeaningOf(v, {PROTO}) == MeaningOf(v, {})
    decreases v
  {
    match v
    case Arr(items) => NoProtoItems(items);
    case Obj(ms) => NoProtoMembers(ms);
    case _ =>
  }

  lemma {:induction false} NoProtoItems(items: Items)
    requires ItemsNoProto(items)
    ensures ItemsMeaning(items, {PROTO}) == ItemsMeaning(items, {})
    decreases items
  {
    if items.Item? {
      NoProtoMeans(items.first);
      NoProtoItems(items.others);
    }
  }

  lemma {:induction false} NoProtoMembers(ms: Members)
    requires MembersNoProto(ms)
    ensures RecordOf(ms, {PROTO}) == RecordOf(ms, {})
    decreases ms
  {
    if ms.Member? {
      NoProtoMeans(ms.value);
      NoProtoMembers(ms.rest);
    }
  }

  /** Without `__proto__` keys the stable text identifies the value up to key order at every depth. */
  lemma StableJsonIdentifies(a: Value, b: Value)
    requires IsJs(a) && IsJs(b) && NoProto(a) && NoProto(b)
    ensures StableJson(a) == StableJson(b) <==> MeaningOf(a, {}) == MeaningOf(b, {})
  {
    StableJsonCanonical(a, b);
    NoProtoMeans(a);
    NoProtoMeans(b);
  }

  /** Two different objects that `stableJson` cannot tell apart: one has a `__proto__` member. */
  lemma ProtoCollision()
    ensures var with := Obj(Member(PROTO, Null, NoMembers));
      && IsJs(with) && IsJs(Obj(NoMembers))
      && MeaningOf(with, {}) != MeaningOf(Obj(NoMembers), {})
      && StableJson(with) == StableJson(Obj(NoMembers))
  {
    var with := Obj(Member(PROTO, Null, NoMembers));
    assert SortKeys(Member(PROTO, Null, NoMembers)) == Member(PROTO, Null, NoMembers);
    assert SortJson(with) == Obj(NoMembers);
    assert PROTO in RecordOf(with.members, {});
  }

  /** Sorting a sorted value changes nothing. */
  lemma SortJsonIdempotent(v: Value)
    requires IsJs(v)
    ensures SortJson(SortJson(v)) == SortJson(v)
  {
    SortJsonMeans(v);
    CanonicalIsJs(SortJson(v));
    SortJsonMeans(SortJson(v));
    NoProtoMeans(SortJson(v));
    CanonicalUnique(SortJson(SortJson(v)), SortJson(v));
  }
}
