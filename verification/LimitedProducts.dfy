/** Interning the cards of a limited product: one pool entry per identity, and weighted references to it. */
module LimitedProducts {

  const MAX_ENCODED_PRODUCT_BYTES: nat := 800 * 1024

  datatype Card = Card(name: string, setCode: string, collectorNumber: string, typeLine: string, rarity: string,
                       finish: string, weight: nat)

  datatype Sheet = Sheet(name: string, withReplacement: bool, cards: seq<Card>)

  datatype Ref = Ref(cardIndex: nat, weight: nat)

  datatype CompactSheet = CompactSheet(name: string, withReplacement: bool, cardRefs: seq<Ref>)

  /** `header` stands for the product's other keys, which interning leaves alone. */
  datatype Product = Full(header: string, sheets: seq<Sheet>)
                   | Compact(header: string, compactSheets: seq<CompactSheet>, cardPool: seq<Card>)

  function Identity(c: Card): Card {
    c.(weight := 1)
  }

  // ---- what interning computes -----------------------------------------------------------------

  function IdentitiesOf(cards: seq<Card>): (r: seq<Card>)
    ensures |r| == |cards| && forall i | 0 <= i < |cards| :: r[i] == Identity(cards[i])
  {
    seq(|cards|, i requires 0 <= i < |cards| => Identity(cards[i]))
  }

  function Identities(sheets: seq<Sheet>): seq<Card> {
    if sheets == [] then [] else Identities(sheets[..|sheets| - 1]) + IdentitiesOf(sheets[|sheets| - 1].cards)
  }

  /** The distinct elements in the order of their first appearance. */
  function Firsts(s: seq<Card>): seq<Card> {
    if s == [] then []
    else var f := Firsts(s[..|s| - 1]); if s[|s| - 1] in f then f else f + [s[|s| - 1]]
  }

  function At(pool: seq<Card>, c: Card): (i: nat)
    requires c in pool
    ensures i < |pool| && pool[i] == c
  {
    if pool[0] == c then 0 else 1 + At(pool[1..], c)
  }

  predicate Pooled(pool: seq<Card>, cards: seq<Card>) {
    forall i | 0 <= i < |cards| :: Identity(cards[i]) in pool
  }

  function RefsTo(pool: seq<Card>, cards: seq<Card>): (r: seq<Ref>)
    requires Pooled(pool, cards)
    ensures |r| == |cards| && forall i | 0 <= i < |cards| ::
              r[i] == Ref(At(pool, Identity(cards[i])) + 1, cards[i].weight)
  {
    seq(|cards|, i requires 0 <= i < |cards| => Ref(At(pool, Identity(cards[i])) + 1, cards[i].weight))
  }

  predicate AllPooled(pool: seq<Card>, sheets: seq<Sheet>) {
    forall i | 0 <= i < |sheets| :: Pooled(pool, sheets[i].cards)
  }

  function SheetsTo(pool: seq<Card>, sheets: seq<Sheet>): (r: seq<CompactSheet>)
    requires AllPooled(pool, sheets)
    ensures |r| == |sheets|
    ensures forall i | 0 <= i < |sheets| ::
              r[i] == CompactSheet(sheets[i].name, sheets[i].withReplacement, RefsTo(pool, sheets[i].cards))
  {
    seq(|sheets|, i requires 0 <= i < |sheets| =>
          CompactSheet(sheets[i].name, sheets[i].withReplacement, RefsTo(pool, sheets[i].cards)))
  }

  function Interned(p: Product): Product
    requires p.Full?
  {
    var pool := Firsts(Identities(p.sheets));
    FirstsPool(p.sheets);
    Compact(p.header, SheetsTo(pool, p.sheets), pool)
  }

  lemma {:induction false} FirstsKeep(s: seq<Card>)
    ensures forall c :: c in s <==> c in Firsts(s)
    ensures forall i, j | 0 <= i < j < |Firsts(s)| :: Firsts(s)[i] != Firsts(s)[j]
  {
    if s != [] {
      FirstsKeep(s[..|s| - 1]);
      assert s == s[..|s| - 1] + [s[|s| - 1]];
    }
  }

  lemma {:induction false} FirstsPool(sheets: seq<Sheet>)
    ensures AllPooled(Firsts(Identities(sheets)), sheets)
  {
    FirstsKeep(Identities(sheets));
    IdentitiesHold(sheets);
  }

  lemma {:induction false} IdentitiesHold(sheets: seq<Sheet>)
    ensures forall i, j | 0 <= i < |sheets| && 0 <= j < |sheets[i].cards| ::
              Identity(sheets[i].cards[j]) in Identities(sheets)
    ensures forall c | c in Identities(sheets) :: UsedIn(sheets, c)
  {
    if sheets != [] {
      var before, last := sheets[..|sheets| - 1], sheets[|sheets| - 1];
      IdentitiesHold(before);
      assert forall j | 0 <= j < |last.cards| :: Identity(last.cards[j]) == IdentitiesOf(last.cards)[j];
      forall c | c in Identities(sheets)
        ensures UsedIn(sheets, c)
      {
        if c in Identities(before) {
          var i, j :| 0 <= i < |before| && 0 <= j < |before[i].cards| && Identity(before[i].cards[j]) == c;
          assert Identity(sheets[i].cards[j]) == c;
        } else {
          var j :| 0 <= j < |last.cards| && IdentitiesOf(last.cards)[j] == c;
          assert Identity(sheets[|sheets| - 1].cards[j]) == c;
        }
      }
    }
  }

  ghost predicate UsedIn(sheets: seq<Sheet>, c: Card) {
    exists i, j :: 0 <= i < |sheets| && 0 <= j < |sheets[i].cards| && Identity(sheets[i].cards[j]) == c
  }

  // ---- reading it back -------------------------------------------------------------------------

  predicate InRange(refs: seq<Ref>, pool: seq<Card>) {
    forall i | 0 <= i < |refs| :: 1 <= refs[i].cardIndex <= |pool|
  }

  function CardsFrom(refs: seq<Ref>, pool: seq<Card>): (r: seq<Card>)
    requires InRange(refs, pool)
    ensures |r| == |refs| && forall i | 0 <= i < |refs| ::
              r[i] == pool[refs[i].cardIndex - 1].(weight := refs[i].weight)
  {
    seq(|refs|, i requires 0 <= i < |refs| => pool[refs[i].cardIndex - 1].(weight := refs[i].weight))
  }

  predicate Readable(p: Product) {
    p.Compact? ==> forall i | 0 <= i < |p.compactSheets| :: InRange(p.compactSheets[i].cardRefs, p.cardPool)
  }

  /** The product with every reference replaced by its pool entry and the reference's weight. */
  function Expanded(p: Product): Product
    requires Readable(p)
  {
    if p.Full? then p
    else Full(p.header, seq(|p.compactSheets|, i requires 0 <= i < |p.compactSheets| =>
      Sheet(p.compactSheets[i].name, p.compactSheets[i].withReplacement,
            CardsFrom(p.compactSheets[i].cardRefs, p.cardPool))))
  }

  lemma RefsReadBack(pool: seq<Card>, cards: seq<Card>)
    requires Pooled(pool, cards)
    ensures InRange(RefsTo(pool, cards), pool) && CardsFrom(RefsTo(pool, cards), pool) == cards
  {
    var refs := RefsTo(pool, cards);
    forall i | 0 <= i < |cards|
      ensures CardsFrom(refs, pool)[i] == cards[i]
    {
      assert pool[refs[i].cardIndex - 1] == Identity(cards[i]);
    }
  }

  /** Interning loses nothing: the sheets come back in order, with every card and weight. */
  lemma InterningLosesNothing(p: Product)
    requires p.Full?
    ensures Readable(Interned(p)) && Expanded(Interned(p)) == p
  {
    var c := Interned(p);
    FirstsPool(p.sheets);
    forall i | 0 <= i < |p.sheets|
      ensures InRange(c.compactSheets[i].cardRefs, c.cardPool)
      ensures CardsFrom(c.compactSheets[i].cardRefs, c.cardPool) == p.sheets[i].cards
    {
      RefsReadBack(c.cardPool, p.sheets[i].cards);
    }
    assert Expanded(c).sheets == p.sheets;
  }

  ghost predicate Refers(p: Product, k: nat)
    requires p.Compact?
  {
    exists i, j :: 0 <= i < |p.compactSheets| && 0 <= j < |p.compactSheets[i].cardRefs|
        && p.compactSheets[i].cardRefs[j].cardIndex == k
  }

  /** The pool holds distinct identities of weight one, and every entry is used. */
  lemma PoolIsTight(p: Product)
    requires p.Full?
    ensures var c := Interned(p);
            && (forall i, j | 0 <= i < j < |c.cardPool| :: c.cardPool[i] != c.cardPool[j])
            && (forall i | 0 <= i < |c.cardPool| :: c.cardPool[i].weight == 1 && Refers(c, i + 1))
  {
    var c := Interned(p);
    FirstsKeep(Identities(p.sheets));
    IdentitiesHold(p.sheets);
    FirstsPool(p.sheets);
    forall k | 0 <= k < |c.cardPool|
      ensures c.cardPool[k].weight == 1 && Refers(c, k + 1)
    {
      assert c.cardPool[k] in Identities(p.sheets);
      var i, j :| 0 <= i < |p.sheets| && 0 <= j < |p.sheets[i].cards|
          && Identity(p.sheets[i].cards[j]) == c.cardPool[k];
      assert c.compactSheets[i].cardRefs[j].cardIndex == At(c.cardPool, c.cardPool[k]) + 1;
    }
  }

  // ---- no smaller pool -------------------------------------------------------------------------

  function Entries(pool: seq<Card>): set<Card> {
    set i | 0 <= i < |pool| :: Identity(pool[i])
  }

  lemma {:induction false} EntriesAreFew(pool: seq<Card>)
    ensures |Entries(pool)| <= |pool|
    ensures (forall i, j | 0 <= i < j < |pool| :: Identity(pool[i]) != Identity(pool[j])) ==> |Entries(pool)| == |pool|
  {
    if pool != [] {
      var before, last := pool[..|pool| - 1], pool[|pool| - 1];
      EntriesAreFew(before);
      assert Entries(pool) == Entries(before) + {Identity(last)} by {
        assert forall i | 0 <= i < |before| :: Identity(before[i]) == Identity(pool[i]);
      }
    }
  }

  lemma SubsetIsSmaller(a: set<Card>, b: set<Card>)
    requires a <= b
    ensures |a| <= |b|
  {
    assert b == a + (b - a);
  }

  lemma UsedIsEntry(p: Product, q: Product, c: Card)
    requires p.Full? && q.Compact? && Readable(q) && Expanded(q) == p && UsedIn(p.sheets, c)
    ensures c in Entries(q.cardPool)
  {
    var i, j :| 0 <= i < |p.sheets| && 0 <= j < |p.sheets[i].cards| && Identity(p.sheets[i].cards[j]) == c;
    var index := q.compactSheets[i].cardRefs[j].cardIndex - 1;
    assert p.sheets[i].cards == CardsFrom(q.compactSheets[i].cardRefs, q.cardPool);
    assert Identity(q.cardPool[index]) == c;
  }

  /** Any pool from which the product can be read back has at least as many entries. */
  lemma NoSmallerPool(p: Product, q: Product)
    requires p.Full? && q.Compact? && Readable(q) && Expanded(q) == p
    ensures |Interned(p).cardPool| <= |q.cardPool|
  {
    var pool := Interned(p).cardPool;
    PoolIsTight(p);
    FirstsKeep(Identities(p.sheets));
    IdentitiesHold(p.sheets);
    assert pool == Firsts(Identities(p.sheets));
    hide Interned, Firsts, Identities, Expanded, Readable, UsedIn, Refers;
    forall k | 0 <= k < |pool|
      ensures Identity(pool[k]) == pool[k] && pool[k] in Entries(q.cardPool)
    {
      UsedIsEntry(p, q, pool[k]);
    }
    EntriesAreFew(pool);
    EntriesAreFew(q.cardPool);
    SubsetIsSmaller(Entries(pool), Entries(q.cardPool));
  }

  // ---- compact_product -------------------------------------------------------------------------

  lemma {:induction false} AtStays(pool: seq<Card>, more: seq<Card>, c: Card)
    requires c in pool
    ensures c in pool + more && At(pool + more, c) == At(pool, c)
  {
    if pool[0] != c {
      assert (pool + more)[1..] == pool[1..] + more;
      AtStays(pool[1..], more, c);
    }
  }

  lemma RefsStay(pool: seq<Card>, more: seq<Card>, cards: seq<Card>)
    requires Pooled(pool, cards)
    ensures Pooled(pool + more, cards) && RefsTo(pool + more, cards) == RefsTo(pool, cards)
  {
    forall i | 0 <= i < |cards|
      ensures Identity(cards[i]) in pool + more && At(pool + more, Identity(cards[i])) == At(pool, Identity(cards[i]))
    {
      AtStays(pool, more, Identity(cards[i]));
    }
    assert RefsTo(pool + more, cards) == RefsTo(pool, cards);
  }

  lemma SheetsStay(pool: seq<Card>, more: seq<Card>, sheets: seq<Sheet>)
    requires AllPooled(pool, sheets)
    ensures AllPooled(pool + more, sheets) && SheetsTo(pool + more, sheets) == SheetsTo(pool, sheets)
  {
    forall i | 0 <= i < |sheets|
      ensures Pooled(pool + more, sheets[i].cards) && RefsTo(pool + more, sheets[i].cards)
              == RefsTo(pool, sheets[i].cards)
    {
      RefsStay(pool, more, sheets[i].cards);
    }
    assert SheetsTo(pool + more, sheets) == SheetsTo(pool, sheets);
  }

  /** The dictionary tells every pooled identity's one-based place. */
  ghost predicate Indexes(indices: map<Card, nat>, pool: seq<Card>) {
    (forall c :: c in indices <==> c in pool) && (forall c | c in pool :: indices[c] == At(pool, c) + 1)
  }

  lemma IndexesGrow(indices: map<Card, nat>, pool: seq<Card>, c: Card)
    requires Indexes(indices, pool) && c !in pool
    ensures Indexes(indices[c := |pool| + 1], pool + [c])
  {
    forall d | d in pool + [c]
      ensures indices[c := |pool| + 1][d] == At(pool + [c], d) + 1
    {
      if d in pool {
        AtStays(pool, [c], d);
      } else {
        AtNew(pool, c);
      }
    }
  }

  lemma {:induction false} AtNew(pool: seq<Card>, c: Card)
    requires c !in pool
    ensures At(pool + [c], c) == |pool|
  {
    if pool != [] {
      assert (pool + [c])[1..] == pool[1..] + [c];
      AtNew(pool[1..], c);
    }
  }

  lemma RefsAppend(pool: seq<Card>, cards: seq<Card>, card: Card)
    requires Pooled(pool, cards) && Identity(card) in pool
    ensures Pooled(pool, cards + [card])
    ensures RefsTo(pool, cards + [card]) == RefsTo(pool, cards) + [Ref(At(pool, Identity(card)) + 1, card.weight)]
  {
  }

  lemma SheetsAppend(pool: seq<Card>, sheets: seq<Sheet>, sheet: Sheet)
    requires AllPooled(pool, sheets) && Pooled(pool, sheet.cards)
    ensures AllPooled(pool, sheets + [sheet])
    ensures SheetsTo(pool, sheets + [sheet])
            == SheetsTo(pool, sheets) + [CompactSheet(sheet.name, sheet.withReplacement, RefsTo(pool, sheet.cards))]
  {
  }

  /** An identity enters the pool when it is first seen. */
  method InternCard(identity: Card, pool: seq<Card>, indices: map<Card, nat>, ghost seen: seq<Card>)
    returns (pool': seq<Card>, indices': map<Card, nat>)
    requires pool == Firsts(seen) && Indexes(indices, pool)
    ensures pool <= pool' && pool' == Firsts(seen + [identity]) && Indexes(indices', pool') && identity in pool'
  {
    pool', indices' := pool, indices;
    assert (seen + [identity])[..|seen|] == seen;
    if identity !in indices {
      IndexesGrow(indices, pool, identity);
      pool' := pool + [identity];
      indices' := indices[identity := |pool'|];
    }
  }

  /** One sheet's references; the pool and the dictionary grow by the identities not seen before. */
  method InternSheet(cards: seq<Card>, pool: seq<Card>, indices: map<Card, nat>, ghost seen: seq<Card>)
    returns (refs: seq<Ref>, pool': seq<Card>, indices': map<Card, nat>)
    requires pool == Firsts(seen) && Indexes(indices, pool)
    ensures pool <= pool' && pool' == Firsts(seen + IdentitiesOf(cards)) && Indexes(indices', pool')
    ensures Pooled(pool', cards) && refs == RefsTo(pool', cards)
  {
    hide Firsts;
    refs, pool', indices' := [], pool, indices;
    assert seen + [] == seen;
    for j := 0 to |cards|
      invariant pool <= pool' && pool' == Firsts(seen + IdentitiesOf(cards[..j])) && Indexes(indices', pool')
      invariant Pooled(pool', cards[..j]) && refs == RefsTo(pool', cards[..j])
    {
      ghost var before, sofar := pool', seen + IdentitiesOf(cards[..j]);
      assert cards[..j + 1] == cards[..j] + [cards[j]];
      assert seen + IdentitiesOf(cards[..j + 1]) == sofar + [Identity(cards[j])];
      pool', indices' := InternCard(Identity(cards[j]), pool', indices', sofar);
      assert before + pool'[|before|..] == pool';
      RefsStay(before, pool'[|before|..], cards[..j]);
      RefsAppend(pool', cards[..j], cards[j]);
      refs := refs + [Ref(indices'[Identity(cards[j])], cards[j].weight)];
    }
    assert cards[..|cards|] == cards;
  }

  /** The interned product, sheet by sheet. */
  method Intern(product: Product) returns (compact: Product)
    requires product.Full?
    ensures compact == Interned(product)
  {
    hide Firsts, Indexes;
    var pool: seq<Card>, indices: map<Card, nat>, sheets: seq<CompactSheet> := [], map[], [];
    NothingSeen();
    for i := 0 to |product.sheets|
      invariant pool == Firsts(Identities(product.sheets[..i])) && Indexes(indices, pool)
      invariant AllPooled(pool, product.sheets[..i]) && sheets == SheetsTo(pool, product.sheets[..i])
    {
      var sheet := product.sheets[i];
      ghost var before, done := pool, product.sheets[..i];
      assert product.sheets[..i + 1] == done + [sheet] && (done + [sheet])[..i] == done;
      var refs, pool', indices' := InternSheet(sheet.cards, pool, indices, Identities(done));
      assert before + pool'[|before|..] == pool';
      SheetsStay(before, pool'[|before|..], done);
      SheetsAppend(pool', done, sheet);
      pool, indices := pool', indices';
      sheets := sheets + [CompactSheet(sheet.name, sheet.withReplacement, refs)];
    }
    assert product.sheets[..|product.sheets|] == product.sheets;
    return Compact(product.header, sheets, pool);
  }

  lemma NothingSeen()
    ensures Firsts(Identities([])) == [] && Indexes(map[], [])
  {
  }

  /** `compact_product`: small products stay, and so do those that interning would not shrink. */
  method CompactProduct(product: Product, bytes: Product -> nat) returns (r: Product)
    requires product.Full?
    ensures Readable(r) && Expanded(r) == product && bytes(r) <= bytes(product)
    ensures r.Compact? <==> bytes(product) > MAX_ENCODED_PRODUCT_BYTES / 2 && bytes(Interned(product)) < bytes(product)
    ensures r.Compact? ==> r == Interned(product)
  {
    if bytes(product) <= MAX_ENCODED_PRODUCT_BYTES / 2 {
      return product;
    }
    var compact := Intern(product);
    InterningLosesNothing(product);
    return if bytes(compact) < bytes(product) then compact else product;
  }
}
