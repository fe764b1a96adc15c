/** The list of orders, page by page: OrderRepo.GetOrders and the walk a client makes with its cursor
    while orders come and go. */
module PageWalk {
  import opened Domain

  const DEFAULT_LIMIT := 50
  const MAX_LIMIT := 100

  datatype ItemRow = ItemRow(order: nat, product: int, quantity: int, price: int)

  /** One statement's view of the tables: orders by id, item rows in id order. */
  datatype Snapshot = Snapshot(orders: map<nat, OrderStatus>, items: seq<ItemRow>)

  datatype Listed = Listed(id: nat, status: OrderStatus, items: seq<ItemRow>)

  /** OrderService.GetOrders. */
  function ClampLimit(limit: int): (r: nat)
    ensures 1 <= r <= MAX_LIMIT
    ensures r == limit || (limit <= 0 && r == DEFAULT_LIMIT) || (limit > MAX_LIMIT && r == MAX_LIMIT)
  {
    var l := if limit <= 0 then DEFAULT_LIMIT else limit;
    if l > MAX_LIMIT then MAX_LIMIT else l
  }

  /** A cursor without a positive id starts from the top. */
  predicate Below(id: nat, cursor: Option<nat>) {
    cursor.None? || cursor.value == 0 || id < cursor.value
  }

  function ItemsOf(items: seq<ItemRow>, order: nat): seq<ItemRow> {
    if items == [] then []
    else
      var n := |items| - 1;
      ItemsOf(items[..n], order) + (if items[n].order == order then [items[n]] else [])
  }

  /** The highest ids below the cursor, in descending order, at most `limit` of them. */
  ghost predicate NewestBelow(orders: map<nat, OrderStatus>, limit: nat, cursor: Option<nat>, ids: seq<nat>) {
    && |ids| <= limit
    && (forall i | 0 <= i < |ids| :: ids[i] in orders && Below(ids[i], cursor))
    && (forall i, j | 0 <= i < j < |ids| :: ids[i] > ids[j])
    && (forall id | id in orders && Below(id, cursor) ::
          id in ids || (|ids| == limit && forall i | 0 <= i < |ids| :: id < ids[i]))
  }

  function Ids(page: seq<Listed>): (ids: seq<nat>)
    ensures |ids| == |page| && forall i | 0 <= i < |page| :: ids[i] == page[i].id
  {
    seq(|page|, i requires 0 <= i < |page| => page[i].id)
  }

  function NextCursor(ids: seq<nat>, limit: nat): Option<nat> {
    if ids != [] && |ids| == limit then Some(ids[|ids| - 1]) else None
  }

  /** What one call returns: orders seen by its first statement, with the items seen by its second. */
  ghost predicate PageOk(first: Snapshot, second: Snapshot, limit: nat, cursor: Option<nat>, page: seq<Listed>,
                         next: Option<nat>) {
    && NewestBelow(first.orders, limit, cursor, Ids(page))
    && (forall i | 0 <= i < |page| ::
          page[i].status == first.orders[page[i].id] && page[i].items == ItemsOf(second.items, page[i].id))
    && next == NextCursor(Ids(page), limit)
  }

  method Greatest(s: set<nat>) returns (m: nat)
    requires s != {}
    ensures m in s && forall x | x in s :: x <= m
  {
    m :| m in s;
    var rest := s - {m};
    while rest != {}
      invariant m in s && rest <= s
      invariant forall x | x in s && x !in rest :: x <= m
      decreases rest
    {
      var x :| x in rest;
      if x > m { m := x; }
      rest := rest - {x};
    }
  }

  /** SELECT ... WHERE id < cursor ORDER BY id DESC LIMIT limit. */
  method SelectOrders(orders: map<nat, OrderStatus>, limit: nat, cursor: Option<nat>) returns (page: seq<Listed>)
    ensures NewestBelow(orders, limit, cursor, Ids(page))
    ensures forall i | 0 <= i < |page| :: page[i].status == orders[page[i].id] && page[i].items == []
  {
    page := [];
    var rest := set id | id in orders && Below(id, cursor);
    while rest != {} && |page| < limit
      invariant |page| <= limit && (forall id | id in rest :: id in orders && Below(id, cursor))
      invariant forall i | 0 <= i < |page| ::
        page[i].id in orders && page[i].status == orders[page[i].id] && page[i].items == []
      invariant forall i | 0 <= i < |page| :: Below(page[i].id, cursor)
      invariant forall id | id in orders && Below(id, cursor) :: id in rest || id in Ids(page)
      invariant forall i, id | 0 <= i < |page| && id in rest :: id < page[i].id
      invariant forall i, j | 0 <= i < j < |page| :: page[i].id > page[j].id
      decreases rest
    {
      var id := Greatest(rest);
      ghost var before := page;
      page, rest := page + [Listed(id, orders[id], [])], rest - {id};
      assert Ids(page) == Ids(before) + [id];
    }
  }

  /** The rows of the second query, grouped by order. */
  method GroupItems(items: seq<ItemRow>, ids: seq<nat>) returns (byOrder: map<nat, seq<ItemRow>>)
    ensures forall id | id in byOrder :: id in ids
    ensures forall id | id in ids :: ItemsOf(items, id) == if id in byOrder then byOrder[id] else []
  {
    byOrder := map[];
    var i := 0;
    while i < |items|
      invariant 0 <= i <= |items| && forall id | id in byOrder :: id in ids
      invariant forall id | id in ids :: ItemsOf(items[..i], id) == if id in byOrder then byOrder[id] else []
    {
      var item := items[i];
      assert items[..i + 1][..i] == items[..i];
      if item.order in ids {
        byOrder := byOrder[item.order := (if item.order in byOrder then byOrder[item.order] else []) + [item]];
      }
      i := i + 1;
    }
    assert items[..i] == items;
  }

  method PageIds(page: seq<Listed>) returns (ids: seq<nat>)
    ensures ids == Ids(page)
  {
    ids := [];
    var i := 0;
    while i < |page|
      invariant 0 <= i <= |page| && ids == Ids(page)[..i]
    {
      ids := ids + [page[i].id];
      i := i + 1;
    }
  }

  method AttachItems(found: seq<Listed>, byOrder: map<nat, seq<ItemRow>>) returns (page: seq<Listed>)
    ensures |page| == |found|
    ensures forall k | 0 <= k < |page| ::
      page[k] == found[k].(items := if found[k].id in byOrder then byOrder[found[k].id] else [])
  {
    page := found;
    var i := 0;
    while i < |page|
      invariant 0 <= i <= |page| == |found|
      invariant forall k | 0 <= k < i ::
        page[k] == found[k].(items := if found[k].id in byOrder then byOrder[found[k].id] else [])
      invariant forall k | i <= k < |page| :: page[k] == found[k]
    {
      page := page[i := page[i].(items := if page[i].id in byOrder then byOrder[page[i].id] else [])];
      i := i + 1;
    }
  }

  /** OrderRepo.GetOrders; `second` is what its items query sees. */
  method GetOrders(first: Snapshot, second: Snapshot, limit: nat, cursor: Option<nat>)
    returns (page: seq<Listed>, next: Option<nat>)
    ensures PageOk(first, second, limit, cursor, page, next)
  {
    var found := SelectOrders(first.orders, limit, cursor);
    if found == [] { return found, None; }
    var ids := PageIds(found);
    var byOrder := GroupItems(second.items, ids);
    page := AttachItems(found, byOrder);
    assert Ids(page) == Ids(found);
    forall i | 0 <= i < |page| ensures page[i].items == ItemsOf(second.items, page[i].id) {
      assert ids[i] in ids;
    }
    next := None;
    if |page| == limit {
      next := Some(page[|page| - 1].id);
    }
  }

  /** OrderService.GetOrders over the repository. */
  method ListOrders(first: Snapshot, second: Snapshot, limit: int, cursor: Option<nat>)
    returns (page: seq<Listed>, next: Option<nat>)
    ensures PageOk(first, second, ClampLimit(limit), cursor, page, next)
  {
    var l := limit;
    if l <= 0 { l := DEFAULT_LIMIT; }
    if l > MAX_LIMIT { l := MAX_LIMIT; }
    page, next := GetOrders(first, second, l, cursor);
  }

  // ----- the walk

  /** One call of the walk: the tables as each statement found them, and the answer. */
  datatype Visit = Visit(first: Snapshot, second: Snapshot, page: seq<Listed>, next: Option<nat>)

  /** The cursor after these calls. */
  function Cursor(visits: seq<Visit>, start: Option<nat>): Option<nat> {
    if visits == [] then start else visits[|visits| - 1].next
  }

  /** Each call uses the cursor of the one before; only the last answer may have none. Between any two
      statements the tables may have changed in any way. Ids are positive. */
  ghost predicate Walk(visits: seq<Visit>, limit: nat, start: Option<nat>) {
    visits == [] ||
    var init, last := visits[..|visits| - 1], visits[|visits| - 1];
    && Walk(init, limit, start) && (init != [] ==> Cursor(init, start).Some?)
    && 0 !in last.first.orders
    && PageOk(last.first, last.second, limit, Cursor(init, start), last.page, last.next)
  }

  function Shown(visits: seq<Visit>): seq<Listed> {
    if visits == [] then [] else Shown(visits[..|visits| - 1]) + visits[|visits| - 1].page
  }

  function ShownIds(visits: seq<Visit>): seq<nat> {
    Ids(Shown(visits))
  }

  ghost predicate Descending(ids: seq<nat>) {
    forall i, j | 0 <= i < j < |ids| :: ids[i] > ids[j]
  }

  ghost predicate AllBelow(ids: seq<nat>, cursor: Option<nat>) {
    forall i | 0 <= i < |ids| :: ids[i] > 0 && Below(ids[i], cursor)
  }

  lemma ShownIdsAppend(visits: seq<Visit>)
    requires visits != []
    ensures ShownIds(visits) == ShownIds(visits[..|visits| - 1]) + Ids(visits[|visits| - 1].page)
  {
  }

  /** Two runs of descending ids, the second below the last of the first. */
  lemma DescendingAppend(a: seq<nat>, b: seq<nat>, start: Option<nat>)
    requires Descending(a) && Descending(b) && AllBelow(a, start)
    requires a != [] && AllBelow(b, Some(a[|a| - 1]))
    ensures Descending(a + b) && AllBelow(a + b, start)
  {
    assert Below(a[|a| - 1], start);
    forall i | 0 <= i < |b| ensures b[i] < a[|a| - 1] && Below(b[i], start) { assert Below(b[i], Some(a[|a| - 1])); }
  }

  lemma PageFacts(orders: map<nat, OrderStatus>, limit: nat, cursor: Option<nat>, ids: seq<nat>)
    requires NewestBelow(orders, limit, cursor, ids) && 0 !in orders
    ensures Descending(ids) && AllBelow(ids, cursor)
  {
  }

  /** Everything shown is in descending order, and a further cursor is the last id shown. */
  lemma {:induction false} WalkDescends(visits: seq<Visit>, limit: nat, start: Option<nat>)
    requires Walk(visits, limit, start)
    ensures Descending(ShownIds(visits)) && AllBelow(ShownIds(visits), start)
    ensures visits != [] && Cursor(visits, start).Some? ==> EndsAt(ShownIds(visits), Cursor(visits, start).value)
  {
    if visits != [] {
      var init, last := visits[..|visits| - 1], visits[|visits| - 1];
      WalkDescends(init, limit, start);
      ShownIdsAppend(visits);
      PageFacts(last.first.orders, limit, Cursor(init, start), Ids(last.page));
      NextPage(ShownIds(init), Ids(last.page), limit, start, Cursor(init, start));
    } else {
      assert ShownIds(visits) == [];
    }
  }

  ghost predicate EndsAt(ids: seq<nat>, last: nat) {
    ids != [] && ids[|ids| - 1] == last
  }

  lemma NextPage(shown: seq<nat>, page: seq<nat>, limit: nat, start: Option<nat>, cursor: Option<nat>)
    requires Descending(shown) && Descending(page) && AllBelow(shown, start) && AllBelow(page, cursor)
    requires (shown == [] && cursor == start) || (cursor.Some? && EndsAt(shown, cursor.value))
    ensures Descending(shown + page) && AllBelow(shown + page, start)
    ensures NextCursor(page, limit).Some? ==> EndsAt(shown + page, NextCursor(page, limit).value)
  {
    if shown == [] { assert shown + page == page; } else { DescendingAppend(shown, page, start); }
  }

  /** The order is in every page's tables. */
  ghost predicate ThereThroughout(visits: seq<Visit>, id: nat) {
    forall i | 0 <= i < |visits| :: id in visits[i].first.orders
  }

  ghost predicate ItemsThroughout(visits: seq<Visit>, id: nat, items: seq<ItemRow>) {
    forall i | 0 <= i < |visits| :: ItemsOf(visits[i].second.items, id) == items
  }

  /** What a page leaves out lies below its cursor. */
  lemma PageMisses(orders: map<nat, OrderStatus>, limit: nat, cursor: Option<nat>, ids: seq<nat>, id: nat)
    requires NewestBelow(orders, limit, cursor, ids) && id in orders && Below(id, cursor) && limit > 0
    ensures id in ids || (NextCursor(ids, limit).Some? && Below(id, NextCursor(ids, limit)))
  {
    assert id !in ids ==> id < ids[limit - 1];
  }

  lemma {:induction false} WalkMisses(visits: seq<Visit>, limit: nat, start: Option<nat>, id: nat)
    requires Walk(visits, limit, start) && ThereThroughout(visits, id) && Below(id, start) && limit > 0
    ensures id in ShownIds(visits) || (Below(id,
                                             Cursor(visits, start)) && (visits != [] ==> Cursor(visits, start).Some?))
  {
    if visits != [] {
      var init, last := visits[..|visits| - 1], visits[|visits| - 1];
      assert ThereThroughout(init, id) by {
        forall i | 0 <= i < |init| ensures id in init[i].first.orders { assert init[i] == visits[i]; }
      }
      WalkMisses(init, limit, start, id);
      ShownIdsAppend(visits);
      if id !in ShownIds(init) { PageMisses(last.first.orders, limit, Cursor(init, start), Ids(last.page), id); }
    }
  }

  lemma {:induction false} ShownHasItems(visits: seq<Visit>, limit: nat, start: Option<nat>, id: nat,
                                         items: seq<ItemRow>, k: nat)
    requires Walk(visits, limit, start) && ItemsThroughout(visits, id, items)
    requires k < |Shown(visits)| && Shown(visits)[k].id == id
    ensures Shown(visits)[k].items == items
  {
    var n := |visits| - 1;
    var init := visits[..n];
    if k < |Shown(init)| {
      assert ItemsThroughout(init, id, items) by {
        forall i | 0 <= i < |init| ensures ItemsOf(init[i].second.items, id) == items { assert init[i] == visits[i]; }
      }
      ShownHasItems(init, limit, start, id, items, k);
    } else {
      PageHasItems(visits[n], limit, Cursor(init, start), k - |Shown(init)|);
    }
  }

  lemma PageHasItems(v: Visit, limit: nat, cursor: Option<nat>, k: nat)
    requires PageOk(v.first, v.second, limit, cursor, v.page, v.next) && k < |v.page|
    ensures v.page[k].items == ItemsOf(v.second.items, v.page[k].id)
  {
  }

  /** A finished walk shows every order that was there all along and below its start exactly once, in
      descending order, with exactly its items, whatever was inserted or deleted meanwhile. */
  lemma WalkShowsEachOrderOnce(visits: seq<Visit>, limit: nat, start: Option<nat>, id: nat, items: seq<ItemRow>)
    requires Walk(visits, limit, start) && limit > 0 && visits != [] && visits[|visits| - 1].next.None?
    requires Below(id, start) && ThereThroughout(visits, id) && ItemsThroughout(visits, id, items)
    ensures Descending(ShownIds(visits))
    ensures exists k ::
      && 0 <= k < |Shown(visits)| && Shown(visits)[k].id == id && Shown(visits)[k].items == items
      && forall j | 0 <= j < |Shown(visits)| && Shown(visits)[j].id == id :: j == k
  {
    WalkMisses(visits, limit, start, id);
    WalkDescends(visits, limit, start);
    var ids := ShownIds(visits);
    var k :| 0 <= k < |ids| && ids[k] == id;
    ShownHasItems(visits, limit, start, id, items, k);
    forall j | 0 <= j < |Shown(visits)| && Shown(visits)[j].id == id ensures j == k {
      assert ids[j] == ids[k];
    }
  }

  lemma {:induction false} ShownIsFull(visits: seq<Visit>, limit: nat, start: Option<nat>)
    requires Walk(visits, limit, start) && (visits != [] ==> Cursor(visits, start).Some?)
    ensures |Shown(visits)| == |visits| * limit
  {
    if visits != [] {
      var n := |visits| - 1;
      ShownIsFull(visits[..n], limit, start);
      OneMorePage(n, limit);
    }
  }

  lemma OneMorePage(n: nat, limit: nat)
    ensures (n + 1) * limit == n * limit + limit
  {
  }

  lemma {:induction false} DescendingCounts(ids: seq<nat>, i: nat, start: Option<nat>)
    requires i < |ids| && Descending(ids) && AllBelow(ids, start)
    ensures ids[i] >= |ids| - i
    decreases |ids| - i
  {
    if i < |ids| - 1 { DescendingCounts(ids, i + 1, start); }
  }

  /** The walk ends: answers that carry a further cursor are all full, so there are at most as many as
      the first id shown allows; from a cursor c that is at most (c - 1) / limit. */
  lemma WalkEnds(visits: seq<Visit>, limit: nat, start: Option<nat>)
    requires Walk(visits, limit, start) && limit > 0
    requires visits != [] && visits[|visits| - 1].next.Some?
    ensures ShownIds(visits) != [] && |visits| * limit <= ShownIds(visits)[0]
    ensures start.Some? && start.value > 0 ==> |visits| * limit <= start.value - 1
  {
    WalkDescends(visits, limit, start);
    ShownIsFull(visits, limit, start);
    DescendingCounts(ShownIds(visits), 0, start);
    assert Below(ShownIds(visits)[0], start);
  }
}
